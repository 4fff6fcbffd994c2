/** The values exchanged by the attacher: lifecycle events, log records,
    subscription filters and the channels they travel on. */
module Types {

  datatype Option<T> = None | Some(value: T)

  /** One octet of a container's output stream. */
  newtype byte = x: int | 0 <= x < 256

  /** The line delimiter passed to ReadBytes. */
  const NL: byte := 10

  /** A `chan *AttachEvent`; two handles are the same channel exactly when equal. */
  datatype EventChan = EventChan(handle: nat)

  /** A `chan *Log`. */
  datatype LogChan = LogChan(handle: nat)

  /** The values the `Type` field of an AttachEvent takes. */
  const ATTACH: string := "attach"
  const DETACH: string := "detach"

  /** The stream types a pump tags its records with. */
  const STDOUT: string := "stdout"
  const STDERR: string := "stderr"

  /** The status of a runtime event that triggers an attach. */
  const START: string := "start"

  /** AttachEvent: `typ` is the Go field `Type`. */
  datatype AttachEvent = AttachEvent(typ: string, id: string, name: string)

  /** Log: one line of a container stream; `data` holds the bytes of the Go string. */
  datatype Log = Log(id: string, name: string, typ: string, data: seq<byte>)

  /** Source: the subscription filter; `types` is declared but never consulted. */
  datatype Source = Source(id: string, name: string, filter: string, types: seq<string>)

  /** The part of a runtime event (docker.APIEvents) the manager reads. */
  datatype APIEvent = APIEvent(status: string, id: string)

  /** Message `msg` handed to channel `ch` by one send statement. */
  datatype Delivery<C, T> = Delivery(ch: C, msg: T)
}
