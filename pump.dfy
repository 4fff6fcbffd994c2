/** LogPump: one attached container, its identity and the log channels
    registered on it. */
module Pump {
  import opened Types
  import opened Lines
  import Fanout

  class LogPump {
    const id: string
    const name: string
    var channels: set<LogChan>

    /** NewLogPump without its two read goroutines (see Pump). */
    constructor (id: string, name: string)
      ensures this.id == id && this.name == name && channels == {}
    {
      this.id := id;
      this.name := name;
      channels := {};
    }

    /** LogPump.AddListener: inserts exactly `ch`; adding it again changes nothing. */
    method AddListener(ch: LogChan)
      modifies this
      ensures channels == old(channels) + {ch}
      ensures ch in old(channels) ==> channels == old(channels)
    {
      channels := channels + {ch};
    }

    /** LogPump.RemoveListener: deletes exactly `ch`; removing an absent channel changes nothing. */
    method RemoveListener(ch: LogChan)
      modifies this
      ensures channels == old(channels) - {ch}
      ensures ch !in old(channels) ==> channels == old(channels)
    {
      channels := channels - {ch};
    }

    /** LogPump.send: every registered channel receives `log` once. */
    method Send(log: Log) returns (sent: seq<Delivery<LogChan, Log>>)
      ensures Fanout.Broadcast(sent, log, channels)
      ensures |sent| == |channels|
    {
      sent := Fanout.Send(channels, log);
      Fanout.BroadcastCount(sent, log, channels);
    }

    /** The `pump` closure of NewLogPump run over the whole of one stream:
        read a line, stop on the read error, otherwise broadcast its record.
        `rounds[i]` is the broadcast of `logs[i]`. */
    method Pump(typ: string, source: seq<byte>) returns (logs: seq<Log>, rounds: seq<seq<Delivery<LogChan, Log>>>)
      ensures logs == Records(id, name, typ, source)
      ensures |rounds| == |logs|
      ensures forall i :: 0 <= i < |rounds| ==> Fanout.Broadcast(rounds[i], logs[i], channels)
    {
      logs, rounds := [], [];
      var buf := source;
      while true
        invariant Records(id, name, typ, source) == logs + Records(id, name, typ, buf)
        invariant |rounds| == |logs|
        invariant forall i :: 0 <= i < |rounds| ==> Fanout.Broadcast(rounds[i], logs[i], channels)
        decreases |buf|
      {
        var r := ReadBytes(buf, NL);
        RecordsStep(id, name, typ, buf);
        if r.Eof? {
          assert logs + [] == logs;
          return;
        }
        var log := Log(id, name, typ, TrimNewline(r.data));
        var sent := Send(log);
        assert logs + [log] + Records(id, name, typ, r.rest) == logs + ([log] + Records(id, name, typ, r.rest));
        ghost var logs0, rounds0 := logs, rounds;
        logs, rounds := logs + [log], rounds + [sent];
        forall k | 0 <= k < |rounds| ensures Fanout.Broadcast(rounds[k], logs[k], channels) {
          if k < |rounds0| {
            assert rounds[k] == rounds0[k] && logs[k] == logs0[k];
          } else {
            assert rounds[k] == sent && logs[k] == log;
          }
        }
        buf := r.rest;
      }
    }
  }
}
