/** The framing done by a pump's read loop: bufio.Reader.ReadBytes('\n'),
    strings.TrimSuffix(..., "\n") and the records the loop emits. */
module Lines {
  import opened Types

  /** Position of the first `b` in `s`, or |s| when there is none. */
  function IndexOf(s: seq<byte>, b: byte): (k: nat)
    ensures k <= |s|
    ensures k < |s| ==> s[k] == b
    ensures forall j :: 0 <= j < k ==> s[j] != b
  {
    if s == [] then 0
    else if s[0] == b then 0
    else 1 + IndexOf(s[1..], b)
  }

  /** What one ReadBytes call gives: a line that ends in the delimiter, with
      the unread rest, or the error at end of input with what was left. */
  datatype ReadResult = Line(data: seq<byte>, rest: seq<byte>) | Eof(partial: seq<byte>)

  /** bufio.Reader.ReadBytes over a finite stream (ReadBytesLine says what a
      line is). */
  function ReadBytes(buf: seq<byte>, delim: byte): (r: ReadResult)
    ensures r.Line? ==> |r.rest| < |buf|
    ensures r.Eof? ==> r.partial == buf && delim !in buf
  {
    var k := IndexOf(buf, delim);
    if k < |buf| then Line(buf[..k + 1], buf[k + 1..])
    else
      Eof(buf)
  }

  /** A line is the input up to and including the first delimiter. */
  lemma ReadBytesLine(buf: seq<byte>, delim: byte)
    requires ReadBytes(buf, delim).Line?
    ensures var r := ReadBytes(buf, delim);
      && |r.data| > 0
      && r.data[|r.data| - 1] == delim
      && delim !in r.data[..|r.data| - 1]
      && r.data + r.rest == buf
  {
    var k := IndexOf(buf, delim);
    assert buf[..k + 1] + buf[k + 1..] == buf;
  }

  /** strings.TrimSuffix(data, "\n"). */
  function TrimNewline(data: seq<byte>): (r: seq<byte>)
    ensures |data| > 0 && data[|data| - 1] == NL ==> r + [NL] == data
    ensures !(|data| > 0 && data[|data| - 1] == NL) ==> r == data
  {
    if |data| > 0 && data[|data| - 1] == NL then data[..|data| - 1] else data
  }

  /** The records one pump loop emits for stream `input` of type `typ`:
      one per complete line, stopping at the first read error. */
  function Records(id: string, name: string, typ: string, input: seq<byte>): seq<Log>
    decreases |input|
  {
    match ReadBytes(input, NL)
    case Eof(_) => []
    case Line(data, rest) => [Log(id, name, typ, TrimNewline(data))] + Records(id, name, typ, rest)
  }

  /** One turn of the read loop: stop on the read error, or emit the line's
      record and go on with the rest. */
  lemma RecordsStep(id: string, name: string, typ: string, input: seq<byte>)
    ensures ReadBytes(input, NL).Eof? ==> Records(id, name, typ, input) == []
    ensures ReadBytes(input, NL).Line? ==>
      Records(id, name, typ, input)
        == [Log(id, name, typ, TrimNewline(ReadBytes(input, NL).data))] + Records(id, name, typ, ReadBytes(input, NL).rest)
  {
  }

  /** The data of a sequence of records. */
  function Datas(logs: seq<Log>): (r: seq<seq<byte>>)
    ensures |r| == |logs|
    ensures forall i :: 0 <= i < |logs| ==> r[i] == logs[i].data
  {
    if logs == [] then [] else [logs[0].data] + Datas(logs[1..])
  }

  /** The stream that writes each line followed by the delimiter. */
  function Joined(lines: seq<seq<byte>>): seq<byte> {
    if lines == [] then [] else lines[0] + [NL] + Joined(lines[1..])
  }

  /** Every record carries the pump's identity and stream type, and its data
      is a line without delimiter. */
  lemma {:induction false} RecordsShape(id: string, name: string, typ: string, input: seq<byte>)
    ensures forall i :: 0 <= i < |Records(id, name, typ, input)| ==>
      var log := Records(id, name, typ, input)[i];
      log.id == id && log.name == name && log.typ == typ && NL !in log.data
    decreases |input|
  {
    match ReadBytes(input, NL)
    case Eof(_) =>
    case Line(data, rest) =>
      ReadBytesLine(input, NL);
      RecordsShape(id, name, typ, rest);
      assert TrimNewline(data) == data[..|data| - 1];
  }

  /** Writing the records' data back, each followed by the delimiter, gives the
      input up to and including its last delimiter; what follows it (the
      partial line that is dropped) holds no delimiter. */
  lemma {:induction false} RecordsRoundTrip(id: string, name: string, typ: string, input: seq<byte>)
    ensures var framed := Joined(Datas(Records(id, name, typ, input)));
      && |framed| <= |input|
      && input[..|framed|] == framed
      && NL !in input[|framed|..]
    decreases |input|
  {
    match ReadBytes(input, NL)
    case Eof(_) =>
    case Line(data, rest) =>
      ReadBytesLine(input, NL);
      RecordsRoundTrip(id, name, typ, rest);
      var logs := Records(id, name, typ, input);
      var tail := Records(id, name, typ, rest);
      assert logs == [Log(id, name, typ, TrimNewline(data))] + tail;
      assert Datas(logs)[1..] == Datas(tail);
      assert Joined(Datas(logs)) == data + Joined(Datas(tail));
      assert input == data + rest;
  }

  /** The inverse direction: a stream built from delimiter-free lines, then a
      delimiter-free tail, is split back into exactly those lines. */
  lemma {:induction false} RecordsOfJoined(id: string, name: string, typ: string, lines: seq<seq<byte>>, tail: seq<byte>)
    requires forall i :: 0 <= i < |lines| ==> NL !in lines[i]
    requires NL !in tail
    ensures Datas(Records(id, name, typ, Joined(lines) + tail)) == lines
    decreases |lines|
  {
    var input := Joined(lines) + tail;
    if lines == [] {
      assert input == tail;
    } else {
      var rest := Joined(lines[1..]) + tail;
      assert input == lines[0] + [NL] + rest;
      FirstDelimiter(lines[0], rest);
      RecordsOfJoined(id, name, typ, lines[1..], tail);
      assert TrimNewline(lines[0] + [NL]) == lines[0];
    }
  }

  lemma {:induction false} IndexOfFirst(line: seq<byte>, b: byte, rest: seq<byte>)
    requires b !in line
    ensures IndexOf(line + [b] + rest, b) == |line|
    decreases |line|
  {
    if line != [] {
      assert (line + [b] + rest)[1..] == line[1..] + [b] + rest;
      IndexOfFirst(line[1..], b, rest);
    }
  }

  lemma FirstDelimiter(line: seq<byte>, rest: seq<byte>)
    requires NL !in line
    ensures ReadBytes(line + [NL] + rest, NL) == Line(line + [NL], rest)
  {
    var buf := line + [NL] + rest;
    IndexOfFirst(line, NL, rest);
    assert buf[..|line| + 1] == line + [NL];
    assert buf[|line| + 1..] == rest;
  }

  /** One record per delimiter in the input. */
  lemma {:induction false} RecordsCount(id: string, name: string, typ: string, input: seq<byte>)
    ensures |Records(id, name, typ, input)| == multiset(input)[NL]
    decreases |input|
  {
    var r := ReadBytes(input, NL);
    if r.Line? {
      ReadBytesLine(input, NL);
      var body := r.data[..|r.data| - 1];
      assert r.data == body + [NL];
      assert input == body + [NL] + r.rest;
      FirstDelimiter(body, r.rest);
      RecordsCount(id, name, typ, r.rest);
      RecordsStep(id, name, typ, input);
      assert multiset(body)[NL] == 0;
      assert multiset(input) == multiset(body) + multiset([NL]) + multiset(r.rest);
    } else {
      assert multiset(input)[NL] == 0;
    }
  }

  /** An empty line is a record with empty data. */
  lemma EmptyLines(id: string, name: string, typ: string)
    ensures Records(id, name, typ, [NL, NL]) == [Log(id, name, typ, []), Log(id, name, typ, [])]
  {
    assert [NL, NL] == [] + [NL] + [NL];
    FirstDelimiter([], [NL]);
    assert [NL] == [] + [NL] + [];
    FirstDelimiter([], []);
    assert TrimNewline([NL]) == [];
    assert Records(id, name, typ, []) == [];
  }

  /** The stderr loop tags its records "stderr": "oops\n" gives one record. */
  lemma StderrLine(id: string, name: string)
    ensures Records(id, name, STDERR, [111, 111, 112, 115, NL]) == [Log(id, name, STDERR, [111, 111, 112, 115])]
  {
    var oops: seq<byte> := [111, 111, 112, 115];
    assert [111, 111, 112, 115, NL] == oops + [NL] + [];
    FirstDelimiter(oops, []);
    assert TrimNewline(oops + [NL]) == oops;
    assert Records(id, name, STDERR, []) == [];
  }

  /** "hello\n" written to stdout makes one record "hello"; a line still
      being written when the stream ends ("bye") is not emitted. */
  lemma HelloLine(id: string, name: string)
    ensures Records(id, name, STDOUT, [104, 101, 108, 108, 111, NL, 98, 121, 101])
         == [Log(id, name, STDOUT, [104, 101, 108, 108, 111])]
  {
    var hello: seq<byte> := [104, 101, 108, 108, 111];
    var bye: seq<byte> := [98, 121, 101];
    assert [104, 101, 108, 108, 111, NL, 98, 121, 101] == hello + [NL] + bye;
    FirstDelimiter(hello, bye);
    assert TrimNewline(hello + [NL]) == hello;
    assert NL !in bye;
    assert ReadBytes(bye, NL).Eof?;
  }
}
