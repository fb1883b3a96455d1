// The writer that cuts a byte stream of log output into lines.

module LogFraming {
  type Byte = b: int | 0 <= b < 256

  const NEWLINE: Byte := 10

  /** Where the first newline is, or the length if there is none. */
  function Position(bytes: seq<Byte>): (i: nat)
    ensures i <= |bytes| && NEWLINE !in bytes[..i] && (i < |bytes| ==> bytes[i] == NEWLINE)
  {
    if bytes == [] || bytes[0] == NEWLINE then 0 else
    var i := Position(bytes[1..]);
    assert bytes[..i + 1] == [bytes[0]] + bytes[1..][..i];
    i + 1
  }

  /** The complete lines, each with its newline, and what is left behind the last. */
  function Lines(bytes: seq<Byte>): seq<seq<Byte>>
    decreases |bytes|
  {
    var i := Position(bytes);
    if i == |bytes| then [] else [bytes[..i + 1]] + Lines(bytes[i + 1..])
  }

  function Rest(bytes: seq<Byte>): seq<Byte>
    decreases |bytes|
  {
    var i := Position(bytes);
    if i == |bytes| then bytes else Rest(bytes[i + 1..])
  }

  datatype Op = Write(chunk: seq<Byte>) | Flush

  datatype Writer = Writer(buffer: seq<Byte>, lines: seq<seq<Byte>>)

  function Step(w: Writer, op: Op): Writer {
    match op
    case Write(chunk) => Writer(Rest(w.buffer + chunk), w.lines + Lines(w.buffer + chunk))
    case Flush => if w.buffer == [] then w else Writer([], w.lines + [w.buffer])
  }

  function Steps(w: Writer, ops: seq<Op>): Writer {
    if ops == [] then w else Step(Steps(w, ops[..|ops| - 1]), ops[|ops| - 1])
  }

  class DebugLogWriter {
    var buffer: seq<Byte>
    /** The lines handed to the logger. */
    var lines: seq<seq<Byte>>

    ghost function Value(): Writer
      reads this
    {
      Writer(buffer, lines)
    }

    constructor ()
      ensures Value() == Writer([], [])
    {
      buffer, lines := [], [];
    }

    method Write(chunk: seq<Byte>) returns (n: nat)
      modifies this
      ensures Value() == Step(old(Value()), Op.Write(chunk)) && n == |chunk|
    {
      buffer := buffer + chunk;
      ghost var all := buffer;
      var i := Position(buffer);
      while i < |buffer|
        invariant i == Position(buffer)
        invariant old(lines) + Lines(all) == lines + Lines(buffer) && Rest(buffer) == Rest(all)
        decreases |buffer|
      {
        assert lines + ([buffer[..i + 1]] + Lines(buffer[i + 1..])) == lines + [buffer[..i + 1]] + Lines(buffer[i + 1..]);
        lines := lines + [buffer[..i + 1]];
        buffer := buffer[i + 1..];
        i := Position(buffer);
      }
      assert lines + [] == lines;
      n := |chunk|;
    }

    method Flush()
      modifies this
      ensures Value() == Step(old(Value()), Op.Flush)
    {
      if buffer != [] {
        lines := lines + [buffer];
        buffer := [];
      }
    }
  }

  // ---- However the bytes are cut -------------------------------------------------------------

  lemma {:induction false} PositionAppend(a: seq<Byte>, b: seq<Byte>)
    ensures Position(a) < |a| ==> Position(a + b) == Position(a)
    ensures Position(a) == |a| ==> Position(a + b) == |a| + Position(b)
  {
    if a == [] {
      assert a + b == b;
    } else {
      assert (a + b)[1..] == a[1..] + b;
      PositionAppend(a[1..], b);
    }
  }

  /** Cutting in two places the same as cutting once. */
  lemma {:induction false} CutAnywhere(a: seq<Byte>, b: seq<Byte>)
    ensures Lines(a + b) == Lines(a) + Lines(Rest(a) + b)
    ensures Rest(a + b) == Rest(Rest(a) + b)
    decreases |a|
  {
    PositionAppend(a, b);
    var i := Position(a);
    if i < |a| {
      var line, tail := a[..i + 1], a[i + 1..];
      SplitSum(a, b, i + 1);
      CutAnywhere(tail, b);
      LineInFront(line, Lines(tail), Lines(Rest(tail) + b));
    } else {
      LineInFront([], [], Lines(a + b));
    }
  }

  lemma SplitSum(a: seq<Byte>, b: seq<Byte>, i: nat)
    requires i <= |a|
    ensures (a + b)[..i] == a[..i] && (a + b)[i..] == a[i..] + b
  {
  }

  lemma LineInFront(line: seq<Byte>, a: seq<seq<Byte>>, b: seq<seq<Byte>>)
    ensures [line] + (a + b) == [line] + a + b && [] + b == b
  {
  }

  function Concat(parts: seq<seq<Byte>>): seq<Byte> {
    if parts == [] then [] else Concat(parts[..|parts| - 1]) + parts[|parts| - 1]
  }

  lemma ConcatOne(parts: seq<seq<Byte>>, part: seq<Byte>)
    ensures Concat(parts + [part]) == Concat(parts) + part
  {
    assert (parts + [part])[..|parts|] == parts;
  }

  lemma {:induction false} ConcatAppend(a: seq<seq<Byte>>, b: seq<seq<Byte>>)
    ensures Concat(a + b) == Concat(a) + Concat(b)
    decreases |b|
  {
    if b == [] {
      assert a + b == a;
    } else {
      assert (a + b)[..|a + b| - 1] == a + b[..|b| - 1];
      ConcatAppend(a, b[..|b| - 1]);
      InThree(Concat(a), Concat(b[..|b| - 1]), b[|b| - 1]);
    }
  }

  lemma InThree(a: seq<Byte>, b: seq<Byte>, c: seq<Byte>)
    ensures (a + b) + c == a + (b + c)
  {
  }

  function Writes(chunks: seq<seq<Byte>>): seq<Op> {
    seq(|chunks|, i requires 0 <= i < |chunks| => Op.Write(chunks[i]))
  }

  /** What is emitted and what is left depend on the bytes alone, not on how they were cut. */
  lemma {:induction false} ChunksDoNotMatter(chunks: seq<seq<Byte>>)
    ensures Steps(Writer([], []), Writes(chunks)) == Writer(Rest(Concat(chunks)), Lines(Concat(chunks)))
  {
    if chunks != [] {
      var init, last := chunks[..|chunks| - 1], chunks[|chunks| - 1];
      ChunksDoNotMatter(init);
      CutAnywhere(Concat(init), last);
      assert Writes(chunks)[..|chunks| - 1] == Writes(init);
    }
  }

  lemma TwoCuttings(chunks: seq<seq<Byte>>, others: seq<seq<Byte>>)
    requires Concat(chunks) == Concat(others)
    ensures Steps(Writer([], []), Writes(chunks)) == Steps(Writer([], []), Writes(others))
  {
    ChunksDoNotMatter(chunks);
    ChunksDoNotMatter(others);
  }

  /** Exactly the last byte is a newline. */
  predicate IsLine(line: seq<Byte>) {
    line != [] && line[|line| - 1] == NEWLINE && NEWLINE !in line[..|line| - 1]
  }

  lemma {:induction false} LinesAreLines(bytes: seq<Byte>)
    ensures (forall line :: line in Lines(bytes) ==> IsLine(line)) && NEWLINE !in Rest(bytes)
    ensures Concat(Lines(bytes)) + Rest(bytes) == bytes
    decreases |bytes|
  {
    var i := Position(bytes);
    if i < |bytes| {
      LinesAreLines(bytes[i + 1..]);
      FirstLine(bytes, i);
      LineThenRest(bytes[..i + 1], Lines(bytes[i + 1..]), Rest(bytes[i + 1..]), bytes);
    } else {
      assert bytes[..i] == bytes && [] + bytes == bytes;
    }
  }

  lemma FirstLine(bytes: seq<Byte>, i: nat)
    requires i < |bytes| && bytes[i] == NEWLINE && NEWLINE !in bytes[..i]
    ensures IsLine(bytes[..i + 1]) && bytes[..i + 1] + bytes[i + 1..] == bytes
  {
    assert bytes[..i + 1][..i] == bytes[..i];
  }

  lemma LineThenRest(line: seq<Byte>, lines: seq<seq<Byte>>, rest: seq<Byte>, bytes: seq<Byte>)
    requires line + (Concat(lines) + rest) == bytes
    ensures Concat([line] + lines) + rest == bytes
  {
    ConcatAppend([line], lines);
    ConcatOne([], line);
    assert [] + [line] == [line] && [] + line == line;
    assert line + (Concat(lines) + rest) == line + Concat(lines) + rest;
  }

  function Written(ops: seq<Op>): seq<Byte> {
    if ops == [] then [] else Written(ops[..|ops| - 1]) + if ops[|ops| - 1].Write? then ops[|ops| - 1].chunk else []
  }

  /** `bytes` have been written: they are in the lines or in the buffer, and newlines are at the ends of lines only. */
  ghost predicate Holds(w: Writer, bytes: seq<Byte>) {
    && Concat(w.lines) + w.buffer == bytes
    && NEWLINE !in w.buffer
    && forall line :: line in w.lines ==> line != [] && NEWLINE !in line[..|line| - 1]
  }

  lemma {:induction false} WriteHolds(w: Writer, bytes: seq<Byte>, chunk: seq<Byte>)
    requires Holds(w, bytes)
    ensures Holds(Step(w, Op.Write(chunk)), bytes + chunk)
  {
    var all := w.buffer + chunk;
    LinesAreLines(all);
    ConcatAppend(w.lines, Lines(all));
    Regroup(Concat(w.lines), w.buffer, chunk, Concat(Lines(all)), Rest(all));
  }

  lemma Regroup(a: seq<Byte>, b: seq<Byte>, c: seq<Byte>, d: seq<Byte>, e: seq<Byte>)
    requires b + c == d + e
    ensures a + b + c == a + d + e
  {
    assert a + (b + c) == a + b + c && a + (d + e) == a + d + e;
  }

  lemma {:induction false} FlushHolds(w: Writer, bytes: seq<Byte>)
    requires Holds(w, bytes)
    ensures Holds(Step(w, Op.Flush), bytes)
  {
    ConcatOne(w.lines, w.buffer);
    assert bytes + [] == bytes;
  }

  /** With any writes and flushes, what is emitted and what is buffered is everything written. */
  lemma {:induction false} NothingIsLost(ops: seq<Op>)
    ensures Holds(Steps(Writer([], []), ops), Written(ops))
  {
    if ops != [] {
      var init, last := ops[..|ops| - 1], ops[|ops| - 1];
      NothingIsLost(init);
      match last
      case Write(chunk) => WriteHolds(Steps(Writer([], []), init), Written(init), chunk);
      case Flush =>
        FlushHolds(Steps(Writer([], []), init), Written(init));
        assert Written(init) + [] == Written(init);
    }
  }

  /** After a flush all that was written is in the lines; one that finds nothing emits nothing. */
  lemma FlushEmits(ops: seq<Op>)
    ensures var w, w' := Steps(Writer([], []), ops), Steps(Writer([], []), ops + [Op.Flush]);
      && w'.buffer == [] && Concat(w'.lines) == Written(ops)
      && w'.lines == (if w.buffer == [] then w.lines else w.lines + [w.buffer])
  {
    assert (ops + [Op.Flush])[..|ops|] == ops;
    NothingIsLost(ops);
    var w := Steps(Writer([], []), ops);
    ConcatOne(w.lines, w.buffer);
    assert Concat(w.lines) + [] == Concat(w.lines);
  }
}
