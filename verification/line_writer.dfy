/** The wire-log line splitter, internal/protocollog/writer.go. */
module LineSplitting {
  import opened Seqs
  import opened Text

  /** A line taken off the buffer, with the terminator that ended it. */
  datatype Line = Line(text: string, ending: string)

  /** What a writer has split off so far, and what it still buffers. */
  datatype Split = Split(lines: seq<Line>, rest: string)

  const CRLF := "\r\n"
  const LF := "\n"

  predicate CrlfAt(s: string, i: nat) {
    i + 1 < |s| && s[i] == '\r' && s[i + 1] == '\n'
  }

  /** bytes.Index(s, CRLF), or |s|. */
  function FindCrlf(s: string): (i: nat)
    ensures i == |s| || CrlfAt(s, i)
    ensures forall j :: 0 <= j < i ==> !CrlfAt(s, j)
  {
    FindCrlfFrom(s, 0)
  }

  function FindCrlfFrom(s: string, i: nat): (r: nat)
    requires i <= |s|
    ensures i <= r <= |s| && (r == |s| || CrlfAt(s, r))
    ensures forall j :: i <= j < r ==> !CrlfAt(s, j)
    decreases |s| - i
  {
    if i == |s| || CrlfAt(s, i) then i else FindCrlfFrom(s, i + 1)
  }

  /** The next line `Write` takes: up to the first CRLF anywhere in the buffer,
      and only without any CRLF up to the first LF. */
  function NextLine(data: string): (r: Option<Line>)
    ensures r.Some? ==> Wire(r.value) <= data && r.value.ending in {CRLF, LF}
    ensures r.Some? ==> data[|Wire(r.value)| - 1] == '\n'
    ensures r.None? ==> '\n' !in data
  {
    var i, j := FindCrlf(data), Find(data, '\n');
    FindFirst(data, '\n');
    assert data[..j] == data || data[..j] + LF <= data;
    assert i < |data| ==> data[..i] + CRLF <= data;
    if i < |data| then Some(Line(data[..i], CRLF))
    else if j < |data| then Some(Line(data[..j], LF))
    else None
  }

  function Wire(line: Line): string {
    line.text + line.ending
  }

  /** The loop of `Write`: take lines until there is none. */
  function Drain(data: string): Split
    decreases |data|
  {
    match NextLine(data)
    case None => Split([], data)
    case Some(line) =>
      var after := Drain(data[|Wire(line)|..]);
      Split([line] + after.lines, after.rest)
  }

  /** One turn of the loop takes `end` bytes and a terminator of `skip` bytes. */
  ghost predicate Takes(data: string, end: nat, skip: nat) {
    && end + skip <= |data|
    && 1 <= skip <= 2
    && var line, after := Line(data[..end], if skip == 2 then CRLF else LF), Drain(data[end + skip..]);
       Drain(data) == Split([line] + after.lines, after.rest)
  }

  lemma TakesLine(data: string, end: nat, skip: nat)
    requires end + skip <= |data| && 1 <= skip <= 2
    requires NextLine(data) == Some(Line(data[..end], if skip == 2 then CRLF else LF))
    ensures Takes(data, end, skip)
  {
    assert |Wire(NextLine(data).value)| == end + skip;
  }

  function WriteTo(w: Split, p: string): Split {
    if p == "" then w
    else
      var d := Drain(w.rest + p);
      Split(w.lines + d.lines, d.rest)
  }

  function WriteAll(w: Split, chunks: seq<string>): Split
    decreases |chunks|
  {
    if chunks == [] then w else WriteAll(WriteTo(w, chunks[0]), chunks[1..])
  }

  const EMPTY := Split([], "")

  function Unlines(lines: seq<Line>): string {
    if lines == [] then "" else Wire(lines[0]) + Unlines(lines[1..])
  }

  lemma {:induction false} UnlinesConcat(a: seq<Line>, b: seq<Line>)
    ensures Unlines(a + b) == Unlines(a) + Unlines(b)
  {
    if a == [] {
      assert a + b == b;
    } else {
      UnlinesConcat(a[1..], b);
      ConcatTail(a, b);
      Assoc(Wire(a[0]), Unlines(a[1..]), Unlines(b));
    }
  }

  // ---- Nothing is lost ----

  lemma {:induction false} DrainLossless(data: string)
    ensures Unlines(Drain(data).lines) + Drain(data).rest == data
    ensures '\n' !in Drain(data).rest
    decreases |data|
  {
    match NextLine(data)
    case None =>
    case Some(line) =>
      var after := Drain(data[|Wire(line)|..]);
      DrainLossless(data[|Wire(line)|..]);
      Parts(data, |Wire(line)|);
      ConsTail(line, after.lines);
      Assoc(Wire(line), Unlines(after.lines), after.rest);
  }

  lemma WriteLossless(w: Split, p: string)
    requires '\n' !in w.rest
    ensures var r := WriteTo(w, p);
            Unlines(r.lines) + r.rest == Unlines(w.lines) + w.rest + p && '\n' !in r.rest
  {
    var d := Drain(w.rest + p);
    DrainLossless(w.rest + p);
    UnlinesConcat(w.lines, d.lines);
    Assoc(Unlines(w.lines), Unlines(d.lines), d.rest);
    Assoc(Unlines(w.lines), w.rest, p);
  }

  /** Over any sequence of writes, the lines taken, with their terminators, and
      the buffer spell out every byte written, and the buffer holds no LF. */
  lemma {:induction false} WritesLossless(w: Split, chunks: seq<string>)
    requires '\n' !in w.rest
    ensures var r := WriteAll(w, chunks);
            Unlines(r.lines) + r.rest == Unlines(w.lines) + w.rest + Concat(chunks) && '\n' !in r.rest
    decreases |chunks|
  {
    hide WriteTo, Unlines;
    if chunks != [] {
      WriteLossless(w, chunks[0]);
      WritesLossless(WriteTo(w, chunks[0]), chunks[1..]);
    }
  }

  // ---- The same lines however the stream is cut ----

  /** The line ended by the LF at `i`; a CR just before it belongs to the terminator. */
  function HeadLine(s: string, i: nat): Line
    requires i < |s|
  {
    if 0 < i && s[i - 1] == '\r' then Line(s[..i - 1], CRLF) else Line(s[..i], LF)
  }

  /** The reference: every LF ends a line. */
  function ByLf(data: string): Split
    decreases |data|
  {
    var i := Find(data, '\n');
    if i == |data| then Split([], data)
    else
      var line := HeadLine(data, i);
      var after := ByLf(data[i + 1..]);
      Split([line] + after.lines, after.rest)
  }

  /** No line ended by a bare LF comes before one ended by CRLF. In particular
      when every LF follows a CR, and when there is no CR at all. */
  ghost predicate Unmixed(stream: string) {
    LfLast(ByLf(stream).lines)
  }

  ghost predicate LfLast(lines: seq<Line>) {
    forall i, j :: 0 <= i < j < |lines| ==> !(lines[i].ending == LF && lines[j].ending == CRLF)
  }

  lemma LfLastParts(a: seq<Line>, b: seq<Line>)
    requires LfLast(a + b)
    ensures LfLast(a) && LfLast(b)
  {
    assert forall i :: 0 <= i < |a| ==> (a + b)[i] == a[i];
    assert forall i :: 0 <= i < |b| ==> (a + b)[|a| + i] == b[i];
  }

  lemma LfLastCons(line: Line, lines: seq<Line>)
    requires LfLast(lines) && line.ending == CRLF
    ensures LfLast([line] + lines)
  {
  }

  lemma {:induction false} ByLfConcat(a: string, b: string)
    ensures var x, y := ByLf(a), ByLf(ByLf(a).rest + b);
            ByLf(a + b) == Split(x.lines + y.lines, y.rest)
    ensures '\n' !in ByLf(a).rest
    decreases |a|
  {
    var i := Find(a, '\n');
    if i == |a| {
      FindFirst(a, '\n');
      assert ByLf(a) == Split([], a);
    } else {
      FirstLf(a, b);
      ByLfConcat(a[i + 1..], b);
      Assoc([HeadLine(a, i)], ByLf(a[i + 1..]).lines, ByLf(ByLf(a).rest + b).lines);
    }
  }

  lemma FirstLf(a: string, b: string)
    requires Find(a, '\n') < |a|
    ensures var i := Find(a, '\n');
            Find(a + b, '\n') == i && HeadLine(a + b, i) == HeadLine(a, i) && (a + b)[i + 1..] == a[i + 1..] + b
  {
    var i := Find(a, '\n');
    FindPrefix(a, '\n', b);
    SliceConcat(a, b, i);
    SliceConcat(a, b, i + 1);
    if i > 0 { SliceConcat(a, b, i - 1); }
  }

  /** A CRLF in the data shows up as the terminator of a reference line. */
  lemma {:induction false} CrlfLineExists(data: string, j: nat) returns (k: nat)
    requires CrlfAt(data, j)
    ensures k < |ByLf(data).lines| && ByLf(data).lines[k].ending == CRLF
    decreases |data|
  {
    var i := Find(data, '\n');
    FindBefore(data, '\n', j + 1);
    if i == j + 1 {
      k := 0;
    } else {
      k := CrlfLineExists(data[i + 1..], j - i - 1);
      ConsTail(HeadLine(data, i), ByLf(data[i + 1..]).lines);
      k := k + 1;
    }
  }

  lemma NoLfNoLines(s: string)
    requires '\n' !in s
    ensures ByLf(s) == Split([], s) && Drain(s) == Split([], s)
  {
    FindNone(s, '\n');
    assert forall i :: 0 <= i < |s| ==> s[i] in s;
  }

  /** Unmixed data is drained exactly as the reference splits it. */
  lemma {:induction false} UnmixedDrain(data: string)
    requires Unmixed(data)
    ensures Drain(data) == ByLf(data)
    decreases |data|
  {
    var i, c := Find(data, '\n'), FindCrlf(data);
    if i == |data| {
      FindFirst(data, '\n');
      NoLfNoLines(data);
    } else {
      var first, after := HeadLine(data, i), ByLf(data[i + 1..]);
      LfLastParts([first], after.lines);
      HeadIsNext(data);
      assert data[|Wire(first)|..] == data[i + 1..];
      UnmixedDrain(data[i + 1..]);
    }
  }

  lemma HeadEndsInCrlf(data: string)
    requires var i := Find(data, '\n'); 0 < i < |data| && data[i - 1] == '\r'
    ensures var i := Find(data, '\n'); HeadLine(data, i).ending == CRLF && NextLine(data) == Some(HeadLine(data, i))
  {
    var i, c := Find(data, '\n'), FindCrlf(data);
    assert CrlfAt(data, i - 1);
    FindBefore(data, '\n', c + 1);
  }

  lemma HeadIsNext(data: string)
    requires Unmixed(data) && Find(data, '\n') < |data|
    ensures NextLine(data) == Some(HeadLine(data, Find(data, '\n')))
  {
    var i, c := Find(data, '\n'), FindCrlf(data);
    if 0 < i && data[i - 1] == '\r' {
      HeadEndsInCrlf(data);
    } else if c < |data| {
      var k := CrlfLineExists(data, c);
      BareHead(data, k);
    }
  }

  lemma BareHead(data: string, k: nat)
    requires var i := Find(data, '\n'); i < |data| && HeadLine(data, i).ending == LF
    requires k < |ByLf(data).lines| && ByLf(data).lines[k].ending == CRLF
    ensures !Unmixed(data)
  {
    assert ByLf(data).lines[0] == HeadLine(data, Find(data, '\n'));
    assert ByLf(data).lines[0].ending == LF && ByLf(data).lines[k].ending == CRLF;
  }

  lemma UnmixedParts(a: string, b: string)
    requires Unmixed(a + b)
    ensures Unmixed(a) && Unmixed(ByLf(a).rest + b)
  {
    ByLfConcat(a, b);
    LfLastParts(ByLf(a).lines, ByLf(ByLf(a).rest + b).lines);
  }

  lemma UnmixedWrite(a: string, p: string)
    requires Unmixed(a + p)
    ensures WriteTo(ByLf(a), p) == ByLf(a + p)
  {
    if p == "" {
      assert a + p == a;
    } else {
      UnmixedParts(a, p);
      ByLfConcat(a, p);
      UnmixedDrain(ByLf(a).rest + p);
    }
  }

  /** However an unmixed stream is cut into writes, the lines are the reference's. */
  lemma {:induction false} UnmixedWrites(a: string, chunks: seq<string>)
    requires Unmixed(a + Concat(chunks))
    ensures WriteAll(ByLf(a), chunks) == ByLf(a + Concat(chunks))
    decreases |chunks|
  {
    if chunks == [] {
      assert a + Concat(chunks) == a;
    } else {
      Assoc(a, chunks[0], Concat(chunks[1..]));
      UnmixedParts(a + chunks[0], Concat(chunks[1..]));
      UnmixedWrite(a, chunks[0]);
      UnmixedWrites(a + chunks[0], chunks[1..]);
    }
  }

  // ---- Mixed streams do depend on the cuts ----

  function Bytes(s: string): (chunks: seq<string>)
    ensures Concat(chunks) == s
  {
    if s == "" then [] else [[s[0]]] + Bytes(s[1..])
  }

  lemma OneByte(rest: string, c: char)
    requires '\n' !in rest
    ensures Unmixed(rest + [c])
  {
    var s := rest + [c];
    var i := Find(s, '\n');
    if i < |s| {
      assert forall j :: 0 <= j < |rest| ==> s[j] == rest[j] && rest[j] in rest;
      assert s[i + 1..] == "";
      assert |ByLf(s).lines| == 1;
    }
  }

  lemma ByteWrite(a: string, c: char)
    ensures WriteTo(ByLf(a), [c]) == ByLf(a + [c])
  {
    ByLfConcat(a, [c]);
    OneByte(ByLf(a).rest, c);
    UnmixedDrain(ByLf(a).rest + [c]);
  }

  /** Written one byte at a time, any stream is split as the reference splits it. */
  lemma {:induction false} ByteWrites(a: string, s: string)
    ensures WriteAll(ByLf(a), Bytes(s)) == ByLf(a + s)
    decreases |s|
  {
    if s == "" {
      assert a + s == a;
    } else {
      ByteWrite(a, s[0]);
      ByteWrites(a + [s[0]], s[1..]);
      ConsTail([s[0]], Bytes(s[1..]));
      Parts(s, 1);
      Assoc(a, [s[0]], s[1..]);
    }
  }

  lemma {:induction false} CrlfLineShows(data: string, k: nat)
    requires k < |ByLf(data).lines| && ByLf(data).lines[k].ending == CRLF
    ensures FindCrlf(data) < |data|
    decreases |data|
  {
    var i := Find(data, '\n');
    if k == 0 {
      assert CrlfAt(data, i - 1);
    } else {
      ConsTail(HeadLine(data, i), ByLf(data[i + 1..]).lines);
      CrlfLineShows(data[i + 1..], k - 1);
      var j := FindCrlf(data[i + 1..]);
      assert CrlfAt(data, i + 1 + j);
    }
  }

  lemma {:induction false} EndsInLf(p: string)
    requires p != "" && p[|p| - 1] == '\n'
    ensures ByLf(p).rest == "" && |ByLf(p).lines| >= 1
    ensures |ByLf(p).lines| == 1 ==> Find(p, '\n') == |p| - 1
    decreases |p|
  {
    var i := Find(p, '\n');
    FindBefore(p, '\n', |p| - 1);
    if i < |p| - 1 {
      EndsInLf(p[i + 1..]);
    } else {
      assert p[i + 1..] == "";
    }
  }

  /** One write never takes more lines than the reference, and takes fewer when the
      data is mixed: some line then swallows a bare LF. */
  lemma {:induction false} DrainFewer(data: string)
    ensures |Drain(data).lines| + (if Unmixed(data) then 0 else 1) <= |ByLf(data).lines|
    decreases |data|
  {
    match NextLine(data)
    case None => NoLfNoLines(data);
    case Some(line) =>
      var n := |Wire(line)|;
      DrainFewer(data[n..]);
      FewerLines(data, n);
  }

  lemma AfterLine(data: string, n: nat)
    requires 0 < n <= |data| && data[n - 1] == '\n'
    ensures ByLf(data).lines == ByLf(data[..n]).lines + ByLf(data[n..]).lines
    ensures |ByLf(data[..n]).lines| >= 1
    ensures |ByLf(data[..n]).lines| == 1 ==> Find(data, '\n') == n - 1
  {
    var taken, after := data[..n], data[n..];
    EndsInLf(taken);
    Parts(data, n);
    ByLfConcat(taken, after);
    assert "" + after == after;
    FindPrefix(taken, '\n', after);
  }

  lemma FewerLines(data: string, n: nat)
    requires NextLine(data).Some? && n == |Wire(NextLine(data).value)|
    ensures |ByLf(data).lines| >= 1 + |ByLf(data[n..]).lines| + (if Unmixed(data[n..]) && !Unmixed(data) then 1 else 0)
  {
    AfterLine(data, n);
    if |ByLf(data[..n]).lines| == 1 && Unmixed(data[n..]) {
      UnmixedWhole(data, n);
    }
  }

  lemma UnmixedWhole(data: string, n: nat)
    requires NextLine(data).Some? && n == |Wire(NextLine(data).value)|
    requires |ByLf(data[..n]).lines| == 1 && Unmixed(data[n..])
    ensures Unmixed(data)
  {
    AfterLine(data, n);
    var first := ByLf(data).lines[0];
    assert first == HeadLine(data, n - 1);
    if first.ending == CRLF {
      LfLastCons(first, ByLf(data[n..]).lines);
    } else if !Unmixed(data) {
      var i, j :| 0 <= i < j < |ByLf(data).lines| && ByLf(data).lines[i].ending == LF && ByLf(data).lines[j].ending == CRLF;
      CrlfLineShows(data, j);
    }
  }

  /** The lines taken from `stream` are the same however it is cut into writes. */
  ghost predicate CutIndependent(stream: string) {
    forall chunks: seq<string> :: Concat(chunks) == stream ==>
      WriteAll(EMPTY, chunks) == WriteAll(EMPTY, [stream])
  }

  /** Exactly the unmixed streams are split independently of the cuts. */
  lemma CutIndependentExactlyWhenUnmixed(stream: string)
    ensures CutIndependent(stream) <==> Unmixed(stream)
  {
    assert ByLf("") == EMPTY;
    assert "" + stream == stream && Concat([stream]) == stream;
    if Unmixed(stream) {
      forall chunks: seq<string> | Concat(chunks) == stream
        ensures WriteAll(EMPTY, chunks) == WriteAll(EMPTY, [stream])
      {
        UnmixedWrites("", chunks);
        UnmixedWrites("", [stream]);
      }
    } else {
      ByteWrites("", stream);
      DrainFewer(stream);
      OneWrite(stream);
      assert WriteAll(EMPTY, Bytes(stream)) != WriteAll(EMPTY, [stream]);
    }
  }

  lemma OneWrite(stream: string)
    ensures WriteAll(EMPTY, [stream]) == Drain(stream)
  {
    var d := Drain(stream);
    assert [stream][1..] == [];
    assert "" + stream == stream;
    assert EMPTY.lines + d.lines == d.lines;
    if stream == "" {
      NoLfNoLines(stream);
    }
  }
}

/** The writer itself. */
module LineWriterModel {
  import opened LineSplitting
  import opened Seqs
  import opened Text

  const MAX_WIRE_LINE: nat := 8192
  const TRUNCATED := "\U{E2}\U{80}\U{A6}[truncated]"  // an ellipsis in UTF-8

  /** What emitLine sends to the log for a line, before redaction. */
  function Shown(line: Line): seq<string> {
    var s := Trim(line.text);
    if s == "" then []
    else if |s| > MAX_WIRE_LINE then [s[..MAX_WIRE_LINE] + TRUNCATED]
    else [s]
  }

  function ShownAll(lines: seq<Line>): seq<string> {
    if lines == [] then [] else Shown(lines[0]) + ShownAll(lines[1..])
  }

  lemma {:induction false} ShownAllSnoc(lines: seq<Line>, line: Line)
    ensures ShownAll(lines + [line]) == ShownAll(lines) + Shown(line)
  {
    if lines == [] {
      assert lines + [line] == [line];
      assert [line][1..] == [];
    } else {
      ShownAllSnoc(lines[1..], line);
      ConcatTail(lines, [line]);
      Assoc(Shown(lines[0]), ShownAll(lines[1..]), Shown(line));
    }
  }

  class LineWriter {
    var buf: string
    var log: seq<string>
    ghost var lines: seq<Line>  // every line taken off the buffer

    ghost function State(): Split
      reads this
    {
      Split(lines, buf)
    }

    ghost predicate Valid()
      reads this
    {
      log == ShownAll(lines) && '\n' !in buf
    }

    constructor ()
      ensures Valid() && State() == EMPTY
    {
      buf, log, lines := "", [], [];
    }

    method Write(p: string) returns (n: nat)
      requires Valid()
      modifies this
      ensures Valid()
      ensures n == |p|
      ensures State() == WriteTo(old(State()), p)
    {
      if |p| == 0 {
        return 0;
      }
      buf := buf + p;
      ghost var before, goal := lines, Drain(buf);
      while true
        invariant before + goal.lines == lines + Drain(buf).lines && goal.rest == Drain(buf).rest
        invariant log == ShownAll(lines)
        decreases |buf|
      {
        var data := buf;
        if |data| == 0 {
          break;
        }
        var end, skip := LineEnd(data);
        if end < 0 {
          break;
        }
        var line := Line(data[..end], if skip == 2 then CRLF else LF);
        buf := data[end + skip..];
        Assoc(lines, [line], Drain(buf).lines);
        EmitLine(line);
      }
      DrainLossless(buf);
      return |p|;
    }

    /** Where the next line ends and how long its terminator is; -1 when there is none. */
    method LineEnd(data: string) returns (end: int, skip: nat)
      ensures end < 0 ==> Drain(data) == Split([], data)
      ensures end >= 0 ==> Takes(data, end, skip)
    {
      end, skip := -1, 0;
      var i, j := FindCrlf(data), Find(data, '\n');
      if i < |data| {
        end, skip := i, 2;
        TakesLine(data, end, skip);
      } else if j < |data| {
        end, skip := j, 1;
        TakesLine(data, end, skip);
      }
    }

    method EmitLine(line: Line)
      modifies this`log, this`lines
      ensures lines == old(lines) + [line]
      ensures old(log) == ShownAll(old(lines)) ==> log == ShownAll(lines)
    {
      var s := Trim(line.text);
      ShownAllSnoc(lines, line);
      lines := lines + [line];
      if s == "" {
        return;
      }
      if |s| > MAX_WIRE_LINE {
        s := s[..MAX_WIRE_LINE] + TRUNCATED;
      }
      log := log + [s];
    }
  }
}
