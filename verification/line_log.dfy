/** When the wire log does not depend on how the stream reached the writer. */
module LineLog {
  import opened LineSplitting
  import opened LineWriterModel
  import opened Seqs
  import opened Text

  // ---- Trimming text put together of lines ----

  predicate IsBlank(s: string) {
    forall c :: c in s ==> IsSpace(c)
  }

  lemma {:induction false} TrimLeftOf(t: string, u: string)
    ensures TrimLeft(t + u) == if IsBlank(t) then TrimLeft(u) else TrimLeft(t) + u
    ensures IsBlank(t) <==> TrimLeft(t) == ""
  {
    if t == "" {
      assert t + u == u;
    } else {
      ConcatTail(t, u);
      assert t[0] in t;
      assert IsBlank(t) <==> IsSpace(t[0]) && IsBlank(t[1..]);
      if IsSpace(t[0]) {
        TrimLeftOf(t[1..], u);
      }
    }
  }

  lemma {:induction false} TrimRightOf(t: string, u: string)
    requires IsBlank(u)
    ensures TrimRight(t + u) == TrimRight(t)
    decreases |u|
  {
    if u == "" {
      assert t + u == t;
    } else {
      var v := u[..|u| - 1];
      assert (t + u)[..|t + u| - 1] == t + v;
      assert forall c :: c in v ==> c in u;
      assert u[|u| - 1] in u;
      TrimRightOf(t, v);
    }
  }

  lemma BlankTrims(s: string)
    ensures IsBlank(s) <==> Trim(s) == ""
  {
    TrimLeftOf(s, "");
    assert s + "" == s;
    TrimLeftStarts(s);
    TrimRightEnds(TrimLeft(s));
  }

  lemma BlankConcat(s: string, t: string)
    ensures IsBlank(s + t) <==> IsBlank(s) && IsBlank(t)
  {
    assert forall c :: c in s + t <==> c in s || c in t;
  }

  /** Of two lines put together blank ones do not show. */
  lemma TrimJoined(t: string, u: string)
    ensures Trim(t) == "" ==> Trim(t + "\n" + u) == Trim(u)
    ensures Trim(u) == "" ==> Trim(t + "\n" + u) == Trim(t)
    ensures Trim(t + "\n" + u) == "" <==> Trim(t) == "" && Trim(u) == ""
  {
    BlankTrims(t);
    BlankTrims(u);
    BlankTrims(t + "\n" + u);
    BlankConcat(t, "\n");
    BlankConcat(t + "\n", u);
    BlankConcat("\n", u);
    TrimLeftOf(t + "\n", u);
    Assoc(t, "\n", u);
    TrimLeftOf(t, "\n" + u);
    if IsBlank(u) {
      TrimRightOf(TrimLeft(t), "\n" + u);
    }
  }

  // ---- Runs ----

  /** Lines `i` to `k` end in bare LFs but the last, which ends in CRLF: together in the
      buffer they make one line. */
  predicate IsRun(lines: seq<Line>, i: nat, k: nat)
    requires i <= k < |lines|
  {
    lines[k].ending == CRLF && forall m :: i <= m < k ==> lines[m].ending == LF
  }

  /** No such run holds more than one line that is not blank. */
  ghost predicate QuietRuns(lines: seq<Line>) {
    forall i, k :: 0 <= i <= k < |lines| && IsRun(lines, i, k) ==> |ShownAll(lines[i..k + 1])| <= 1
  }

  lemma {:induction false} ShownAllConcat(a: seq<Line>, b: seq<Line>)
    ensures ShownAll(a + b) == ShownAll(a) + ShownAll(b)
  {
    if a == [] {
      assert a + b == b;
    } else {
      ConcatTail(a, b);
      ShownAllConcat(a[1..], b);
      Assoc(Shown(a[0]), ShownAll(a[1..]), ShownAll(b));
    }
  }

  lemma QuietParts(a: seq<Line>, b: seq<Line>)
    requires QuietRuns(a + b)
    ensures QuietRuns(a) && QuietRuns(b)
  {
    hide ShownAll;
    forall i, k | 0 <= i <= k < |a| && IsRun(a, i, k)
      ensures |ShownAll(a[i..k + 1])| <= 1
    {
      assert IsRun(a + b, i, k);
      assert (a + b)[i..k + 1] == a[i..k + 1];
    }
    forall i, k | 0 <= i <= k < |b| && IsRun(b, i, k)
      ensures |ShownAll(b[i..k + 1])| <= 1
    {
      assert IsRun(a + b, |a| + i, |a| + k);
      assert (a + b)[|a| + i..|a| + k + 1] == b[i..k + 1];
    }
  }

  /** A whole run in front adds one condition. */
  lemma QuietCons(run: seq<Line>, rest: seq<Line>)
    requires run != [] && IsRun(run, 0, |run| - 1)
    ensures QuietRuns(run + rest) <==> |ShownAll(run)| <= 1 && QuietRuns(rest)
  {
    hide ShownAll, IsRun, QuietRuns;
    if QuietRuns(run + rest) {
      QuietParts(run, rest);
      WholeRun(run);
    }
    if |ShownAll(run)| <= 1 && QuietRuns(rest) {
      assert QuietRuns(run + rest) by { StillQuiet(run, rest); }
    }
  }

  lemma WholeRun(run: seq<Line>)
    requires run != [] && IsRun(run, 0, |run| - 1) && QuietRuns(run)
    ensures |ShownAll(run)| <= 1
  {
    hide ShownAll;
    assert run[0..|run| - 1 + 1] == run;
  }

  lemma StillQuiet(run: seq<Line>, rest: seq<Line>)
    requires run != [] && IsRun(run, 0, |run| - 1) && |ShownAll(run)| <= 1 && QuietRuns(rest)
    ensures QuietRuns(run + rest)
  {
    hide ShownAll, IsRun;
    var all := run + rest;
    forall i, k | 0 <= i <= k < |all| && IsRun(all, i, k)
      ensures |ShownAll(all[i..k + 1])| <= 1
    {
      RunWhere(run, rest, i, k);
      if k < |run| {
        Parts(run, i);
        ShownAllConcat(run[..i], run[i..]);
        assert all[i..k + 1] == run[i..];
      } else {
        assert all[i..k + 1] == rest[i - |run|..k - |run| + 1];
      }
    }
  }

  /** A run ends with the first CRLF, so it lies in the front or behind it. */
  lemma RunWhere(run: seq<Line>, rest: seq<Line>, i: nat, k: nat)
    requires run != [] && IsRun(run, 0, |run| - 1) && i <= k < |run + rest| && IsRun(run + rest, i, k)
    ensures k < |run| ==> k == |run| - 1
    ensures k >= |run| ==> i >= |run| && IsRun(rest, i - |run|, k - |run|)
  {
    var all := run + rest;
    assert all[|run| - 1] == run[|run| - 1];
    if k < |run| {
      assert all[k] == run[k];
    } else {
      assert all[k] == rest[k - |run|];
      forall m | i - |run| <= m < k - |run| && m >= 0
        ensures rest[m].ending == LF
      {
        assert all[m + |run|] == rest[m];
      }
    }
  }

  // ---- One write ----

  /** How the entry for the joined line compares with those of the lines. */
  predicate Joins(joined: seq<string>, each: seq<string>) {
    |joined| <= 1 && (joined == [] <==> each == []) && (|each| <= 1 ==> joined == each)
  }

  /** Text up to and including its first CRLF is one run, and makes one line: blank lines
      in it do not show, and of the others it shows at most one entry. */
  lemma {:induction false} RunJoins(h: string)
    requires |h| >= 2 && FindCrlf(h) == |h| - 2
    ensures var run := ByLf(h).lines;
            run != [] && IsRun(run, 0, |run| - 1) && Joins(Shown(Line(h[..|h| - 2], CRLF)), ShownAll(run))
    decreases |h|
  {
    hide Shown, ShownAll, FindCrlf, IsRun, Joins, ByLf, HeadLine, Find;
    var i := Find(h, '\n');
    FindBefore(h, '\n', |h| - 1);
    if i == |h| - 1 {
      OneLine(h);
      LastOfRun(Line(h[..|h| - 2], CRLF));
    } else {
      FirstOfRun(h);
      var head, after := HeadLine(h, i), h[i + 1..];
      RunJoins(after);
      ByLfCons(h);
      ConsRun(head, ByLf(after).lines);
      ShownCons(head, ByLf(after).lines);
      JoinsCons(h[..i], after[..|after| - 2], ShownAll(ByLf(after).lines));
    }
  }

  lemma OneLine(h: string)
    requires |h| >= 2 && FindCrlf(h) == |h| - 2 && Find(h, '\n') == |h| - 1
    ensures ByLf(h).lines == [Line(h[..|h| - 2], CRLF)]
  {
    assert CrlfAt(h, |h| - 2);
    assert h[|h| - 1 + 1..] == "";
  }

  lemma ByLfCons(h: string)
    requires Find(h, '\n') < |h|
    ensures var i := Find(h, '\n'); ByLf(h).lines == [HeadLine(h, i)] + ByLf(h[i + 1..]).lines
  {
  }

  lemma ShownCons(line: Line, lines: seq<Line>)
    ensures ShownAll([line] + lines) == Shown(line) + ShownAll(lines)
  {
    ConsTail(line, lines);
  }

  lemma LastOfRun(line: Line)
    requires line.ending == CRLF
    ensures IsRun([line], 0, 0) && Joins(Shown(line), ShownAll([line]))
  {
    assert [line][1..] == [];
  }

  lemma JoinsCons(t: string, u: string, each: seq<string>)
    requires Joins(Shown(Line(u, CRLF)), each)
    ensures Joins(Shown(Line(t + "\n" + u, CRLF)), Shown(Line(t, LF)) + each)
  {
    hide Trim;
    TrimJoined(t, u);
  }

  lemma ConsRun(head: Line, run: seq<Line>)
    requires run != [] && IsRun(run, 0, |run| - 1) && head.ending == LF
    ensures IsRun([head] + run, 0, |run|)
  {
  }

  lemma FirstOfRun(h: string)
    requires |h| >= 2 && FindCrlf(h) == |h| - 2 && Find(h, '\n') < |h| - 1
    ensures var i := Find(h, '\n');
            && i + 3 <= |h| && HeadLine(h, i) == Line(h[..i], LF) && FindCrlf(h[i + 1..]) == |h| - i - 3
            && h[..|h| - 2] == h[..i] + "\n" + h[i + 1..][..|h| - i - 3]
  {
    var i := Find(h, '\n');
    FindFirst(h, '\n');
    if i > 0 && h[i - 1] == '\r' {
      assert CrlfAt(h, i - 1);
    }
    var u := h[i + 1..];
    assert CrlfAt(u, |u| - 2);
    if FindCrlf(u) < |u| - 2 {
      assert CrlfAt(h, i + 1 + FindCrlf(u));
    }
  }

  lemma CrlfPart(data: string)
    requires FindCrlf(data) < |data|
    ensures var n := FindCrlf(data) + 2; n <= |data| && FindCrlf(data[..n]) == n - 2 && data[n - 1] == '\n'
    ensures var n := FindCrlf(data) + 2;
            Drain(data) == Split([Line(data[..n - 2], CRLF)] + Drain(data[n..]).lines, Drain(data[n..]).rest)
  {
    var n := FindCrlf(data) + 2;
    var h := data[..n];
    assert CrlfAt(h, n - 2);
    if FindCrlf(h) < n - 2 {
      assert CrlfAt(data, FindCrlf(h));
    }
    assert |Wire(Line(data[..n - 2], CRLF))| == n;
  }

  lemma NoCrlfNoRun(data: string)
    requires FindCrlf(data) == |data|
    ensures Unmixed(data) && QuietRuns(ByLf(data).lines)
  {
    var lines := ByLf(data).lines;
    forall k | 0 <= k < |lines|
      ensures lines[k].ending != CRLF
    {
      if lines[k].ending == CRLF {
        CrlfLineShows(data, k);
      }
    }
  }

  /** What one write shows of data: what the reference shows if all runs are quiet, and
      otherwise less. */
  lemma {:induction false} DrainShows(data: string)
    ensures var one, each := ShownAll(Drain(data).lines), ShownAll(ByLf(data).lines);
            && |one| <= |each| && Drain(data).rest == ByLf(data).rest
            && if QuietRuns(ByLf(data).lines) then one == each else |one| < |each|
    decreases |data|
  {
    hide Drain, ByLf, QuietRuns, Shown, FindCrlf, Unmixed;
    if FindCrlf(data) == |data| {
      NoCrlfNoRun(data);
      UnmixedDrain(data);
    } else {
      CrlfPart(data);
      var n := FindCrlf(data) + 2;
      var run, rest := ByLf(data[..n]).lines, ByLf(data[n..]).lines;
      RunJoins(data[..n]);
      assert data[..n][..n - 2] == data[..n - 2];
      DrainShows(data[n..]);
      LineSplitting.AfterLine(data, n);
      RestAfter(data, n);
      QuietCons(run, rest);
      ShownAllConcat(run, rest);
      ConsTail(Line(data[..n - 2], CRLF), Drain(data[n..]).lines);
    }
  }

  lemma RestAfter(data: string, n: nat)
    requires 0 < n <= |data| && data[n - 1] == '\n'
    ensures ByLf(data).rest == ByLf(data[n..]).rest
  {
    EndsInLf(data[..n]);
    Parts(data, n);
    ByLfConcat(data[..n], data[n..]);
    assert "" + data[n..] == data[n..];
  }

  // ---- Any writes ----

  /** After any writes of a stream with quiet runs the log is the reference's. */
  lemma {:induction false} QuietWrites(w: Split, a: string, chunks: seq<string>)
    requires QuietRuns(ByLf(a + Concat(chunks)).lines)
    requires w.rest == ByLf(a).rest && ShownAll(w.lines) == ShownAll(ByLf(a).lines)
    ensures ShownAll(WriteAll(w, chunks).lines) == ShownAll(ByLf(a + Concat(chunks)).lines)
    decreases |chunks|
  {
    hide ByLf, QuietRuns, WriteTo, ShownAll;
    if chunks == [] {
      assert a + Concat(chunks) == a;
    } else {
      Assoc(a, chunks[0], Concat(chunks[1..]));
      ByLfConcat(a + chunks[0], Concat(chunks[1..]));
      QuietParts(ByLf(a + chunks[0]).lines, ByLf(ByLf(a + chunks[0]).rest + Concat(chunks[1..])).lines);
      QuietWrite(w, a, chunks[0]);
      QuietWrites(WriteTo(w, chunks[0]), a + chunks[0], chunks[1..]);
    }
  }

  lemma QuietWrite(w: Split, a: string, p: string)
    requires QuietRuns(ByLf(a + p).lines)
    requires w.rest == ByLf(a).rest && ShownAll(w.lines) == ShownAll(ByLf(a).lines)
    ensures var v := WriteTo(w, p); v.rest == ByLf(a + p).rest && ShownAll(v.lines) == ShownAll(ByLf(a + p).lines)
  {
    hide ByLf, QuietRuns, ShownAll, Drain;
    if p == "" {
      assert a + p == a;
    } else {
      ByLfConcat(a, p);
      var d := ByLf(a).rest + p;
      QuietParts(ByLf(a).lines, ByLf(d).lines);
      DrainShows(d);
      ShownAllConcat(ByLf(a).lines, ByLf(d).lines);
      ShownAllConcat(w.lines, Drain(d).lines);
    }
  }

  /** The log of `stream` is the same however it is cut into writes. */
  ghost predicate LogIndependent(stream: string) {
    forall chunks: seq<string> :: Concat(chunks) == stream ==>
      ShownAll(WriteAll(EMPTY, chunks).lines) == ShownAll(WriteAll(EMPTY, [stream]).lines)
  }

  /** The log does not depend on the cuts if and only if no run of lines ended by bare LFs
      and closed by one ended by CRLF holds more than one line that is not blank. */
  lemma LogIndependentExactlyWhenQuiet(stream: string)
    ensures LogIndependent(stream) <==> QuietRuns(ByLf(stream).lines)
  {
    hide QuietRuns, Drain, WriteTo;
    assert ByLf("") == EMPTY;
    assert "" + stream == stream && Concat([stream]) == stream;
    if QuietRuns(ByLf(stream).lines) {
      forall chunks: seq<string> | Concat(chunks) == stream
        ensures ShownAll(WriteAll(EMPTY, chunks).lines) == ShownAll(WriteAll(EMPTY, [stream]).lines)
      {
        QuietWrites(EMPTY, "", chunks);
        QuietWrites(EMPTY, "", [stream]);
      }
    } else {
      ByteWrites("", stream);
      DrainShows(stream);
      OneWrite(stream);
      assert Concat(Bytes(stream)) == stream;
    }
  }
}
