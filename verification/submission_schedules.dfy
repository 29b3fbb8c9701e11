/** For which comings and goings of connections every mail is sure to go out under its own
    login. */
module SubmissionSchedules {
  import opened Seqs
  import opened SmtpDelivery
  import opened SmtpModel
  import opened SmtpRuns
  import opened SmtpTrace
  import opened SubmissionHooks
  import opened SubmissionProtocol
  import opened SubmissionRaces
  import opened Text

  // ---- Schedules ----

  /** What is seen of a run from outside: connections made, connections lost, sessions
      ended. Sessions are numbered as their connections come. */
  datatype Move = Opened(addr: string) | Dropped(c: nat) | Ended(c: nat)

  /** A running session: its address and whether its connection is gone. */
  datatype Slot = Slot(addr: string, gone: bool)

  datatype Lot = Lot(slots: map<nat, Slot>, count: nat)

  const NOBODY := Lot(map[], 0)

  /** Connections that exist at the same time have different addresses. */
  predicate Can(l: Lot, x: Move) {
    match x
    case Opened(addr) => forall c :: c in l.slots && !l.slots[c].gone ==> l.slots[c].addr != addr
    case Dropped(c) => c in l.slots && !l.slots[c].gone
    case Ended(c) => c in l.slots
  }

  function Moved(l: Lot, x: Move): Lot
    requires Can(l, x)
  {
    match x
    case Opened(addr) => Lot(l.slots[l.count := Slot(addr, false)], l.count + 1)
    case Dropped(c) => l.(slots := l.slots[c := l.slots[c].(gone := true)])
    case Ended(c) => l.(slots := l.slots - {c})
  }

  predicate Feasible(l: Lot, xs: seq<Move>)
    decreases |xs|
  {
    xs == [] || (Can(l, xs[0]) && Feasible(Moved(l, xs[0]), xs[1..]))
  }

  function AllMoved(l: Lot, xs: seq<Move>): Lot
    requires Feasible(l, xs)
    decreases |xs|
  {
    if xs == [] then l else AllMoved(Moved(l, xs[0]), xs[1..])
  }

  /** No connection is made from the address of a session that still runs. */
  predicate KeepsApart(l: Lot, xs: seq<Move>)
    requires Feasible(l, xs)
    decreases |xs|
  {
    xs != [] ==>
      && (xs[0].Opened? ==> forall c :: c in l.slots ==> l.slots[c].addr != xs[0].addr)
      && KeepsApart(Moved(l, xs[0]), xs[1..])
  }

  lemma {:induction false} MovedConcat(l: Lot, xs: seq<Move>, ys: seq<Move>)
    ensures Feasible(l, xs + ys) <==> Feasible(l, xs) && Feasible(AllMoved(l, xs), ys)
    ensures Feasible(l, xs + ys) ==> AllMoved(l, xs + ys) == AllMoved(AllMoved(l, xs), ys)
    decreases |xs|
  {
    if xs == [] {
      assert xs + ys == ys;
    } else {
      ConcatTail(xs, ys);
      if Can(l, xs[0]) {
        MovedConcat(Moved(l, xs[0]), xs[1..], ys);
      }
    }
  }

  // ---- The schedule of a run ----

  function MoveOf(s: Step): seq<Move> {
    match s
    case Connect(addr, _, _, _) => [Opened(addr)]
    case Drop(c, _) => [Dropped(c)]
    case End(c) => [Ended(c)]
    case _ => []
  }

  function ScheduleOf(run: seq<Step>): seq<Move> {
    if run == [] then [] else MoveOf(run[0]) + ScheduleOf(run[1..])
  }

  lemma {:induction false} ScheduleConcat(a: seq<Step>, b: seq<Step>)
    ensures ScheduleOf(a + b) == ScheduleOf(a) + ScheduleOf(b)
  {
    if a == [] {
      assert a + b == b;
    } else {
      ConcatTail(a, b);
      ScheduleConcat(a[1..], b);
      Assoc(MoveOf(a[0]), ScheduleOf(a[1..]), ScheduleOf(b));
    }
  }

  lemma {:induction false} WorksAreNoMoves(run: seq<Step>)
    requires OnlyWorks(run)
    ensures ScheduleOf(run) == []
  {
    if run != [] {
      assert run[0] in run;
      assert forall s :: s in run[1..] ==> s in run;
      WorksAreNoMoves(run[1..]);
    }
  }

  lemma OneMove(s: Step)
    ensures ScheduleOf([s]) == MoveOf(s)
  {
    assert [s][1..] == [];
    assert MoveOf(s) + [] == MoveOf(s);
  }

  function LotOf(w: World): Lot {
    Lot(map c | c in w.conns :: Slot(w.conns[c].addr, w.conns[c].gone), w.count)
  }

  predicate Sound(w: World) {
    forall c :: c in w.conns ==> c < w.count && Extends(w.conns[c].done, w.conns[c].engine.wire.trace)
  }

  lemma StepSound(w: World, s: Step)
    requires Sound(w) && Enabled(w, s)
    ensures Sound(Do(w, s))
  {
    hide Iterate, Start, Effect;
    match s
    case Go(c, env) => IterateExtends(SERVER, env, w.conns[c].engine);
    case Call(c) =>
      var e := Next(w.conns[c].done, w.conns[c].engine.wire.trace);
      NextExtends(w.conns[c].done, w.conns[c].engine.wire.trace);
      EffectFrame(w, c, e);
    case _ =>
  }

  lemma EffectFrame(w: World, c: nat, e: Event)
    requires c in w.conns
    ensures var v := Effect(w, c, e);
            && v.count == w.count && v.conns.Keys == w.conns.Keys && w.sendings <= v.sendings
            && (forall d :: d in w.conns ==> v.conns[d].addr == w.conns[d].addr && v.conns[d].gone == w.conns[d].gone)
            && (forall d :: d in w.conns && d != c ==> v.conns[d] == w.conns[d])
            && v.conns[c].done == Then(w.conns[c].done, e) && v.conns[c].engine == w.conns[c].engine
  {
  }

  /** Nothing in `v` is other than in `w` but session `c`, which keeps its slot. */
  lemma SameLot(w: World, v: World, c: nat, conn: Conn)
    requires c in w.conns && v.count == w.count && v.conns == w.conns[c := conn]
    requires conn.addr == w.conns[c].addr && conn.gone == w.conns[c].gone
    ensures LotOf(v) == LotOf(w)
  {
  }

  lemma ConnectLot(w: World, s: Step)
    requires Enabled(w, s) && s.Connect?
    ensures Can(LotOf(w), Opened(s.addr)) && LotOf(Do(w, s)) == Moved(LotOf(w), Opened(s.addr))
  {
    hide Start;
  }

  lemma DropLot(w: World, s: Step)
    requires Enabled(w, s) && s.Drop?
    ensures Can(LotOf(w), Dropped(s.c)) && LotOf(Do(w, s)) == Moved(LotOf(w), Dropped(s.c))
  {
    hide CutOff;
  }

  lemma StepLot(w: World, s: Step)
    requires Enabled(w, s)
    ensures MoveOf(s) == [] ==> LotOf(Do(w, s)) == LotOf(w)
    ensures MoveOf(s) != [] ==> Can(LotOf(w), MoveOf(s)[0]) && LotOf(Do(w, s)) == Moved(LotOf(w), MoveOf(s)[0])
    ensures w.sendings <= Do(w, s).sendings
  {
    hide Iterate, Start, Effect, Next, CutOff;
    match s
    case Connect(addr, input, ip, host) => ConnectLot(w, s);
    case Go(c, env) => SameLot(w, Do(w, s), c, Do(w, s).conns[c]);
    case Call(c) =>
      EffectFrame(w, c, Next(w.conns[c].done, w.conns[c].engine.wire.trace));
      SameLot(w, Do(w, s), c, Do(w, s).conns[c]);
    case Drop(c, _) => DropLot(w, s);
    case End(c) =>
  }

  /** A run follows its schedule. */
  lemma {:induction false} RunFollows(w: World, run: seq<Step>)
    requires Sound(w) && CanRun(w, run)
    ensures Feasible(LotOf(w), ScheduleOf(run)) && LotOf(After(w, run)) == AllMoved(LotOf(w), ScheduleOf(run))
    ensures Apart(w, run) <==> KeepsApart(LotOf(w), ScheduleOf(run))
    ensures Sound(After(w, run)) && w.sendings <= After(w, run).sendings
    decreases |run|
  {
    hide Enabled, Do, LotOf, Sound, Can, Moved;
    if run != [] {
      StepSound(w, run[0]);
      StepLot(w, run[0]);
      RunFollows(Do(w, run[0]), run[1..]);
      if MoveOf(run[0]) == [] {
        assert MoveOf(run[0]) + ScheduleOf(run[1..]) == ScheduleOf(run[1..]);
      } else {
        ConsTail(MoveOf(run[0])[0], ScheduleOf(run[1..]));
        SameAddresses(w, run[0]);
      }
    }
  }

  lemma SameAddresses(w: World, s: Step)
    ensures s.Connect? ==>
      ((forall c :: c in w.conns ==> w.conns[c].addr != s.addr)
       <==> (forall c :: c in LotOf(w).slots ==> LotOf(w).slots[c].addr != s.addr))
  {
    assert forall c :: c in w.conns ==> c in LotOf(w).slots && LotOf(w).slots[c].addr == w.conns[c].addr;
  }

  // ---- Every feasible schedule has a run ----

  /** A session finishes all it has to do. */
  lemma {:induction false} Finish(w: World, c: nat) returns (run: seq<Step>)
    requires Sound(w) && c in w.conns
    ensures CanRun(w, run) && OnlyWorks(run)
    ensures var v := After(w, run);
            && c in v.conns && v.conns == w.conns[c := v.conns[c]] && v.count == w.count
            && !v.conns[c].engine.open && v.conns[c].done == v.conns[c].engine.wire.trace
    decreases !w.conns[c].engine.tls, w.conns[c].engine.open, |w.conns[c].engine.wire.input.bytes|
  {
    hide Iterate, Came, OnlySent, LoggedInNow;
    var calls := CatchUp(w, c);
    var u := After(w, calls);
    CameShape(w, u, c, w.conns[c].done, w.conns[c].engine.wire.trace);
    if !w.conns[c].engine.open {
      run := calls;
    } else {
      var go := Go(c, AnyEnv());
      Single(u, go);
      Join(w, calls, [go]);
      RunFollows(w, calls);
      StepSound(u, go);
      Shrinks(SERVER, AnyEnv(), u.conns[c].engine);
      var more := Finish(Do(u, go), c);
      Join(w, calls + [go], more);
      run := calls + [go] + more;
    }
  }

  lemma CameShape(w: World, v: World, c: nat, done: Trace, t: Trace)
    requires c in w.conns && Came(w, v, c, done, t)
    ensures c in v.conns && v.conns == w.conns[c := v.conns[c]] && v.count == w.count
    ensures v.conns[c].done == t && v.conns[c].engine == w.conns[c].engine
  {
  }

  const NO_INPUT := Stream("", Eof)

  lemma EnabledAsSeen(w: World, addr: string)
    requires Can(LotOf(w), Opened(addr))
    ensures forall input :: Enabled(w, Connect(addr, input, "", ""))
  {
    assert forall c :: c in w.conns ==> c in LotOf(w).slots && LotOf(w).slots[c] == Slot(w.conns[c].addr, w.conns[c].gone);
  }

  lemma EndStep(w: World, c: nat, k: Option<nat>) returns (run: seq<Step>)
    requires Sound(w) && c in w.conns
    requires k.Some? && k.value in w.conns ==> Asking(w, k.value)
    ensures CanRun(w, run) && ScheduleOf(run) == [Ended(c)]
    ensures k.Some? && k.value in After(w, run).conns ==> Asking(After(w, run), k.value)
  {
    hide Logins, Sound;
    var works := Finish(w, c);
    var v := After(w, works);
    Single(v, End(c));
    Join(w, works, [End(c)]);
    WorksAreNoMoves(works);
    OneMove(End(c));
    ScheduleConcat(works, [End(c)]);
    run := works + [End(c)];
  }

  lemma ConnectStep(w: World, addr: string, k: Option<nat>, env: Env) returns (run: seq<Step>)
    requires Sound(w) && Can(LotOf(w), Opened(addr)) && Welcoming(env)
    requires k.Some? && k.value in w.conns ==> Asking(w, k.value)
    ensures CanRun(w, run) && ScheduleOf(run) == [Opened(addr)]
    ensures k.Some? && k.value in After(w, run).conns ==> Asking(After(w, run), k.value)
  {
    hide Iterate, Start, Logins, Welcoming, Opening;
    EnabledAsSeen(w, addr);
    if k == Some(w.count) {
      run := ConnectAndAsk(w, addr, env, [], [], "");
      OneMove(run[0]);
      OneMove(run[1]);
      assert run == [run[0]] + [run[1]];
      ScheduleConcat([run[0]], [run[1]]);
    } else {
      run := [Connect(addr, NO_INPUT, "", "")];
      Single(w, run[0]);
      OneMove(run[0]);
    }
  }

  /** One move of a schedule; session `k`, if it is the one that comes, asks for a login,
      and if it is there already it goes on waiting. */
  lemma LeadStep(w: World, x: Move, k: Option<nat>, env: Env) returns (run: seq<Step>)
    requires Sound(w) && Can(LotOf(w), x) && Welcoming(env)
    requires k.Some? && k.value in w.conns ==> Asking(w, k.value)
    ensures CanRun(w, run) && ScheduleOf(run) == [x]
    ensures k.Some? && k.value in After(w, run).conns ==> Asking(After(w, run), k.value)
  {
    hide Logins, Welcoming;
    match x
    case Opened(addr) => run := ConnectStep(w, addr, k, env);
    case Dropped(c) =>
      run := [Drop(c, 0)];
      Single(w, run[0]);
      OneMove(run[0]);
    case Ended(c) => run := EndStep(w, c, k);
  }

  /** A run of a schedule, with session `k`, if still running at its end, waiting for the
      answer to its login. */
  lemma {:induction false} Lead(w: World, xs: seq<Move>, k: Option<nat>, env: Env) returns (run: seq<Step>)
    requires Sound(w) && Feasible(LotOf(w), xs) && Welcoming(env)
    requires k.Some? && k.value in w.conns ==> Asking(w, k.value)
    ensures CanRun(w, run) && ScheduleOf(run) == xs
    ensures k.Some? && k.value in After(w, run).conns ==> Asking(After(w, run), k.value)
    decreases |xs|
  {
    hide Asking, Welcoming, Sound, LotOf, Can, Moved;
    if xs == [] {
      run := [];
    } else {
      var first := LeadStep(w, xs[0], k, env);
      RunFollows(w, first);
      SingleMoved(LotOf(w), xs[0]);
      var more := Lead(After(w, first), xs[1..], k, env);
      Join(w, first, more);
      ScheduleConcat(first, more);
      run := first + more;
    }
  }

  lemma SingleMoved(l: Lot, x: Move)
    requires Can(l, x)
    ensures Feasible(l, [x]) && AllMoved(l, [x]) == Moved(l, x)
  {
    hide Can, Moved;
    assert [x][1..] == [];
  }

  // ---- The exact condition ----

  /** The first connection made from the address of a session that still runs. */
  lemma {:induction false} Clash(l: Lot, xs: seq<Move>) returns (before: seq<Move>, addr: string, after: seq<Move>, c: nat)
    requires Feasible(l, xs) && !KeepsApart(l, xs)
    ensures xs == before + [Opened(addr)] + after && Feasible(l, before)
    ensures c in AllMoved(l, before).slots && AllMoved(l, before).slots[c].addr == addr
    decreases |xs|
  {
    hide Can, Moved;
    if xs[0].Opened? && exists c :: c in l.slots && l.slots[c].addr == xs[0].addr {
      c :| c in l.slots && l.slots[c].addr == xs[0].addr;
      before, addr, after := [], xs[0].addr, xs[1..];
    } else {
      before, addr, after, c := Clash(Moved(l, xs[0]), xs[1..]);
      ConsTail(xs[0], before);
      before := [xs[0]] + before;
    }
  }

  ghost predicate EachOwn(w: World) {
    forall i :: 0 <= i < |w.sendings| ==> Rightful(w.sendings[i])
  }

  /** Whatever the sessions do and whenever their calls come back. */
  ghost predicate Safe(xs: seq<Move>) {
    forall run :: CanRun(EMPTY, run) && ScheduleOf(run) == xs ==> EachOwn(After(EMPTY, run))
  }

  const SOME_LETTER := Letter("", ["a"], "")

  function Agreeable(): Env {
    Env(n => AuthAnswer(true, None), n => true, n => Took(""), n => Down(0), n => 0, n => ("", ""), n => "")
  }

  lemma SomeLetterFits()
    ensures Fits(SERVER, SOME_LETTER) && Welcoming(Agreeable())
  {
  }

  lemma WrongIsNotOwn(w: World, v: World)
    requires SomeWrongSender(w) && w.sendings <= v.sendings
    ensures !EachOwn(v)
  {
    var i :| 0 <= i < |w.sendings| && WrongSender(w.sendings[i]);
    assert v.sendings[i] == w.sendings[i];
    assert !Rightful(v.sendings[i]);
  }

  lemma EmptyIsSound()
    ensures Sound(EMPTY) && LotOf(EMPTY) == NOBODY
  {
  }

  /** A run of a schedule that does not keep apart in which a mail goes out wrong. */
  lemma WrongRun(xs: seq<Move>) returns (run: seq<Step>)
    requires Feasible(NOBODY, xs) && !KeepsApart(NOBODY, xs)
    ensures CanRun(EMPTY, run) && ScheduleOf(run) == xs && !EachOwn(After(EMPTY, run))
  {
    hide Feasible, KeepsApart, AllMoved, Asking, Welcoming, Fits, Sound, Opening, Sent, SomeWrongSender, EachOwn, Can, Moved, LotOf, Agreeable;
    EmptyIsSound();
    SomeLetterFits();
    var env := Agreeable();
    var before, addr, after, c := Clash(NOBODY, xs);
    MovedConcat(NOBODY, before + [Opened(addr)], after);
    MovedConcat(NOBODY, before, [Opened(addr)]);
    var lead := Lead(EMPTY, before, Some(c), env);
    RunFollows(EMPTY, lead);
    var w := After(EMPTY, lead);
    FirstCan(LotOf(w), Opened(addr));
    var over := TakeOver(w, c, addr, env);
    Join(EMPTY, lead, over);
    RunFollows(w, over);
    var rest := Lead(After(w, over), after, None, env);
    Join(EMPTY, lead + over, rest);
    RunFollows(After(w, over), rest);
    run := lead + over + rest;
    ScheduleConcat(lead, over);
    ScheduleConcat(lead + over, rest);
    WrongIsNotOwn(After(w, over), After(EMPTY, run));
  }

  lemma FirstCan(l: Lot, x: Move)
    requires Feasible(l, [x])
    ensures Can(l, x)
  {
  }

  lemma TakeOver(w: World, c: nat, addr: string, env: Env) returns (run: seq<Step>)
    requires Sound(w) && Can(LotOf(w), Opened(addr)) && c in LotOf(w).slots && LotOf(w).slots[c].addr == addr
    requires c in w.conns ==> Asking(w, c)
    requires Welcoming(env) && Fits(SERVER, SOME_LETTER)
    ensures CanRun(w, run) && ScheduleOf(run) == [Opened(addr)] && SomeWrongSender(After(w, run))
  {
    hide Asking, Welcoming, Fits, Opening, Sent, SomeWrongSender, Enabled;
    EnabledAsSeen(w, addr);
    run := Overtaken(w, c, env, [], [], SOME_LETTER);
    OneMove(run[0]);
    WorksAreNoMoves(run[1..]);
    assert run == [run[0]] + run[1..];
    ScheduleConcat([run[0]], run[1..]);
  }

  lemma ApartIsOwn(run: seq<Step>)
    requires CanRun(EMPTY, run) && Feasible(NOBODY, ScheduleOf(run)) && KeepsApart(NOBODY, ScheduleOf(run))
    ensures EachOwn(After(EMPTY, run))
  {
    hide CanRun, After;
    EmptyIsSound();
    RunFollows(EMPTY, run);
    EachUnderItsOwnLogin(run);
  }

  /** A schedule is safe, in every run that has it, if and only if it makes no connection
      from the address of a session that still runs. */
  lemma SafeExactlyWhenApart(xs: seq<Move>)
    requires Feasible(NOBODY, xs)
    ensures Safe(xs) <==> KeepsApart(NOBODY, xs)
  {
    hide Feasible, KeepsApart, EachOwn;
    if KeepsApart(NOBODY, xs) {
      forall run | CanRun(EMPTY, run) && ScheduleOf(run) == xs
        ensures EachOwn(After(EMPTY, run))
      {
        ApartIsOwn(run);
      }
    } else {
      var run := WrongRun(xs);
    }
  }

  /** The feasible schedules are those of runs. */
  lemma FeasibleExactlyWhenRun(xs: seq<Move>)
    ensures Feasible(NOBODY, xs) <==> exists run :: CanRun(EMPTY, run) && ScheduleOf(run) == xs
  {
    hide Feasible, CanRun, Welcoming;
    EmptyIsSound();
    SomeLetterFits();
    if Feasible(NOBODY, xs) {
      var run := Lead(EMPTY, xs, None, Agreeable());
    }
    forall run | CanRun(EMPTY, run) && ScheduleOf(run) == xs
      ensures Feasible(NOBODY, xs)
    {
      RunFollows(EMPTY, run);
    }
  }
}
