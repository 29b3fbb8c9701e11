/** A login that is still being checked when its connection is lost, and the session that
    connects from the same address meanwhile. */
module SubmissionRaces {
  import opened Base64
  import opened Seqs
  import opened SmtpDelivery
  import opened SmtpInvariants
  import opened SmtpModel
  import opened SmtpRuns
  import opened SmtpSyntax
  import opened SmtpTrace
  import opened SubmissionHooks
  import opened SubmissionProtocol
  import opened Text

  lemma {:induction false} Join(w: World, a: seq<Step>, b: seq<Step>)
    requires CanRun(w, a) && CanRun(After(w, a), b)
    ensures CanRun(w, a + b) && After(w, a + b) == After(After(w, a), b)
    decreases |a|
  {
    hide Enabled, Do;
    if a == [] {
      assert a + b == b;
    } else {
      ConcatTail(a, b);
      Join(Do(w, a[0]), a[1..], b);
    }
  }

  lemma Single(w: World, s: Step)
    requires Enabled(w, s)
    ensures CanRun(w, [s]) && After(w, [s]) == Do(w, s)
  {
    hide Enabled, Do;
    assert [s][1..] == [];
    assert CanRun(Do(w, s), []);
  }

  /** Session `c` has carried its calls out up to `t`, and nothing else has happened but
      their effects on the tokens and on what was sent. */
  ghost predicate CaughtUp(w: World, v: World, c: nat, t: Trace)
    requires c in w.conns
  {
    && c in v.conns && v.conns == w.conns[c := w.conns[c].(done := t, login := v.conns[c].login)] && v.count == w.count
  }

  /** Nobody logged in: the tokens are as before, and the messages handed over went out
      under the one for the address. */
  ghost predicate OnlySent(w: World, v: World, c: nat, n: int)
    requires c in w.conns && c in v.conns
  {
    && v.tokens == w.tokens && v.conns[c].login == w.conns[c].login
    && w.sendings <= v.sendings && |v.sendings| == |w.sendings| + n
    && forall k :: |w.sendings| <= k < |v.sendings| ==>
         v.sendings[k] == Sending(c, w.conns[c].login, Lookup(w.tokens, w.conns[c].addr))
  }

  /** Session `c` logged in: its client is under its address. */
  ghost predicate LoggedInNow(w: World, v: World, c: nat)
    requires c in w.conns && c in v.conns
  {
    && v.conns[c].login.Some? && v.conns[c].login.value.session == c
    && v.tokens == w.tokens[w.conns[c].addr := v.conns[c].login.value]
  }

  /** What the calls of `c` from `done` to `t` come to. */
  ghost predicate Came(w: World, v: World, c: nat, done: Trace, t: Trace)
    requires c in w.conns
  {
    && CaughtUp(w, v, c, t)
    && (Logins(t) == Logins(done) ==> OnlySent(w, v, c, |Handlings(t)| - |Handlings(done)|))
    && (Logins(t) > Logins(done) ==> LoggedInNow(w, v, c))
  }

  function Gap(done: Trace, t: Trace): nat
    requires Extends(done, t)
  {
    if done == t then 0 else 1 + Gap(done, t.before)
  }

  lemma {:induction false} GapShrinks(done: Trace, t: Trace)
    requires Extends(done, t) && done != t
    ensures Extends(Then(done, Next(done, t)), t) && Gap(Then(done, Next(done, t)), t) < Gap(done, t)
  {
    if t.before != done {
      GapShrinks(done, t.before);
      LengthGrows(Then(done, Next(done, t)), t.before);
    }
  }

  lemma {:induction false} LengthGrows(s: Trace, t: Trace)
    requires Extends(s, t)
    ensures Length(s) <= Length(t)
  {
    if s != t {
      LengthGrows(s, t.before);
    }
  }

  /** No connection comes or goes, and no session ends. */
  ghost predicate OnlyWorks(run: seq<Step>) {
    forall s :: s in run ==> s.Go? || s.Call?
  }

  /** All calls of a session can take effect at once. */
  lemma {:induction false} CatchUp(w: World, c: nat) returns (run: seq<Step>)
    requires c in w.conns && Extends(w.conns[c].done, w.conns[c].engine.wire.trace)
    ensures CanRun(w, run) && OnlyWorks(run)
    ensures Came(w, After(w, run), c, w.conns[c].done, w.conns[c].engine.wire.trace)
    decreases Gap(w.conns[c].done, w.conns[c].engine.wire.trace)
  {
    var done, t := w.conns[c].done, w.conns[c].engine.wire.trace;
    if done == t {
      run := [];
      assert w.conns == w.conns[c := w.conns[c]];
    } else {
      hide Effect, Next, Came, OnlySent, LoggedInNow, CaughtUp;
      var e := Next(done, t);
      var v := Effect(w, c, e);
      Single(w, Call(c));
      EffectShape(w, c, e);
      EffectDone(w, c, e);
      GapShrinks(done, t);
      var more := CatchUp(v, c);
      Join(w, [Call(c)], more);
      run := [Call(c)] + more;
      ExtendsLogins(Then(done, e), t);
      Compose(w, v, After(v, more), c, done, e, t);
    }
  }

  lemma EffectDone(w: World, c: nat, e: Event)
    requires c in w.conns
    ensures var v := Effect(w, c, e);
            && c in v.conns && v.conns[c].done == Then(w.conns[c].done, e) && v.conns[c].engine == w.conns[c].engine
  {
  }

  lemma Compose(w: World, v: World, u: World, c: nat, done: Trace, e: Event, t: Trace)
    requires c in w.conns && w.conns[c].done == done && v == Effect(w, c, e)
    requires Logins(Then(done, e)) <= Logins(t) && c in v.conns && Came(v, u, c, Then(done, e), t)
    ensures Came(w, u, c, done, t)
  {
    hide Logins, Handlings;
    OneEvent(done, e);
  }

  lemma OneEvent(done: Trace, e: Event)
    ensures Logins(Then(done, e)) == Logins(done) + if IsLogin(e) then 1 else 0
    ensures |Handlings(Then(done, e))| == |Handlings(done)| + if e.Handled? then 1 else 0
  {
  }

  lemma RunLogins(s: State, env: Env, n: nat)
    requires Inv(SERVER, s) && s.authenticated
    ensures Logins(Turns(SERVER, env, s, n).wire.trace) == Logins(s.wire.trace)
  {
    TurnsKeep(SERVER, env, s, n);
  }

  /** Session `c` carries out `n` more commands, with their calls. */
  lemma {:induction false} GoOn(w: World, c: nat, env: Env, n: nat) returns (run: seq<Step>)
    requires c in w.conns && w.conns[c].done == w.conns[c].engine.wire.trace
    requires Inv(SERVER, w.conns[c].engine) && w.conns[c].engine.authenticated
    ensures CanRun(w, run) && OnlyWorks(run)
    ensures var v := After(w, run); var t := Turns(SERVER, env, w.conns[c].engine, n);
            && c in v.conns && v.conns.Keys == w.conns.Keys
            && OnlySent(w, v, c, |Handlings(t.wire.trace)| - |Handlings(w.conns[c].done)|)
    decreases n
  {
    hide Iterate, Inv, Logins, Handlings;
    if n == 0 {
      run := [];
    } else {
      var s := w.conns[c].engine;
      var go := Go(c, env);
      var v := Do(w, go);
      Single(w, go);
      IterateExtends(SERVER, env, s);
      IterateKeeps(SERVER, env, s);
      var calls := CatchUp(v, c);
      var u := After(v, calls);
      Join(w, [go], calls);
      RunLogins(s, env, 1);
      assert Turns(SERVER, env, s, 1) == Iterate(SERVER, env, s) by { OneTurn(env, s); }
      var more := GoOn(u, c, env, n - 1);
      Join(w, [go] + calls, more);
      run := ([go] + calls) + more;
    }
  }

  lemma OneTurn(env: Env, s: State)
    ensures Turns(SERVER, env, s, 1) == Iterate(SERVER, env, s)
  {
    hide Iterate;
  }

  // ---- The failing run ----

  function Opening(user: Octets, password: Octets, rest: string): Stream {
    Stream(AsSent(LoginLine(user, password)) + rest, Eof)
  }

  /** A session after its first command, a login. */
  function Asked(env: Env, input: Stream): State {
    Iterate(SERVER, env, Start(input, false, "", ""))
  }

  /** That command makes its login. */
  predicate LogsIn(env: Env, input: Stream) {
    var s, t := Start(input, false, "", "").wire.trace, Asked(env, input).wire.trace;
    Extends(s, t) && Logins(s) == 0 && Logins(t) == 1
  }

  lemma AskedLogsIn(env: Env, user: Octets, password: Octets, rest: string)
    requires Welcoming(env) && 0 !in user && 0 !in password
    ensures LogsIn(env, Opening(user, password, rest))
    ensures var s := Start(Opening(user, password, rest), false, "", ""); var t := Asked(env, Opening(user, password, rest));
            && Inv(SERVER, t) && t.open && t.authenticated && t.tls == s.tls && t.wire.input.bytes == rest
  {
    hide Iterate;
    var s := Start(Opening(user, password, rest), false, "", "");
    StartOk(Opening(user, password, rest), "", "");
    LoginTurn(SERVER, env, s, user, password, rest);
    IterateKeeps(SERVER, env, s);
    IterateExtends(SERVER, env, s);
  }

  /** A message went out under another session's client. */
  predicate WrongSender(s: Sending) {
    s.login.Some? && s.login.value.session == s.session && s.used.Some? && s.used.value.session != s.session
  }

  ghost predicate SomeWrongSender(w: World) {
    exists i :: 0 <= i < |w.sendings| && WrongSender(w.sendings[i])
  }

  /** Session `c` has asked for its login and not made use of any answer. */
  ghost predicate Asking(w: World, c: nat) {
    && c in w.conns && Extends(w.conns[c].done, w.conns[c].engine.wire.trace)
    && Logins(w.conns[c].done) == 0 && Logins(w.conns[c].engine.wire.trace) == 1
  }

  /** A connection from `addr` whose session asks for a login and goes on to send `m`. */
  lemma ConnectAndAsk(w: World, addr: string, env: Env, user: Octets, password: Octets, rest: string) returns (run: seq<Step>)
    requires Enabled(w, Connect(addr, Opening(user, password, rest), "", "")) && w.count !in w.conns
    requires Welcoming(env) && 0 !in user && 0 !in password
    ensures |run| == 2 && run[0] == Connect(addr, Opening(user, password, rest), "", "") && run[1] == Go(w.count, env)
    ensures CanRun(w, run)
    ensures var v := After(w, run); var s := Start(Opening(user, password, rest), false, "", "");
            && v == w.(conns := w.conns[w.count := Conn(addr, false, Asked(env, Opening(user, password, rest)), s.wire.trace, None)],
                       count := w.count + 1)
            && Asking(v, w.count)
  {
    hide Iterate, Start, Logins, Opening, Welcoming;
    var connect, go := Connect(addr, Opening(user, password, rest), "", ""), Go(w.count, env);
    AskedLogsIn(env, user, password, rest);
    Single(w, connect);
    Single(Do(w, connect), go);
    Join(w, [connect], [go]);
    run := [connect] + [go];
  }

  /** A connection comes from `addr` while session `c`, which has it too, still waits for
      the answer to its login: the new session's login is answered, then the other one's,
      which takes its place under their common address, and then a letter goes out. */
  lemma Overtaken(w: World, c: nat, env: Env, user: Octets, password: Octets, m: Letter) returns (run: seq<Step>)
    requires Asking(w, c) && c != w.count && w.count !in w.conns
    requires Enabled(w, Connect(w.conns[c].addr, Opening(user, password, Sent(m)), "", ""))
    requires Welcoming(env) && 0 !in user && 0 !in password && Fits(SERVER, m)
    ensures CanRun(w, run) && SomeWrongSender(After(w, run))
    ensures |run| > 0 && run[0] == Connect(w.conns[c].addr, Opening(user, password, Sent(m)), "", "") && OnlyWorks(run[1..])
  {
    hide Iterate, Start, Logins, Handlings, Asked, Inv, Fits, Sent, Opening, Welcoming, Enabled;
    var addr, d := w.conns[c].addr, w.count;
    run := ConnectAndAsk(w, addr, env, user, password, Sent(m));
    AskedLogsIn(env, user, password, Sent(m));
    var v := After(w, run);
    var late := LateAnswer(v, c, d);
    Join(w, run, late);
    var u := After(w, run + late);
    GoesOut(env, u.conns[d].engine, m);
    var sent := GoOn(u, d, env, |m.to| + 2);
    Join(w, run + late, sent);
    assert WrongSender(After(w, run + late + sent).sendings[|u.sendings|]);
    assert (run + late + sent)[1..] == run[1..] + late + sent;
    run := run + late + sent;
  }

  /** Two sessions wait under one address; the answer to `c` comes last. */
  lemma LateAnswer(w: World, c: nat, d: nat) returns (run: seq<Step>)
    requires Asking(w, c) && Asking(w, d) && c != d && w.conns[c].addr == w.conns[d].addr
    ensures CanRun(w, run) && OnlyWorks(run)
    ensures var v := After(w, run); var addr := w.conns[d].addr;
            && d in v.conns && v.conns[d].engine == w.conns[d].engine && v.conns[d].done == v.conns[d].engine.wire.trace
            && v.conns[d].addr == addr
            && v.conns[d].login.Some? && v.conns[d].login.value.session == d
            && addr in v.tokens && v.tokens[addr].session == c
  {
    hide Logins, OnlySent;
    var own := CatchUp(w, d);
    var u := After(w, own);
    var late := CatchUp(u, c);
    Join(w, own, late);
    run := own + late;
  }

  /** If the address of a dropped connection is used again while its session still waits
      for the answer to its login, the next session's mail can go out under the first
      one's client. So the premise of EachUnderItsOwnLogin is needed. */
  lemma LateLoginTakesOver(addr: string, env: Env, user0: Octets, password0: Octets, user1: Octets, password1: Octets, m: Letter)
      returns (run: seq<Step>)
    requires Welcoming(env) && 0 !in user0 && 0 !in password0 && 0 !in user1 && 0 !in password1 && Fits(SERVER, m)
    ensures CanRun(EMPTY, run) && SomeWrongSender(After(EMPTY, run))
  {
    hide Iterate, Start, Logins, Asked, Fits, Sent, Opening, Welcoming, SomeWrongSender;
    var first := ConnectAndAsk(EMPTY, addr, env, user0, password0, "");
    var v := After(EMPTY, first);
    Single(v, Drop(0, 0));
    Join(EMPTY, first, [Drop(0, 0)]);
    var more := Overtaken(Do(v, Drop(0, 0)), 0, env, user1, password1, m);
    Join(EMPTY, first + [Drop(0, 0)], more);
    run := first + [Drop(0, 0)] + more;
  }

  lemma GoesOut(env: Env, s: State, m: Letter)
    requires Welcoming(env) && Fits(SERVER, m) && s.open && s.authenticated && s.wire.input.bytes == Sent(m)
    ensures |Handlings(Turns(SERVER, env, s, |m.to| + 2).wire.trace)| == |Handlings(s.wire.trace)| + 1
  {
    hide Iterate, Turns, Sent, Fits;
    LoggedIn(SERVER, env, s, s);
    assert Sent(m) + "" == Sent(m);
    var call := LetterTurns(SERVER, env, s, m, "");
  }
}
