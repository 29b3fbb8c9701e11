/** The submission server of internal/smtpbridge/submit.go: its hooks. */
module SubmissionHooks {
  import opened Base64
  import opened LoginLimit
  import LoginProtocol
  import opened SmtpModel
  import opened Text

  /** A client of the remote API, made and authorised by one AUTH of one session. */
  datatype Client = Client(session: nat, user: Octets, password: Octets)

  /** How submit.go configures the SMTP server. */
  const SERVER := Config("mailbridge", "mailbridge", false, false, true, true,
                         map["PLAIN" := true, "LOGIN" := true, "CRAM-MD5" := false],
                         25 * 1024 * 1024, 0, Handler, false)

  /** What the remote API makes of a message. */
  datatype ApiAnswer = Unreachable | Accepted | Rejected(denied: bool)

  const NEED_LOGIN := "530" + " 5.7.0 Authentication required"
  const BAD_DATA := "451" + " 4.3.0 bad message data"
  const UPSTREAM := "451" + " 4.3.0 upstream error"
  const POLICY := "554" + " 5.7.1 policy rejection"
  const SEND_FAILED := "554" + " 5.5.0 send failed"

  /** The handler's error, or None. */
  function Outcome(wellFormed: bool, answer: ApiAnswer): Option<string> {
    if !wellFormed then Some(BAD_DATA)
    else
      match answer
      case Unreachable => Some(UPSTREAM)
      case Rejected(true) => Some(POLICY)
      case Rejected(false) => Some(SEND_FAILED)
      case Accepted => None
  }

  /** The handler's error for a message from `addr`. */
  function HandlerError(tokens: map<string, Client>, addr: string, wellFormed: bool, answer: ApiAnswer): Option<string> {
    if Lookup(tokens, addr).None? then Some(NEED_LOGIN) else Outcome(wellFormed, answer)
  }

  /** What one login attempt leaves in the limiter. */
  function Attempt(r: Record, authorised: bool, checkedAt: Time, recordedAt: Time): Record {
    if Blocks(r, checkedAt) then r
    else if authorised then CLEAN
    else LoginLimit.Failed(Checked(r, checkedAt), recordedAt)
  }

  /** That is what the steps of LoginProtocol leave: a check of the clock read before the
      lock was taken and, if it admits, a success or a failure. */
  lemma AttemptIsSteps(w: LoginProtocol.World, ip: string, authorised: bool, checkedAt: Time, enteredAt: Time, recordedAt: Time)
    requires ip != "" && w.clock <= enteredAt && checkedAt <= enteredAt <= recordedAt
    ensures var check := LoginProtocol.Check(ip, enteredAt, checkedAt);
            && LoginProtocol.Enabled(w, check)
            && var v := LoginProtocol.Do(w, check);
               var finish := if authorised then LoginProtocol.Succeed(ip, recordedAt) else LoginProtocol.Fail(ip, recordedAt);
               var before, left := LoginProtocol.Rec(w, ip), Attempt(LoginProtocol.Rec(w, ip), authorised, checkedAt, recordedAt);
               if Blocks(before, checkedAt) then
                 LoginProtocol.Rec(v, ip) == left && LoginProtocol.Flying(v, ip) == LoginProtocol.Flying(w, ip)
               else LoginProtocol.Enabled(v, finish) && LoginProtocol.Rec(LoginProtocol.Do(v, finish), ip) == left
  {
  }

  /** The token map after an AUTH from `addr`. */
  function Stored(tokens: map<string, Client>, addr: string, cli: Client, ok: bool): map<string, Client> {
    if ok then tokens[addr := cli] else tokens
  }

  /** The client a message from `addr` goes out under. */
  function Lookup(tokens: map<string, Client>, addr: string): Option<Client> {
    if addr in tokens then Some(tokens[addr]) else None
  }

  class Server {
    const limit: Tracker?  // null when logins are not limited
    var tokens: map<string, Client>
    ghost var sent: seq<Client>  // whose login each message went out under

    constructor (limit: Tracker?)
      ensures this.limit == limit && tokens == map[] && sent == []
    {
      this.limit, tokens, sent := limit, map[], [];
    }

    /** `authorised` is the API's verdict on `cli`; a limited address is not asked about. */
    method AuthHandler(addr: string, ip: string, cli: Client, authorised: bool, checkedAt: Time, recordedAt: Time)
        returns (ok: bool)
      modifies this`tokens, if limit == null then {} else {limit}
      ensures ok == (authorised && (limit != null && ip != "" ==> !Blocks(old(limit.At(ip)), checkedAt)))
      ensures tokens == Stored(old(tokens), addr, cli, ok)
      ensures limit != null && ip != "" ==> limit.At(ip) == Attempt(old(limit.At(ip)), authorised, checkedAt, recordedAt)
      ensures limit != null ==> forall other :: other != ip ==> limit.At(other) == old(limit.At(other))
    {
      if limit != null {
        var allowed := limit.Allowed(ip, checkedAt);
        if !allowed {
          return false;
        }
      }
      if !authorised {
        if limit != null {
          limit.RecordFailure(ip, recordedAt);
        }
        return false;
      }
      if limit != null {
        limit.RecordSuccess(ip);
      }
      tokens := tokens[addr := cli];
      return true;
    }

    /** Sends under the client stored for the address, and says so only if the API took the
        message. */
    method MailHandler(addr: string, wellFormed: bool, answer: ApiAnswer) returns (error: Option<string>)
      modifies this`sent
      ensures error == HandlerError(tokens, addr, wellFormed, answer)
      ensures error.None? <==> addr in tokens && wellFormed && answer.Accepted?
      ensures sent == if error.None? then old(sent) + [Lookup(tokens, addr).value] else old(sent)
    {
      if addr !in tokens {
        return Some(NEED_LOGIN);
      }
      var cli := tokens[addr];
      if !wellFormed {
        return Some(BAD_DATA);
      }
      match answer {
        case Unreachable => return Some(UPSTREAM);
        case Rejected(denied) => return Some(if denied then POLICY else SEND_FAILED);
        case Accepted =>
          sent := sent + [cli];
          return None;
      }
    }
  }
}

/** Many sessions share one token map. Each runs the SMTP engine; the hook calls of all
    of them interleave in any order. Connections drop at any point, while their sessions
    still finish the calls in progress and the commands already received, and the
    addresses of dropped connections are used again. */
module SubmissionProtocol {
  import opened SmtpHandler
  import opened SmtpHistory
  import opened SmtpInvariants
  import opened SmtpModel
  import opened SmtpRuns
  import opened SmtpTrace
  import opened SubmissionHooks
  import opened Text

  /** A session still running; its connection may be gone. Its engine may be ahead of the
      hook calls it has made: those up to `done` have happened. `login` is the client its
      own AUTH authorised. */
  datatype Conn = Conn(addr: string, gone: bool, engine: State, done: Trace, login: Option<Client>)

  /** A call of mailHandler and the client it found. */
  datatype Sending = Sending(session: nat, login: Option<Client>, used: Option<Client>)

  datatype World = World(conns: map<nat, Conn>, count: nat, tokens: map<string, Client>, sendings: seq<Sending>)

  datatype Step =
    | Connect(addr: string, input: Stream, ip: string, host: string)
    | Go(c: nat, env: Env)    // the engine carries out one more command
    | Call(c: nat)            // the next event of the engine takes effect
    | Drop(c: nat, left: nat) // the connection is gone; `left` bytes more can be read
    | End(c: nat)             // the session ends; its token stays

  /** The first event of `t` after `done`. */
  function Next(done: Trace, t: Trace): Event
    requires Extends(done, t) && done != t
  {
    if t.before == done then t.last else Next(done, t.before)
  }

  /** Connections that exist at the same time have different addresses. */
  predicate Enabled(w: World, s: Step) {
    match s
    case Connect(addr, _, _, _) => forall c :: c in w.conns && !w.conns[c].gone ==> w.conns[c].addr != addr
    case Go(c, _) => c in w.conns && w.conns[c].done == w.conns[c].engine.wire.trace
    case Call(c) => c in w.conns && Extends(w.conns[c].done, w.conns[c].engine.wire.trace)
                    && w.conns[c].done != w.conns[c].engine.wire.trace
    case Drop(c, _) => c in w.conns && !w.conns[c].gone
    case End(c) => c in w.conns && !w.conns[c].engine.open && w.conns[c].done == w.conns[c].engine.wire.trace
  }

  /** What an event of session `c` does to the token map and to what was sent. */
  function Effect(w: World, c: nat, e: Event): World
    requires c in w.conns
  {
    var conn := w.conns[c].(done := Then(w.conns[c].done, e));
    if IsLogin(e) then
      var cli := Client(c, e.user, e.password);
      w.(conns := w.conns[c := conn.(login := Some(cli))], tokens := Stored(w.tokens, conn.addr, cli, true))
    else if e.Handled? then
      w.(conns := w.conns[c := conn], sendings := w.sendings + [Sending(c, conn.login, Lookup(w.tokens, conn.addr))])
    else
      w.(conns := w.conns[c := conn])
  }

  function Do(w: World, s: Step): World
    requires Enabled(w, s)
  {
    match s
    case Connect(addr, input, ip, host) =>
      var engine := Start(input, false, ip, host);
      w.(conns := w.conns[w.count := Conn(addr, false, engine, engine.wire.trace, None)], count := w.count + 1)
    case Go(c, env) =>
      var conn := w.conns[c];
      w.(conns := w.conns[c := conn.(engine := Iterate(SERVER, env, conn.engine))])
    case Call(c) => Effect(w, c, Next(w.conns[c].done, w.conns[c].engine.wire.trace))
    case Drop(c, left) =>
      var conn := w.conns[c];
      w.(conns := w.conns[c := conn.(gone := true, engine := CutOff(conn.engine, left))])
    case End(c) => w.(conns := w.conns - {c})
  }

  /** Of what is left to read, only the first `left` bytes arrive. */
  function CutOff(s: State, left: nat): State {
    var bytes := s.wire.input.bytes;
    s.(wire := s.wire.(input := Stream(bytes[..if left < |bytes| then left else |bytes|], Broken)))
  }

  const EMPTY := World(map[], 0, map[], [])

  ghost predicate CanRun(w: World, run: seq<Step>)
    decreases |run|
  {
    run == [] || (Enabled(w, run[0]) && CanRun(Do(w, run[0]), run[1..]))
  }

  ghost function After(w: World, run: seq<Step>): World
    requires CanRun(w, run)
    decreases |run|
  {
    if run == [] then w else After(Do(w, run[0]), run[1..])
  }

  /** No connection is made from the address of a session that still runs. */
  ghost predicate Apart(w: World, run: seq<Step>)
    requires CanRun(w, run)
    decreases |run|
  {
    run != [] ==>
      && (run[0].Connect? ==> forall c :: c in w.conns ==> w.conns[c].addr != run[0].addr)
      && Apart(Do(w, run[0]), run[1..])
  }

  // ---- The invariant ----

  /** Once a session has logged in, its address holds its own client. */
  predicate OwnToken(w: World, c: nat)
    requires c in w.conns
  {
    var conn := w.conns[c];
    if Logins(conn.done) == 0 then conn.login == None
    else
      && conn.login.Some? && conn.login.value.session == c
      && conn.addr in w.tokens && w.tokens[conn.addr] == conn.login.value
  }

  ghost predicate EngineOk(conn: Conn) {
    && Inv(SERVER, conn.engine)
    && AllJustified(SERVER, conn.engine.wire.trace)
    && (conn.engine.open ==> Tracked(conn.engine))
    && Extends(conn.done, conn.engine.wire.trace)
  }

  predicate Rightful(s: Sending) {
    s.used.Some? && s.used == s.login && s.used.value.session == s.session
  }

  ghost predicate GoodConns(w: World) {
    && (forall c :: c in w.conns ==> c < w.count && EngineOk(w.conns[c]) && OwnToken(w, c))
    && (forall c, d :: c in w.conns && d in w.conns && c != d ==> w.conns[c].addr != w.conns[d].addr)
  }

  ghost predicate Good(w: World) {
    GoodConns(w) && forall i :: 0 <= i < |w.sendings| ==> Rightful(w.sendings[i])
  }

  lemma {:induction false} NextExtends(done: Trace, t: Trace)
    requires Extends(done, t) && done != t
    ensures Extends(Then(done, Next(done, t)), t)
  {
    if t.before != done {
      NextExtends(done, t.before);
    }
  }

  lemma {:induction false} ExtendsLogins(s: Trace, t: Trace)
    requires Extends(s, t)
    ensures Logins(s) <= Logins(t)
  {
    if s != t {
      ExtendsLogins(s, t.before);
    }
  }

  /** Every message the engine hands over comes after its login. */
  lemma {:induction false} HandledAfterLogin(done: Trace, t: Trace)
    requires AllJustified(SERVER, t) && Extends(done, t) && done != t && Next(done, t).Handled?
    ensures Logins(done) == 1
  {
    if t.before != done {
      HandledAfterLogin(done, t.before);
    }
  }

  lemma ConnectKeeps(w: World, s: Step)
    requires Good(w) && Enabled(w, s) && s.Connect?
    requires forall c :: c in w.conns ==> w.conns[c].addr != s.addr
    ensures Good(Do(w, s))
  {
    hide Inv, AllJustified, Tracked;
    var engine := Start(s.input, false, s.ip, s.host);
    StartOk(s.input, s.ip, s.host);
    assert OwnToken(Do(w, s), w.count);
    forall c | c in w.conns
      ensures OwnToken(Do(w, s), c)
    {
      assert OwnToken(w, c);
    }
  }

  lemma StartOk(input: Stream, ip: string, host: string)
    ensures var s := Start(input, false, ip, host);
            Inv(SERVER, s) && AllJustified(SERVER, s.wire.trace) && Tracked(s) && Logins(s.wire.trace) == 0
  {
    HandlerArguments(SERVER, AnyEnv(), input, false, ip, host, 0);
    Reachable(SERVER, AnyEnv(), input, false, ip, host, 0);
  }

  function AnyEnv(): Env {
    Env(n => AuthAnswer(false, None), n => true, n => Took(""), n => Down(0), n => 0, n => ("", ""), n => "")
  }

  lemma GoKeeps(w: World, s: Step)
    requires Good(w) && Enabled(w, s) && s.Go?
    ensures Good(Do(w, s))
  {
    hide Iterate, Inv, AllJustified, Tracked;
    var conn := w.conns[s.c];
    TurnOk(s.env, conn.engine);
    var next := Do(w, s);
    forall c | c in w.conns
      ensures OwnToken(next, c) && next.conns[c].addr == w.conns[c].addr
    {
      assert OwnToken(w, c);
    }
  }

  lemma TurnOk(env: Env, s: State)
    requires Inv(SERVER, s) && AllJustified(SERVER, s.wire.trace) && (s.open ==> Tracked(s))
    ensures var t := Iterate(SERVER, env, s);
            && Inv(SERVER, t) && AllJustified(SERVER, t.wire.trace) && (t.open ==> Tracked(t))
            && Extends(s.wire.trace, t.wire.trace)
  {
    hide Iterate, Inv, AllJustified, Tracked;
    IterateKeeps(SERVER, env, s);
    IterateJustified(SERVER, env, s);
    if s.open {
      IterateTracked(SERVER, env, s);
    }
    IterateExtends(SERVER, env, s);
  }

  lemma DropKeeps(w: World, s: Step)
    requires Good(w) && Enabled(w, s) && s.Drop?
    ensures Good(Do(w, s))
  {
    hide EngineOk, CutOff;
    var next := Do(w, s);
    CutOffOk(w.conns[s.c], s.left);
    forall c | c in w.conns
      ensures OwnToken(next, c) && next.conns[c].addr == w.conns[c].addr
    {
      assert OwnToken(w, c);
    }
  }

  lemma CutOffOk(conn: Conn, left: nat)
    requires EngineOk(conn)
    ensures EngineOk(conn.(gone := true, engine := CutOff(conn.engine, left)))
  {
    hide AllJustified, Logins, Seen, Extends;
  }

  lemma EndKeeps(w: World, s: Step)
    requires Good(w) && Enabled(w, s) && s.End?
    ensures Good(Do(w, s))
  {
    hide Inv, AllJustified, Tracked;
    forall c | c in Do(w, s).conns
      ensures OwnToken(Do(w, s), c)
    {
      assert OwnToken(w, c);
    }
  }

  /** The effect of one event on its own session. */
  lemma EffectOnOwn(w: World, c: nat, e: Event)
    requires c in w.conns && OwnToken(w, c) && EngineOk(w.conns[c])
    requires var t := w.conns[c].engine.wire.trace; w.conns[c].done != t && e == Next(w.conns[c].done, t)
    ensures var v := Effect(w, c, e); EngineOk(v.conns[c]) && OwnToken(v, c)
    ensures e.Handled? ==> Rightful(Effect(w, c, e).sendings[|w.sendings|])
  {
    hide Inv, AllJustified, Tracked;
    var conn := w.conns[c];
    var t := conn.engine.wire.trace;
    NextExtends(conn.done, t);
    ExtendsLogins(Then(conn.done, e), t);
    AtMostOneLogin(conn.engine);
    if e.Handled? {
      HandledAfterLogin(conn.done, t);
    }
  }

  lemma AtMostOneLogin(s: State)
    requires Inv(SERVER, s)
    ensures Logins(s.wire.trace) <= 1
  {
  }

  lemma CallKeeps(w: World, s: Step)
    requires Good(w) && Enabled(w, s) && s.Call?
    ensures Good(Do(w, s))
  {
    hide Good, Effect;
    EffectKeeps(w, s.c);
  }

  lemma EffectKeeps(w: World, c: nat)
    requires Good(w) && Enabled(w, Call(c))
    ensures Good(Effect(w, c, Next(w.conns[c].done, w.conns[c].engine.wire.trace)))
  {
    var e := Next(w.conns[c].done, w.conns[c].engine.wire.trace);
    hide GoodConns, EngineOk, OwnToken, Rightful, Next, Effect;
    var next := Effect(w, c, e);
    EffectOnConns(w, c);
    EffectShape(w, c, e);
    forall i | 0 <= i < |next.sendings|
      ensures Rightful(next.sendings[i])
    {
      if i < |w.sendings| {
        assert next.sendings[i] == w.sendings[i];
      }
    }
  }

  lemma EffectOnConns(w: World, c: nat)
    requires GoodConns(w) && Enabled(w, Call(c))
    ensures var e := Next(w.conns[c].done, w.conns[c].engine.wire.trace);
            && GoodConns(Effect(w, c, e))
            && (e.Handled? ==> Rightful(Effect(w, c, e).sendings[|w.sendings|]))
  {
    var e := Next(w.conns[c].done, w.conns[c].engine.wire.trace);
    hide EngineOk, OwnToken, Rightful, Effect, Next;
    var v := Effect(w, c, e);
    EffectOnOwn(w, c, e);
    EffectShape(w, c, e);
    forall d | d in w.conns && d != c
      ensures v.conns[d] == w.conns[d] && OwnToken(v, d)
    {
      EffectOnOther(w, c, e, d);
    }
  }

  lemma EffectShape(w: World, c: nat, e: Event)
    requires c in w.conns
    ensures var v := Effect(w, c, e);
            && v.count == w.count && v.conns.Keys == w.conns.Keys && v.conns[c].addr == w.conns[c].addr
            && w.sendings <= v.sendings && |v.sendings| == |w.sendings| + if e.Handled? then 1 else 0
  {
  }

  /** It touches no other session, nor the token of one with another address. */
  lemma EffectOnOther(w: World, c: nat, e: Event, d: nat)
    requires c in w.conns && d in w.conns && d != c && w.conns[d].addr != w.conns[c].addr && OwnToken(w, d)
    ensures var v := Effect(w, c, e); d in v.conns && v.conns[d] == w.conns[d] && OwnToken(v, d)
  {
  }

  lemma {:induction false} RunKeeps(w: World, run: seq<Step>)
    requires Good(w) && CanRun(w, run) && Apart(w, run)
    ensures Good(After(w, run))
    decreases |run|
  {
    if run != [] {
      hide Good, Do, Enabled;
      match run[0] {
        case Connect(_, _, _, _) => ConnectKeeps(w, run[0]);
        case Go(_, _) => GoKeeps(w, run[0]);
        case Call(_) => CallKeeps(w, run[0]);
        case Drop(_, _) => DropKeeps(w, run[0]);
        case End(_) => EndKeeps(w, run[0]);
      }
      RunKeeps(Do(w, run[0]), run[1..]);
    }
  }

  /** Over every interleaving of any number of sessions, with connections dropped at any
      point and addresses used again once the sessions that had them have ended: a session
      that has logged in finds its own client under its address, and every message ever
      handed over went out under the client its own session authorised, so the reply for
      a missing login is never given. */
  lemma EachUnderItsOwnLogin(run: seq<Step>)
    requires CanRun(EMPTY, run) && Apart(EMPTY, run)
    ensures var w := After(EMPTY, run);
            && (forall c :: c in w.conns && Logins(w.conns[c].done) > 0 ==>
                  && w.conns[c].login.Some? && w.conns[c].login.value.session == c
                  && w.conns[c].addr in w.tokens && w.tokens[w.conns[c].addr] == w.conns[c].login.value)
            && (forall i :: 0 <= i < |w.sendings| ==>
                  && w.sendings[i].used.Some? && w.sendings[i].used == w.sendings[i].login
                  && w.sendings[i].used.value.session == w.sendings[i].session)
  {
    RunKeeps(EMPTY, run);
    hide EngineOk;
    var w := After(EMPTY, run);
    forall c | c in w.conns && Logins(w.conns[c].done) > 0
      ensures OwnToken(w, c)
    {
    }
    assert forall i :: 0 <= i < |w.sendings| ==> Rightful(w.sendings[i]);
  }

  /** As long as no connection goes before its session does, that is the case anyway. */
  lemma {:induction false} UndroppedIsApart(w: World, run: seq<Step>)
    requires CanRun(w, run) && forall s :: s in run ==> !s.Drop?
    requires forall c :: c in w.conns ==> !w.conns[c].gone
    ensures Apart(w, run)
    decreases |run|
  {
    if run != [] {
      assert run[0] in run;
      assert forall s :: s in run[1..] ==> s in run;
      StillThere(w, run[0]);
      hide Enabled, Do;
      UndroppedIsApart(Do(w, run[0]), run[1..]);
    }
  }

  lemma StillThere(w: World, s: Step)
    requires Enabled(w, s) && !s.Drop? && forall c :: c in w.conns ==> !w.conns[c].gone
    ensures forall c :: c in Do(w, s).conns ==> !Do(w, s).conns[c].gone
    ensures s.Connect? ==> forall c :: c in w.conns ==> w.conns[c].addr != s.addr
  {
    hide Iterate, Start, Next;
  }
}

/** The hooks never confuse a client about the replies. */
module SubmissionReplies {
  import opened SmtpModel
  import opened SmtpPipelining
  import opened SmtpTrace
  import opened SubmissionHooks
  import opened Text

  /** An environment in which the hooks are those of submit.go. */
  ghost predicate Hooked(env: Env) {
    && (forall n :: env.auth(n).error == None)
    && (forall n :: env.handle(n).Refused? ==> IsHookError(env.handle(n).error))
  }

  ghost predicate IsHookError(error: string) {
    error == NEED_LOGIN || exists wellFormed, answer :: Outcome(wellFormed, answer) == Some(error)
  }

  /** Each error of mailHandler has the form of a reply, is passed on as it is, and
      completes the DATA. */
  lemma HookErrorsAreFinal(error: string)
    requires IsHookError(error)
    ensures Refusal(error) == Raw(error) && IsFinal(Raw(error)) && Code(Raw(error)) in {451, 530, 554}
  {
    hide IsFinal, Refusal, Code;
    HookErrorTexts(error);
    FinalText("530", " 5.7.0 Authentication required");
    FinalText("451", " 4.3.0 bad message data");
    FinalText("451", " 4.3.0 upstream error");
    FinalText("554", " 5.7.1 policy rejection");
    FinalText("554", " 5.5.0 send failed");
  }

  lemma HookErrorTexts(error: string)
    requires IsHookError(error)
    ensures error == NEED_LOGIN || error == BAD_DATA || error == UPSTREAM || error == POLICY || error == SEND_FAILED
  {
    if error != NEED_LOGIN {
      var wellFormed, answer :| Outcome(wellFormed, answer) == Some(error);
    }
  }

  lemma FinalText(code: string, text: string)
    requires code in {"451", "530", "554"}
    requires |text| >= 2 && text[0] == ' ' && '\n' !in text
    ensures Refusal(code + text) == Raw(code + text) && IsFinal(Raw(code + text))
    ensures Code(Raw(code + text)) in {451, 530, 554}
  {
    var error := code + text;
    assert error[..3] == code && error[3] == ' ' && error[4..] == text[1..];
    ThreeDigits(code);
    assert error[0] == code[0] && error[1] == code[1] && error[2] == code[2];
  }

  /** How the handler's error reads, and when there is none. */
  lemma ErrorReads(tokens: map<string, Client>, addr: string, wellFormed: bool, answer: ApiAnswer)
    ensures var error := HandlerError(tokens, addr, wellFormed, answer);
      && (error.None? <==> addr in tokens && wellFormed && answer.Accepted?)
      && (error.Some? ==>
            && Refusal(error.value) == Raw(error.value) && |error.value| > 9
            && Code(Raw(error.value)) == (if addr !in tokens then 530
                                          else if !wellFormed || answer.Unreachable? then 451
                                          else 554)
            && (addr in tokens && wellFormed && answer.Rejected? ==>
                  (error.value[4..9] == "5.7.1" <==> answer.denied)))
  {
    hide Refusal, Code;
    ReadsAs("530", " 5.7.0 Authentication required");
    ReadsAs("451", " 4.3.0 bad message data");
    ReadsAs("451", " 4.3.0 upstream error");
    ReadsAs("554", " 5.7.1 policy rejection");
    ReadsAs("554", " 5.5.0 send failed");
    Statuses();
  }

  lemma Statuses()
    ensures " 5.7.1 policy rejection"[1..6] == "5.7.1" && " 5.5.0 send failed"[1..6] != "5.7.1"
  {
    assert " 5.7.1 policy rejection" == " " + "5.7.1" + " policy rejection";
    assert " 5.5.0 send failed"[1..6][2] == '5' && "5.7.1"[2] == '7';
  }

  lemma AcceptedCode()
    ensures Code(Reply(250, "2.0.0")) == 250
  {
  }

  /** Such an error reads as its first three digits and keeps its text. */
  lemma ReadsAs(code: string, text: string)
    requires code in {"451", "530", "554"}
    requires |text| >= 6 && text[0] == ' ' && '\n' !in text
    ensures Refusal(code + text) == Raw(code + text)
    ensures Code(Raw(code + text)) == if code == "451" then 451 else if code == "530" then 530 else 554
    ensures |code + text| > 8 && (code + text)[4..9] == text[1..6]
  {
    hide IsFinal;
    FinalText(code, text);
    ThreeDigits(code);
    assert (code + text)[..3] == code;
  }

  /** What the client reads for its message: 250 if and only if its address has a client,
      the message is well formed and the API accepted it; otherwise 530 without a client,
      451 for bad data or no answer, and 554 for a rejection, with 5.7.1 exactly if it is a
      denial. */
  lemma ClientReads(cfg: Config, env: Env, s: State, body: string,
                    tokens: map<string, Client>, addr: string, wellFormed: bool, answer: ApiAnswer)
    requires s.mail.recipients != [] && !cfg.hook.NoHook?
    requires var error := HandlerError(tokens, addr, wellFormed, answer);
             env.handle(Now(s.wire)) == if error.Some? then Refused(error.value) else Took("")
    ensures var t := Deliver(cfg, env, s, body);
      && t.wire.trace.Then? && t.wire.trace.last.Said?
      && var r := t.wire.trace.last.reply;
         && Code(r) == (if addr !in tokens then 530
                        else if !wellFormed || answer.Unreachable? then 451
                        else if answer.Rejected? then 554
                        else 250)
         && (addr in tokens && wellFormed && answer.Rejected? ==>
               r.Raw? && |r.text| > 9 && (r.text[4..9] == "5.7.1" <==> answer.denied))
         && t.mail == if Code(r) == 250 then NO_MAIL else s.mail
  {
    hide Refusal, Code, MakeHeaders, HandlerError;
    ErrorReads(tokens, addr, wellFormed, answer);
    AcceptedCode();
  }

  /** The submission server's replies are aligned with the commands in every session. */
  lemma SubmissionAligns(env: Env, input: Stream, ip: string, host: string, n: nat)
    requires Hooked(env)
    ensures var s := Turns(SERVER, env, Start(input, false, ip, host), n);
            s.open ==> TurnAfter(s.wire.trace) == Idle
  {
    hide *;
    assert Tame(env) by { HookedIsTame(env); }
    NoTls();
    TameRepliesAlign(SERVER, env, input, false, ip, host, n);
  }

  lemma NoTls()
    ensures !SERVER.hasTls
  {
  }

  lemma HookedIsTame(env: Env)
    requires Hooked(env)
    ensures Tame(env)
  {
    hide IsHookError, IsFinal, Refusal;
    forall n | env.handle(n).Refused?
      ensures IsFinal(Refusal(env.handle(n).error))
    {
      HookErrorsAreFinal(env.handle(n).error);
    }
  }
}
