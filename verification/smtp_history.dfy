/** The transaction is a function of the history, and so are the handler's arguments. */
module SmtpHistory {
  import opened SmtpData
  import opened SmtpExchange
  import opened SmtpModel
  import opened SmtpSyntax
  import opened SmtpTrace
  import opened Text

  /** The session's transaction and the client's name are those to be read off the lines,
      replies and hook calls so far. */
  predicate Tracked(s: State) {
    Seen(s.wire.trace).mail == s.mail && Seen(s.wire.trace).name == s.peer.name
  }

  /** The line of the command being carried out. */
  predicate Doing(s: State, verb: Verb, args: string) {
    var v := Seen(s.wire.trace);
    VerbOf(v.line) == verb && Rest(v.line) == args && !v.refused
  }

  lemma MailTracked(cfg: Config, s: State, args: string)
    requires Tracked(s) && Doing(s, MAIL, args)
    ensures Tracked(DoMail(cfg, s, args))
  {
    var reply := MailReply(cfg, args);
    assert Code(reply) == 250 <==> reply == Reply(250, "2.1.0");
    assert Code(reply) != 530;
  }

  lemma RcptTracked(cfg: Config, env: Env, s: State, args: string)
    requires Tracked(s) && Doing(s, RCPT, args)
    ensures Tracked(DoRcpt(cfg, env, s, args))
  {
    match RcptRefusal(cfg, s, args)
    case Some(reply) => assert Code(reply) != 250;
    case None => AddRcptTracked(cfg, env, s, args, MatchRcpt(args).value);
  }

  lemma AddRcptTracked(cfg: Config, env: Env, s: State, args: string, address: string)
    requires Tracked(s) && Doing(s, RCPT, args) && MatchRcpt(args) == Some(address)
    ensures Tracked(AddRcpt(cfg, env, s, address))
  {
    var ok := !cfg.hasRcptHook || env.rcpt(Now(s.wire));
    var w := if cfg.hasRcptHook then Note(s.wire, RcptAsked(s.mail.sender, address, ok)) else s.wire;
    assert Seen(w.trace) == Seen(s.wire.trace);
  }

  lemma DeliverTracked(cfg: Config, env: Env, s: State, body: string)
    requires Tracked(s) && VerbOf(Seen(s.wire.trace).line) == DATA && !Seen(s.wire.trace).refused
    requires s.mail.recipients != []
    ensures Tracked(Deliver(cfg, env, s, body))
  {
    var data := MakeHeaders(cfg, s.peer, s.mail.recipients, env.clock(Now(s.wire))) + body;
    var took := Note(s.wire, Handled(s.mail.sender, s.mail.recipients, data, true));
    var refused := Note(s.wire, Handled(s.mail.sender, s.mail.recipients, data, false));
    assert Seen(took.trace) == Seen(s.wire.trace);
    assert Seen(refused.trace) == Seen(s.wire.trace).(refused := true);
  }

  lemma BodyTracked(cfg: Config, env: Env, s: State, read: BodyRead)
    requires Tracked(s) && VerbOf(Seen(s.wire.trace).line) == DATA && !Seen(s.wire.trace).refused
    requires s.mail.recipients != []
    ensures Tracked(TakeBody(cfg, env, s, read))
  {
    hide ReadBody, Deliver, IsFinal, MatchMail, MatchRcpt;
    match read
    case Complete(body, rest) =>
      var w := Note(Unread(s.wire, rest), Body(body));
      assert Seen(w.trace) == Seen(s.wire.trace);
      DeliverTracked(cfg, env, s.(wire := w), body);
    case _ =>
  }

  lemma DataTracked(cfg: Config, env: Env, s: State, args: string)
    requires Tracked(s) && Doing(s, DATA, args)
    ensures Tracked(DoData(cfg, env, s))
  {
    var w := Say(s.wire, 354, "");
    assert Seen(w.trace) == Seen(s.wire.trace);
    if |s.mail.recipients| > 0 {
      BodyTracked(cfg, env, s.(wire := w), ReadBody(w.input.bytes, cfg.maxSize, ""));
    }
  }

  lemma AuthTracked(cfg: Config, env: Env, s: State, args: string)
    requires Tracked(s) && Doing(s, AUTH, args)
    ensures Tracked(DoAuth(cfg, env, s, args))
  {
    if Exchanging(cfg, s, args) {
      var (w, end) := Exchange(env, s.wire, FirstWord(args), Rest(args));
      ExchangeExchanges(env, s.wire, FirstWord(args), Rest(args));
      BetweenChangesNothing(s.wire.trace, w.trace);
      EndAuthTracked(s, w, end);
    }
  }

  lemma EndAuthTracked(s: State, w: Wire, end: AuthEnd)
    requires Tracked(s) && VerbOf(Seen(s.wire.trace).line) == AUTH && Seen(w.trace) == Seen(s.wire.trace)
    ensures Tracked(EndAuth(s, w, end))
  {
  }

  lemma StartTlsTracked(cfg: Config, env: Env, s: State, args: string)
    requires Tracked(s) && Doing(s, STARTTLS, args)
    ensures Tracked(DoStartTls(cfg, env, s, args))
  {
    if args == "" && cfg.hasTls && !s.tls {
      var w := Say(s.wire, 220, "2.0.0");
      assert Seen(w.trace) == Seen(s.wire.trace);
      HandshakeTracked(s.(wire := w), env.handshake(Now(s.wire) + 1));
    }
  }

  lemma HandshakeTracked(s: State, answer: TlsAnswer)
    requires Tracked(s) && VerbOf(Seen(s.wire.trace).line) == STARTTLS
    ensures Tracked(Handshake(s, answer))
  {
    match answer
    case Down(n) => assert Seen(Note(Skip(s.wire, n), TlsDown).trace) == Seen(s.wire.trace);
    case Up(_) =>
  }

  lemma DispatchTracked(cfg: Config, env: Env, s: State, verb: Verb, args: string)
    requires Tracked(s) && Doing(s, verb, args)
    ensures Tracked(Dispatch(cfg, env, s, verb, args))
  {
    hide DoMail, DoRcpt, DoData, DoAuth, DoStartTls;
    match verb
    case MAIL => MailTracked(cfg, s, args);
    case RCPT => RcptTracked(cfg, env, s, args);
    case DATA => DataTracked(cfg, env, s, args);
    case AUTH => AuthTracked(cfg, env, s, args);
    case STARTTLS => StartTlsTracked(cfg, env, s, args);
    case _ =>
  }

  lemma IterateTracked(cfg: Config, env: Env, s: State)
    requires Tracked(s)
    ensures Iterate(cfg, env, s).open ==> Tracked(Iterate(cfg, env, s))
  {
    if s.open && HasLine(s.wire.input.bytes) {
      var line := Trim(FirstLine(s.wire.input.bytes));
      var t := Accept(s, line, AfterLine(s.wire.input.bytes));
      assert Seen(t.wire.trace) == View(line, s.mail, false, s.peer.name);
      DispatchTracked(cfg, env, t, VerbOf(line), Rest(line));
    }
  }

  // ---- What the handler is given ----

  /** The handler is called right after a body was read, with the transaction the
      history leads to and a Received header with the client's name and for the first
      recipient before the body, and where logging in is required after exactly one login. */
  ghost predicate Justified(cfg: Config, history: Trace, call: Event)
    requires call.Handled?
  {
    && history.Then? && history.last.Body?
    && call.recipients != []
    && Seen(history).mail == Mail(call.sender, true, call.recipients)
    && (cfg.hasAuth && cfg.authRequired ==> Logins(history) == 1)
    && exists ip, host, now ::
         call.data == MakeHeaders(cfg, Peer(Seen(history).name, ip, host), call.recipients, now) + history.last.text
  }

  ghost predicate AllJustified(cfg: Config, t: Trace) {
    t.Then? ==> AllJustified(cfg, t.before) && (t.last.Handled? ==> Justified(cfg, t.before, t.last))
  }

  lemma {:induction false} SameHandlings(cfg: Config, t: Trace, u: Trace)
    requires AllJustified(cfg, t) && Between(t, u)
    ensures AllJustified(cfg, u)
  {
    if t != u {
      SameHandlings(cfg, t, u.before);
    }
  }
}
