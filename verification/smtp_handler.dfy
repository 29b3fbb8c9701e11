/** At every handler call of every session, the arguments are what the history says. */
module SmtpHandler {
  import opened SmtpData
  import opened SmtpExchange
  import opened SmtpHistory
  import opened SmtpInvariants
  import opened SmtpModel
  import opened SmtpRuns
  import opened SmtpSyntax
  import opened SmtpTrace
  import opened Text

  lemma AuthJustified(cfg: Config, env: Env, s: State, args: string)
    requires AllJustified(cfg, s.wire.trace)
    ensures AllJustified(cfg, DoAuth(cfg, env, s, args).wire.trace)
  {
    if Exchanging(cfg, s, args) {
      var (w, end) := Exchange(env, s.wire, FirstWord(args), Rest(args));
      ExchangeExchanges(env, s.wire, FirstWord(args), Rest(args));
      SameHandlings(cfg, s.wire.trace, w.trace);
    }
  }

  lemma RcptJustified(cfg: Config, env: Env, s: State, args: string)
    requires AllJustified(cfg, s.wire.trace)
    ensures AllJustified(cfg, DoRcpt(cfg, env, s, args).wire.trace)
  {
    match RcptRefusal(cfg, s, args)
    case Some(_) =>
    case None =>
      var address := MatchRcpt(args).value;
      var ok := !cfg.hasRcptHook || env.rcpt(Now(s.wire));
      assert AllJustified(cfg, Note(s.wire, RcptAsked(s.mail.sender, address, ok)).trace);
  }

  lemma StartTlsJustified(cfg: Config, env: Env, s: State, args: string)
    requires AllJustified(cfg, s.wire.trace)
    ensures AllJustified(cfg, DoStartTls(cfg, env, s, args).wire.trace)
  {
    var w := Say(s.wire, 220, "2.0.0");
    assert AllJustified(cfg, w.trace);
    assert AllJustified(cfg, Record(w.trace, TlsDown));
  }

  lemma DeliverJustified(cfg: Config, env: Env, s: State, body: string)
    requires AllJustified(cfg, s.wire.trace) && Tracked(s) && s.mail.gotFrom && s.mail.recipients != []
    requires cfg.hasAuth && cfg.authRequired ==> Logins(s.wire.trace) == 1
    requires s.wire.trace.Then? && s.wire.trace.last == Body(body)
    ensures AllJustified(cfg, Deliver(cfg, env, s, body).wire.trace)
  {
    var now := env.clock(Now(s.wire));
    var data := MakeHeaders(cfg, s.peer, s.mail.recipients, now) + body;
    forall ok: bool
      ensures AllJustified(cfg, Record(s.wire.trace, Handled(s.mail.sender, s.mail.recipients, data, ok)))
    {
      assert data == MakeHeaders(cfg, Peer(Seen(s.wire.trace).name, s.peer.ip, s.peer.host), s.mail.recipients, now) + body;
      assert Justified(cfg, s.wire.trace, Handled(s.mail.sender, s.mail.recipients, data, ok));
    }
  }

  lemma BodyJustified(cfg: Config, env: Env, s: State, read: BodyRead)
    requires AllJustified(cfg, s.wire.trace) && Tracked(s) && s.mail.gotFrom && s.mail.recipients != []
    requires cfg.hasAuth && cfg.authRequired ==> Logins(s.wire.trace) == 1
    requires VerbOf(Seen(s.wire.trace).line) == DATA
    ensures AllJustified(cfg, TakeBody(cfg, env, s, read).wire.trace)
  {
    match read
    case Complete(body, rest) =>
      var w := Note(Unread(s.wire, rest), Body(body));
      assert Seen(w.trace) == Seen(s.wire.trace);
      assert AllJustified(cfg, w.trace);
      DeliverJustified(cfg, env, s.(wire := w), body);
    case _ =>
  }

  lemma DataJustified(cfg: Config, env: Env, s: State, args: string)
    requires Inv(cfg, s) && AllJustified(cfg, s.wire.trace) && Tracked(s) && Doing(s, DATA, args)
    ensures AllJustified(cfg, DoData(cfg, env, s).wire.trace)
  {
    if !Gated(cfg, s) && s.mail.gotFrom && |s.mail.recipients| > 0 {
      var w := Say(s.wire, 354, "");
      assert Seen(w.trace) == Seen(s.wire.trace);
      assert AllJustified(cfg, w.trace);
      BodyJustified(cfg, env, s.(wire := w), ReadBody(w.input.bytes, cfg.maxSize, ""));
    }
  }

  lemma DispatchJustified(cfg: Config, env: Env, s: State, verb: Verb, args: string)
    requires Inv(cfg, s) && AllJustified(cfg, s.wire.trace) && Tracked(s) && Doing(s, verb, args)
    ensures AllJustified(cfg, Dispatch(cfg, env, s, verb, args).wire.trace)
  {
    match verb
    case RCPT => RcptJustified(cfg, env, s, args);
    case DATA => DataJustified(cfg, env, s, args);
    case AUTH => AuthJustified(cfg, env, s, args);
    case STARTTLS => StartTlsJustified(cfg, env, s, args);
    case _ =>
  }

  lemma IterateJustified(cfg: Config, env: Env, s: State)
    requires Inv(cfg, s) && AllJustified(cfg, s.wire.trace) && (s.open ==> Tracked(s))
    ensures AllJustified(cfg, Iterate(cfg, env, s).wire.trace)
  {
    if s.open && HasLine(s.wire.input.bytes) {
      var line := Trim(FirstLine(s.wire.input.bytes));
      var t := Accept(s, line, AfterLine(s.wire.input.bytes));
      assert Seen(t.wire.trace) == View(line, s.mail, false, s.peer.name);
      assert AllJustified(cfg, t.wire.trace);
      DispatchJustified(cfg, env, t, VerbOf(line), Rest(line));
    }
  }

  lemma {:induction false} TurnsJustified(cfg: Config, env: Env, s: State, n: nat)
    requires Inv(cfg, s) && AllJustified(cfg, s.wire.trace) && (s.open ==> Tracked(s))
    ensures var t := Turns(cfg, env, s, n);
            AllJustified(cfg, t.wire.trace) && (t.open ==> Tracked(t))
    decreases n
  {
    if n > 0 {
      if s.open {
        IterateTracked(cfg, env, s);
      }
      IterateKeeps(cfg, env, s);
      IterateJustified(cfg, env, s);
      TurnsJustified(cfg, env, Iterate(cfg, env, s), n - 1);
    }
  }

  /** Over every session, for every input and every behaviour of the environment: each
      handler call gets the sender of the last MAIL answered 250 and exactly the RCPTs
      answered 250 since, as Seen reads them off the lines, replies and earlier handler
      calls, and the header followed by the body just read. */
  lemma HandlerArguments(cfg: Config, env: Env, input: Stream, tls: bool, ip: string, host: string, n: nat)
    ensures AllJustified(cfg, Turns(cfg, env, Start(input, tls, ip, host), n).wire.trace)
  {
    var s := Start(input, tls, ip, host);
    assert Tracked(s) by {
      assert VerbOf("") == UNKNOWN;
    }
    assert AllJustified(cfg, Nothing);
    TurnsJustified(cfg, env, s, n);
  }

  /** The same of a session served to its end, as the session object serves it. */
  lemma ServedSession(cfg: Config, env: Env, input: Stream, tls: bool, ip: string, host: string)
    ensures var s := Run(cfg, env, Start(input, tls, ip, host));
            && AllJustified(cfg, s.wire.trace)
            && (s.mail.recipients != [] ==> s.mail.gotFrom)
            && (s.mail.gotFrom && cfg.hasAuth && cfg.authRequired ==> s.authenticated)
            && (s.mail.gotFrom && cfg.hasTls && cfg.tlsRequired ==> s.tls)
            && (cfg.maxRecipients >= 0 ==> |s.mail.recipients| <= MaxRecipients(cfg))
            && Logins(s.wire.trace) == if s.authenticated then 1 else 0
  {
    hide *;
    var n := RunIsTurns(cfg, env, Start(input, tls, ip, host));
    HandlerArguments(cfg, env, input, tls, ip, host, n);
    Reachable(cfg, env, input, tls, ip, host, n);
  }
}
