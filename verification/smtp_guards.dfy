/** No hook is asked, and no message taken, but behind what the configuration demands. */
module SmtpGuards {
  import opened Base64
  import opened SmtpData
  import opened SmtpDelivery
  import opened SmtpHistory
  import opened SmtpInvariants
  import opened SmtpModel
  import opened SmtpRuns
  import opened SmtpSyntax
  import opened SmtpTrace
  import SmtpUpsets
  import opened Text

  predicate Upgraded(t: Trace) {
    t.Then? && (t.last.TlsUp? || Upgraded(t.before))
  }

  /** After `history`, on a connection that was `tls` from the start or has been upgraded
      since, TLS and a login are there if they have to be. */
  predicate Admitted(cfg: Config, tls: bool, history: Trace) {
    && (cfg.hasTls && cfg.tlsRequired ==> tls || Upgraded(history))
    && (cfg.hasAuth && cfg.authRequired ==> Logins(history) == 1)
  }

  /** Passwords are asked about under TLS only, unless the configuration allows the
      mechanism in the clear; a mechanism it forbids is never used. Nobody logs in twice.
      The recipient hook gets the sender and the address on the line. */
  predicate MayFollow(cfg: Config, tls: bool, history: Trace, e: Event) {
    match e
    case AuthAsked(mech, _, _, _) =>
      && cfg.hasAuth && Logins(history) == 0
      && (cfg.hasTls && cfg.tlsRequired ==> tls || Upgraded(history))
      && (mech in cfg.authMechs ==> cfg.authMechs[mech])
      && (mech !in cfg.authMechs ==> mech == "CRAM-MD5" || ((mech == "LOGIN" || mech == "PLAIN") && (tls || Upgraded(history))))
    case RcptAsked(sender, address, _) =>
      && Admitted(cfg, tls, history) && cfg.hasRcptHook
      && Seen(history).mail.gotFrom && Seen(history).mail.sender == sender
      && VerbOf(Seen(history).line) == RCPT && MatchRcpt(Rest(Seen(history).line)) == Some(address)
    case Body(_) => Admitted(cfg, tls, history)
    case Handled(_, _, _, _) => Admitted(cfg, tls, history) && !cfg.hook.NoHook?
    case _ => true
  }

  predicate Guarded(cfg: Config, tls: bool, t: Trace) {
    t.Then? ==> Guarded(cfg, tls, t.before) && MayFollow(cfg, tls, t.before, t.last)
  }

  /** A session guarded so far; `tls` is what its connection started with. */
  predicate Kept(cfg: Config, tls: bool, s: State) {
    Guarded(cfg, tls, s.wire.trace) && (s.tls <==> tls || Upgraded(s.wire.trace))
  }

  // ---- AUTH ----

  /** From `t` to `u` only challenges, lines and questions about `mech` to a hook that has
      not said yes since. */
  predicate OnlyAsks(mech: string, t: Trace, u: Trace) {
    t == u ||
    (u.Then? && OnlyAsks(mech, t, u.before)
     && (u.last.Said? || u.last.Continued?
         || (u.last.AuthAsked? && u.last.mech == mech && Logins(u.before) == Logins(t))))
  }

  predicate NoneYet(mech: string, t: Trace, u: Trace) {
    OnlyAsks(mech, t, u) && Logins(u) == Logins(t)
  }

  lemma ChallengeAsksNot(mech: string, t: Trace, w: Wire)
    requires NoneYet(mech, t, w.trace)
    ensures NoneYet(mech, t, ReadMore(Say(w, 334, "")).0.trace)
  {
    var said := Say(w, 334, "");
    assert OnlyAsks(mech, t, said.trace);
  }

  lemma AsksOnce(env: Env, t: Trace, w: Wire, mech: string, user: Octets, password: Octets)
    requires NoneYet(mech, t, w.trace)
    ensures OnlyAsks(mech, t, AskAuth(env, w, mech, user, password).0.trace)
  {
  }

  lemma PasswordAsksOnce(env: Env, t: Trace, w: Wire, user: Option<Octets>)
    requires NoneYet("LOGIN", t, w.trace)
    ensures OnlyAsks("LOGIN", t, AskLogin(env, w, user).0.trace)
  {
    hide Decode, OnlyAsks;
    ChallengeAsksNot("LOGIN", t, w);
    var (v, line) := ReadMore(Say(w, 334, ""));
    if user.Some? && line.Some? && Decode(line.value).Some? {
      AsksOnce(env, t, v, "LOGIN", user.value, Decode(line.value).value);
    }
  }

  lemma CredentialsAskOnce(env: Env, t: Trace, w: Wire, data: Option<Octets>)
    ensures NoneYet("PLAIN", t, w.trace) ==> OnlyAsks("PLAIN", t, AskPlain(env, w, data).0.trace)
    ensures NoneYet("CRAM-MD5", t, w.trace) ==> OnlyAsks("CRAM-MD5", t, AskCramMd5(env, w, data).0.trace)
  {
    hide OnlyAsks;
    if data.Some? {
      var parts, fields := SplitAt(data.value, 0), SplitAt(data.value, 32);
      if |parts| == 3 && NoneYet("PLAIN", t, w.trace) {
        AsksOnce(env, t, w, "PLAIN", parts[1], parts[2]);
      }
      if |fields| >= 2 && NoneYet("CRAM-MD5", t, w.trace) {
        AsksOnce(env, t, w, "CRAM-MD5", fields[0], fields[1]);
      }
    }
  }

  lemma ExchangeAsks(env: Env, w: Wire, mech: string, arg: string)
    requires mech == "PLAIN" || mech == "LOGIN" || mech == "CRAM-MD5"
    ensures OnlyAsks(mech, w.trace, Exchange(env, w, mech, arg).0.trace)
  {
    hide Decode, OnlyAsks, AskLogin, AskPlain, AskCramMd5;
    assert NoneYet(mech, w.trace, w.trace) by { AsksNothing(mech, w.trace); }
    ChallengeAsksNot(mech, w.trace, w);
    var (v, line) := ReadMore(Say(w, 334, ""));
    CredentialsAskOnce(env, w.trace, w, Decode(arg));
    if mech == "LOGIN" {
      PasswordAsksOnce(env, w.trace, w, Decode(arg));
    }
    if line.Some? {
      CredentialsAskOnce(env, w.trace, v, Decode(line.value));
      if mech == "LOGIN" {
        PasswordAsksOnce(env, w.trace, v, Decode(line.value));
      }
    }
  }

  lemma AsksNothing(mech: string, t: Trace)
    ensures OnlyAsks(mech, t, t)
  {
  }

  lemma {:induction false} AsksGuarded(cfg: Config, tls: bool, mech: string, t: Trace, u: Trace)
    requires OnlyAsks(mech, t, u) && Guarded(cfg, tls, t) && cfg.hasAuth && Logins(t) == 0
    requires MechAllowed(cfg, tls || Upgraded(t), mech) && (cfg.hasTls && cfg.tlsRequired ==> tls || Upgraded(t))
    ensures Guarded(cfg, tls, u) && (Upgraded(u) <==> Upgraded(t))
  {
    hide MechAllowed;
    if t != u {
      AsksGuarded(cfg, tls, mech, t, u.before);
      AllowedMeans(cfg, tls || Upgraded(t), mech);
    }
  }

  lemma AllowedMeans(cfg: Config, secure: bool, mech: string)
    requires MechAllowed(cfg, secure, mech)
    ensures mech in cfg.authMechs ==> cfg.authMechs[mech]
    ensures mech !in cfg.authMechs ==> mech == "CRAM-MD5" || ((mech == "LOGIN" || mech == "PLAIN") && secure)
  {
  }

  lemma AuthGuarded(cfg: Config, env: Env, tls: bool, s: State, args: string)
    requires Kept(cfg, tls, s) && Inv(cfg, s)
    ensures Kept(cfg, tls, DoAuth(cfg, env, s, args))
  {
    hide Exchange, FirstWord, Rest, Guarded, OnlyAsks, AuthRefusal;
    if Exchanging(cfg, s, args) {
      var (w, end) := Exchange(env, s.wire, FirstWord(args), Rest(args));
      ExchangeAsks(env, s.wire, FirstWord(args), Rest(args));
      AsksGuarded(cfg, tls, FirstWord(args), s.wire.trace, w.trace);
      EndGuarded(cfg, tls, s, w, end);
    } else {
      RepliesFollow(cfg, tls, s.wire.trace);
    }
  }

  lemma Follows(cfg: Config, tls: bool, t: Trace, e: Event)
    requires Guarded(cfg, tls, t) && MayFollow(cfg, tls, t, e)
    ensures Guarded(cfg, tls, Record(t, e)) && (Upgraded(Record(t, e)) <==> e.TlsUp? || Upgraded(t))
  {
  }

  lemma RepliesFollow(cfg: Config, tls: bool, t: Trace)
    requires Guarded(cfg, tls, t)
    ensures forall r :: Guarded(cfg, tls, Record(t, Said(r))) && (Upgraded(Record(t, Said(r))) <==> Upgraded(t))
  {
  }

  lemma EndGuarded(cfg: Config, tls: bool, s: State, w: Wire, end: AuthEnd)
    requires Guarded(cfg, tls, w.trace) && (s.tls <==> tls || Upgraded(w.trace))
    ensures Kept(cfg, tls, EndAuth(s, w, end))
  {
  }

  // ---- The other commands ----

  lemma RcptGuarded(cfg: Config, env: Env, tls: bool, s: State, args: string)
    requires Kept(cfg, tls, s) && Inv(cfg, s) && Tracked(s) && Doing(s, RCPT, args)
    ensures Kept(cfg, tls, DoRcpt(cfg, env, s, args))
  {
    hide MatchRcpt, Guarded, Upgraded, Seen;
    match RcptRefusal(cfg, s, args)
    case Some(reply) => Follows(cfg, tls, s.wire.trace, Said(reply));
    case None => AddRcptGuarded(cfg, env, tls, s, args, MatchRcpt(args).value);
  }

  lemma AddRcptGuarded(cfg: Config, env: Env, tls: bool, s: State, args: string, address: string)
    requires Kept(cfg, tls, s) && Inv(cfg, s) && Tracked(s) && Doing(s, RCPT, args) && !Gated(cfg, s) && s.mail.gotFrom
    requires MatchRcpt(args) == Some(address)
    ensures Kept(cfg, tls, AddRcpt(cfg, env, s, address))
  {
    hide MatchRcpt, Guarded, Upgraded, Seen;
    var ok := !cfg.hasRcptHook || env.rcpt(Now(s.wire));
    var w := if cfg.hasRcptHook then Note(s.wire, RcptAsked(s.mail.sender, address, ok)) else s.wire;
    if cfg.hasRcptHook {
      Follows(cfg, tls, s.wire.trace, RcptAsked(s.mail.sender, address, ok));
    }
    Follows(cfg, tls, w.trace, Said(if ok then Reply(250, "2.1.5") else Reply(550, "5.1.0")));
  }

  lemma DeliverGuarded(cfg: Config, env: Env, tls: bool, s: State, body: string)
    requires Kept(cfg, tls, s) && Inv(cfg, s) && s.mail.recipients != []
    ensures Kept(cfg, tls, Deliver(cfg, env, s, body))
  {
    hide MakeHeaders, Refusal, Guarded, Upgraded, Seen;
    var now := Now(s.wire);
    var data := MakeHeaders(cfg, s.peer, s.mail.recipients, env.clock(now)) + body;
    if cfg.hook.NoHook? {
      Follows(cfg, tls, s.wire.trace, Said(Reply(250, "2.0.0")));
    } else {
      var took := env.handle(now).Took?;
      var call := Handled(s.mail.sender, s.mail.recipients, data, took);
      Follows(cfg, tls, s.wire.trace, call);
      Follows(cfg, tls, Record(s.wire.trace, call), Said(if took then Reply(250, "2.0.0") else Refusal(env.handle(now).error)));
    }
  }

  lemma BodyGuarded(cfg: Config, env: Env, tls: bool, s: State, read: BodyRead)
    requires Kept(cfg, tls, s) && Inv(cfg, s) && s.mail.recipients != []
    ensures Kept(cfg, tls, TakeBody(cfg, env, s, read))
  {
    hide Deliver, Guarded, Upgraded;
    match read
    case Complete(body, rest) =>
      Follows(cfg, tls, s.wire.trace, Body(body));
      DeliverGuarded(cfg, env, tls, s.(wire := Note(Unread(s.wire, rest), Body(body))), body);
    case _ =>
      RepliesFollow(cfg, tls, s.wire.trace);
  }

  lemma DataGuarded(cfg: Config, env: Env, tls: bool, s: State)
    requires Kept(cfg, tls, s) && Inv(cfg, s)
    ensures Kept(cfg, tls, DoData(cfg, env, s))
  {
    hide TakeBody, ReadBody;
    var t := s.(wire := Say(s.wire, 354, ""));
    assert Guarded(cfg, tls, t.wire.trace);
    if |s.mail.recipients| > 0 {
      BodyGuarded(cfg, env, tls, t, ReadBody(t.wire.input.bytes, cfg.maxSize, ""));
    }
  }

  lemma StartTlsGuarded(cfg: Config, env: Env, tls: bool, s: State, args: string)
    requires Kept(cfg, tls, s)
    ensures Kept(cfg, tls, DoStartTls(cfg, env, s, args))
  {
    hide Guarded, Upgraded;
    var w := Say(s.wire, 220, "2.0.0");
    Follows(cfg, tls, s.wire.trace, Said(Reply(220, "2.0.0")));
    Follows(cfg, tls, w.trace, TlsUp);
    Follows(cfg, tls, w.trace, TlsDown);
    Follows(cfg, tls, Record(w.trace, TlsDown), Said(Reply(403, "4.7.0")));
    RepliesFollow(cfg, tls, s.wire.trace);
  }

  lemma DispatchGuarded(cfg: Config, env: Env, tls: bool, s: State, verb: Verb, args: string)
    requires Kept(cfg, tls, s) && Inv(cfg, s) && Tracked(s) && Doing(s, verb, args)
    ensures Kept(cfg, tls, Dispatch(cfg, env, s, verb, args))
  {
    hide DoRcpt, DoData, DoAuth, DoStartTls, MailReply, AfterMail, Tracked, Doing, Inv;
    match verb
    case RCPT => RcptGuarded(cfg, env, tls, s, args);
    case DATA => DataGuarded(cfg, env, tls, s);
    case AUTH => AuthGuarded(cfg, env, tls, s, args);
    case STARTTLS => StartTlsGuarded(cfg, env, tls, s, args);
    case _ =>
  }

  lemma IterateGuarded(cfg: Config, env: Env, tls: bool, s: State)
    requires Kept(cfg, tls, s) && Inv(cfg, s) && (s.open ==> Tracked(s))
    ensures Kept(cfg, tls, Iterate(cfg, env, s))
  {
    hide Dispatch, VerbOf, Rest, Trim;
    if s.open && HasLine(s.wire.input.bytes) {
      var line := Trim(FirstLine(s.wire.input.bytes));
      var t := Accept(s, line, AfterLine(s.wire.input.bytes));
      assert Seen(t.wire.trace) == View(line, s.mail, false, s.peer.name);
      DispatchGuarded(cfg, env, tls, t, VerbOf(line), Rest(line));
    }
  }

  lemma {:induction false} TurnsGuarded(cfg: Config, env: Env, tls: bool, s: State, n: nat)
    requires Kept(cfg, tls, s) && Inv(cfg, s) && (s.open ==> Tracked(s))
    ensures Kept(cfg, tls, Turns(cfg, env, s, n))
    decreases n
  {
    hide Kept, Inv, Tracked, Iterate;
    if n > 0 {
      if s.open {
        IterateTracked(cfg, env, s);
      }
      IterateKeeps(cfg, env, s);
      IterateGuarded(cfg, env, tls, s);
      TurnsGuarded(cfg, env, tls, Iterate(cfg, env, s), n - 1);
    }
  }

  /** Over every session, whatever the client and the hooks do. */
  lemma SessionGuarded(cfg: Config, env: Env, input: Stream, tls: bool, ip: string, host: string, n: nat)
    ensures Guarded(cfg, tls, Turns(cfg, env, Start(input, tls, ip, host), n).wire.trace)
  {
    hide Turns;
    var s := Start(input, tls, ip, host);
    assert Tracked(s) by {
      assert VerbOf("") == UNKNOWN;
    }
    assert !Upgraded(Nothing);
    Follows(cfg, tls, Nothing, Said(Reply(220, "")));
    TurnsGuarded(cfg, env, tls, s, n);
  }

  /** And over all of one served to its end. */
  lemma ServedGuarded(cfg: Config, env: Env, input: Stream, tls: bool, ip: string, host: string)
    ensures Guarded(cfg, tls, Run(cfg, env, Start(input, tls, ip, host)).wire.trace)
  {
    hide *;
    var n := RunIsTurns(cfg, env, Start(input, tls, ip, host));
    SessionGuarded(cfg, env, input, tls, ip, host, n);
  }

  // ---- STARTTLS ----

  /** A completed handshake leaves of a session only its login and its peer's address: the
      transaction and the name the client gave are gone, and so is whatever came after
      STARTTLS in the clear. */
  lemma UpgradeForgets(cfg: Config, env: Env, s: State, stream: Stream, rest: string)
    requires s.open && cfg.hasTls && !s.tls && s.wire.input.bytes == AsSent("STARTTLS") + rest
    requires forall n :: env.handshake(n) == Up(stream)
    ensures var t := Iterate(cfg, env, s);
            && t.wire.input == stream
            && t == State(true, true, s.authenticated, Peer("", s.peer.ip, s.peer.host), NO_MAIL, t.wire)
            && t.wire.trace.Then? && t.wire.trace.last == TlsUp
            && t.wire.trace.before == Record(Record(s.wire.trace, Command("STARTTLS")), Said(Reply(220, "2.0.0")))
  {
    hide Iterate, Trim, VerbOf, Rest, HasLine, FirstLine, AfterLine, AsSent;
    SmtpUpsets.StartTlsReadsBack();
    LineTurn(cfg, env, s, "STARTTLS", rest);
    var t := Accept(s, "STARTTLS", rest);
    assert env.handshake(Now(t.wire) + 1) == Up(stream);
  }
}
