/** What every turn of the command loop keeps, and what that means for whole sessions. */
module SmtpInvariants {
  import opened SmtpData
  import opened SmtpExchange
  import opened SmtpModel
  import opened SmtpSyntax
  import opened SmtpTrace
  import opened Text

  /** The state every session is in between two commands. */
  predicate Inv(cfg: Config, s: State) {
    && (s.mail.recipients != [] ==> s.mail.gotFrom)
    && (s.mail.gotFrom ==> !Gated(cfg, s))
    && (MaxRecipients(cfg) >= 0 ==> |s.mail.recipients| <= MaxRecipients(cfg))
    && Logins(s.wire.trace) == if s.authenticated then 1 else 0
  }

  /** What never goes back. */
  predicate Grows(s: State, t: State) {
    && (s.tls ==> t.tls)
    && (s.authenticated ==> t.authenticated)
    && (t.open ==> s.open)
  }

  predicate Keeps(cfg: Config, s: State, t: State) {
    Inv(cfg, t) && Grows(s, t)
  }

  lemma MailKeeps(cfg: Config, s: State, args: string)
    requires Inv(cfg, s)
    ensures Keeps(cfg, s, DoMail(cfg, s, args))
  {
  }

  lemma RcptKeeps(cfg: Config, env: Env, s: State, args: string)
    requires Inv(cfg, s)
    ensures Keeps(cfg, s, DoRcpt(cfg, env, s, args))
  {
  }

  lemma DeliverKeeps(cfg: Config, env: Env, s: State, body: string)
    requires Inv(cfg, s) && s.mail.recipients != []
    ensures Keeps(cfg, s, Deliver(cfg, env, s, body))
  {
  }

  lemma BodyKeeps(cfg: Config, env: Env, s: State, read: BodyRead)
    requires Inv(cfg, s) && s.mail.recipients != []
    ensures Keeps(cfg, s, TakeBody(cfg, env, s, read))
  {
    match read
    case Complete(body, rest) => DeliverKeeps(cfg, env, s.(wire := Note(Unread(s.wire, rest), Body(body))), body);
    case _ =>
  }

  lemma DataKeeps(cfg: Config, env: Env, s: State)
    requires Inv(cfg, s)
    ensures Keeps(cfg, s, DoData(cfg, env, s))
  {
    var w := Say(s.wire, 354, "");
    if |s.mail.recipients| > 0 {
      BodyKeeps(cfg, env, s.(wire := w), ReadBody(w.input.bytes, cfg.maxSize, ""));
    }
  }

  lemma AuthKeeps(cfg: Config, env: Env, s: State, args: string)
    requires Inv(cfg, s)
    ensures Keeps(cfg, s, DoAuth(cfg, env, s, args))
  {
    ExchangeExchanges(env, s.wire, FirstWord(args), Rest(args));
  }

  lemma StartTlsKeeps(cfg: Config, env: Env, s: State, args: string)
    requires Inv(cfg, s)
    ensures Keeps(cfg, s, DoStartTls(cfg, env, s, args))
  {
  }

  lemma DispatchKeeps(cfg: Config, env: Env, s: State, verb: Verb, args: string)
    requires Inv(cfg, s)
    ensures Keeps(cfg, s, Dispatch(cfg, env, s, verb, args))
  {
    match verb
    case MAIL => MailKeeps(cfg, s, args);
    case RCPT => RcptKeeps(cfg, env, s, args);
    case DATA => DataKeeps(cfg, env, s);
    case AUTH => AuthKeeps(cfg, env, s, args);
    case STARTTLS => StartTlsKeeps(cfg, env, s, args);
    case _ =>
  }

  /** One turn of the loop, whatever the line and the answers. */
  lemma IterateKeeps(cfg: Config, env: Env, s: State)
    requires Inv(cfg, s)
    ensures Keeps(cfg, s, Iterate(cfg, env, s))
  {
    if s.open && HasLine(s.wire.input.bytes) {
      var line := Trim(FirstLine(s.wire.input.bytes));
      DispatchKeeps(cfg, env, Accept(s, line, AfterLine(s.wire.input.bytes)), VerbOf(line), Rest(line));
    }
  }

  lemma {:induction false} TurnsKeep(cfg: Config, env: Env, s: State, n: nat)
    requires Inv(cfg, s)
    ensures Keeps(cfg, s, Turns(cfg, env, s, n))
    decreases n
  {
    if n > 0 {
      IterateKeeps(cfg, env, s);
      TurnsKeep(cfg, env, Iterate(cfg, env, s), n - 1);
    }
  }

  /** In every reachable state: recipients only with a sender; a sender only behind
      whatever TLS and login the configuration requires; never more recipients than
      allowed; and exactly one successful login behind an authenticated session. */
  lemma Reachable(cfg: Config, env: Env, input: Stream, tls: bool, ip: string, host: string, n: nat)
    ensures var s := Turns(cfg, env, Start(input, tls, ip, host), n);
            && (s.mail.recipients != [] ==> s.mail.gotFrom)
            && (s.mail.gotFrom && cfg.hasAuth && cfg.authRequired ==> s.authenticated)
            && (s.mail.gotFrom && cfg.hasTls && cfg.tlsRequired ==> s.tls)
            && (cfg.maxRecipients >= 0 ==> |s.mail.recipients| <= MaxRecipients(cfg))
            && Logins(s.wire.trace) == if s.authenticated then 1 else 0
  {
    TurnsKeep(cfg, env, Start(input, tls, ip, host), n);
  }

  /** TLS and authentication, once there, stay for the rest of the session. */
  lemma NeverReverts(cfg: Config, env: Env, input: Stream, tls: bool, ip: string, host: string, m: nat, n: nat)
    requires m <= n
    ensures var s, t := Turns(cfg, env, Start(input, tls, ip, host), m), Turns(cfg, env, Start(input, tls, ip, host), n);
            (s.tls ==> t.tls) && (s.authenticated ==> t.authenticated)
  {
    var s0 := Start(input, tls, ip, host);
    TurnsKeep(cfg, env, s0, m);
    TurnsAdd(cfg, env, s0, m, n - m);
    TurnsKeep(cfg, env, Turns(cfg, env, s0, m), n - m);
  }

  lemma {:induction false} TurnsAdd(cfg: Config, env: Env, s: State, m: nat, n: nat)
    ensures Turns(cfg, env, s, m + n) == Turns(cfg, env, Turns(cfg, env, s, m), n)
    decreases m
  {
    if m > 0 {
      TurnsAdd(cfg, env, Iterate(cfg, env, s), m - 1, n);
    }
  }

  /** Where logging in is required, AUTH never meets an open transaction: before the
      login there is none, and after it AUTH has already been refused. */
  lemma AuthMeetsNoTransaction(cfg: Config, env: Env, input: Stream, tls: bool, ip: string, host: string, n: nat)
    requires cfg.hasAuth && cfg.authRequired
    ensures var s := Turns(cfg, env, Start(input, tls, ip, host), n);
            !s.authenticated ==> !s.mail.gotFrom && |s.mail.recipients| == 0
  {
    Reachable(cfg, env, input, tls, ip, host, n);
  }
}
