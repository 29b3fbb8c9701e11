/** Replies stay aligned with commands, so a client that pipelines can tell them apart. */
module SmtpPipelining {
  import opened SmtpData
  import opened SmtpExchange
  import opened SmtpModel
  import opened SmtpSyntax
  import opened SmtpTrace
  import opened Text

  /** `u` completes the command waiting in `t`; out of step stays out of step. */
  predicate Completes(t: Trace, u: Trace) {
    && Upset(u) == Upset(t)
    && TurnAfter(u) == if TurnAfter(t) == Waiting then Idle else TurnAfter(t)
  }

  /** Out of step, and there is a reason for it. */
  predicate Broken(u: Trace) {
    Upset(u) && TurnAfter(u) != Idle
  }

  /** Every error of the hooks is a reply that completes a command. */
  ghost predicate Tame(env: Env) {
    && (forall n :: env.auth(n).error.Some? ==> IsFinal(Raw(env.auth(n).error.value)))
    && (forall n :: env.handle(n).Refused? ==> IsFinal(Refusal(env.handle(n).error)))
  }

  ghost predicate Settles(cfg: Config, env: Env, t: Trace, u: Trace) {
    Completes(t, u) || (Broken(u) && (cfg.hasTls || !Tame(env)))
  }

  lemma SaidCompletes(t: Trace, u: Trace, r: Reply)
    requires Between(t, u) && TurnAfter(t) != Idle
    ensures IsFinal(r) ==> Completes(t, Record(u, Said(r)))
    ensures r.Raw? && !IsFinal(r) ==> Broken(Record(u, Said(r)))
  {
    BetweenChangesNothing(t, u);
  }

  lemma HandledCompletes(t: Trace, u: Trace, call: Event, r: Reply)
    requires Between(t, u) && call.Handled? && TurnAfter(t) != Idle
    ensures IsFinal(r) ==> Completes(t, Record(Record(u, call), Said(r)))
    ensures r.Raw? && !IsFinal(r) ==> Broken(Record(Record(u, call), Said(r)))
  {
    BetweenChangesNothing(t, u);
    assert TurnAfter(Record(u, call)) == TurnAfter(u) && Upset(Record(u, call)) == Upset(u);
  }

  lemma RcptCompletes(cfg: Config, env: Env, s: State, args: string)
    requires TurnAfter(s.wire.trace) != Idle
    ensures Completes(s.wire.trace, DoRcpt(cfg, env, s, args).wire.trace)
  {
    match RcptRefusal(cfg, s, args)
    case Some(reply) => SaidCompletes(s.wire.trace, s.wire.trace, reply);
    case None => AddRcptCompletes(cfg, env, s, MatchRcpt(args).value);
  }

  lemma AddRcptCompletes(cfg: Config, env: Env, s: State, address: string)
    requires TurnAfter(s.wire.trace) != Idle
    ensures Completes(s.wire.trace, AddRcpt(cfg, env, s, address).wire.trace)
  {
    var t := s.wire.trace;
    var ok := !cfg.hasRcptHook || env.rcpt(Now(s.wire));
    var u := if cfg.hasRcptHook then Record(t, RcptAsked(s.mail.sender, address, ok)) else t;
    SaidCompletes(t, u, if ok then Reply(250, "2.1.5") else Reply(550, "5.1.0"));
  }

  lemma DeliverCompletes(cfg: Config, env: Env, t: Trace, s: State, body: string)
    requires Between(t, s.wire.trace) && TurnAfter(t) != Idle && s.mail.recipients != []
    ensures Settles(cfg, env, t, Deliver(cfg, env, s, body).wire.trace)
  {
    hide MakeHeaders, IsReplyText;
    var u := Deliver(cfg, env, s, body).wire.trace;
    if cfg.hook.NoHook? {
      SaidCompletes(t, s.wire.trace, Reply(250, "2.0.0"));
    } else {
      HandledCompletes(t, s.wire.trace, u.before.last, u.last.reply);
    }
  }

  lemma DataCompletes(cfg: Config, env: Env, s: State)
    requires TurnAfter(s.wire.trace) != Idle
    ensures var t := DoData(cfg, env, s); t.open ==> Settles(cfg, env, s.wire.trace, t.wire.trace)
  {
    var before := s.wire.trace;
    if !Gated(cfg, s) && s.mail.gotFrom && |s.mail.recipients| > 0 {
      var w := Say(s.wire, 354, "");
      BetweenStep(before, before, Said(Reply(354, "")));
      match ReadBody(w.input.bytes, cfg.maxSize, "") {
        case Complete(body, rest) =>
          BetweenStep(before, w.trace, Body(body));
          DeliverCompletes(cfg, env, before, s.(wire := Note(Unread(w, rest), Body(body))), body);
        case TooLarge(rest) => SaidCompletes(before, w.trace, Reply(552, "5.3.4"));
        case Cut => SaidCompletes(before, w.trace, Reply(451, "4.3.0"));
      }
    }
  }

  lemma AuthCompletes(cfg: Config, env: Env, s: State, args: string)
    requires TurnAfter(s.wire.trace) != Idle
    ensures Settles(cfg, env, s.wire.trace, DoAuth(cfg, env, s, args).wire.trace)
  {
    hide Exchange, Exchanging, Exchanged, EndAuth, AuthRefusal, Settles, IsFinal, FirstWord, Rest;
    if Exchanging(cfg, s, args) {
      var (w, end) := Exchange(env, s.wire, FirstWord(args), Rest(args));
      ExchangeExchanges(env, s.wire, FirstWord(args), Rest(args));
      EndCompletes(cfg, env, s, w, end);
    } else {
      RefusalCompletes(cfg, env, s, AuthRefusal(cfg, s, args));
      AuthRefusalIsFinal(cfg, s, args);
    }
  }

  lemma RefusalCompletes(cfg: Config, env: Env, s: State, r: Reply)
    requires TurnAfter(s.wire.trace) != Idle
    ensures IsFinal(r) ==> Settles(cfg, env, s.wire.trace, Note(s.wire, Said(r)).trace)
  {
    hide IsFinal;
    SaidCompletes(s.wire.trace, s.wire.trace, r);
  }

  lemma AuthRefusalIsFinal(cfg: Config, s: State, args: string)
    ensures IsFinal(AuthRefusal(cfg, s, args))
  {
  }

  lemma CodelessIsFinal(text: string)
    requires text != "" && !IsDigit(text[0]) && '\n' !in text
    ensures IsFinal(Raw(text))
  {
    hide Split, IsMultiline, Value;
  }

  lemma ReadErrorIsFinal(e: Ending)
    ensures IsFinal(Raw(ReadError(e)))
  {
    hide IsFinal;
    CodelessIsFinal(ReadError(e));
  }

  lemma OwnRepliesAreFinal()
    ensures IsFinal(Reply(235, "2.7.0")) && IsFinal(Reply(535, "5.7.8")) && IsFinal(Reply(421, "4.4.2"))
    ensures forall r: Reply :: r.Reply? && r.code == 501 ==> IsFinal(r)
  {
  }

  lemma EndCompletes(cfg: Config, env: Env, s: State, w: Wire, end: AuthEnd)
    requires Exchanged(env, s.wire, w, end) && TurnAfter(s.wire.trace) != Idle
    ensures Settles(cfg, env, s.wire.trace, EndAuth(s, w, end).wire.trace)
  {
    hide IsFinal;
    ReadErrorIsFinal(w.input.ending);
    OwnRepliesAreFinal();
    SaidCompletes(s.wire.trace, w.trace, EndAuth(s, w, end).wire.trace.last.reply);
  }

  lemma StartTlsCompletes(cfg: Config, env: Env, s: State, args: string)
    requires TurnAfter(s.wire.trace) != Idle
    ensures Settles(cfg, env, s.wire.trace, DoStartTls(cfg, env, s, args).wire.trace)
  {
    if args == "" && cfg.hasTls && !s.tls {
      var w := Say(s.wire, 220, "2.0.0");
      SaidCompletes(s.wire.trace, s.wire.trace, Reply(220, "2.0.0"));
      match env.handshake(Now(s.wire) + 1) {
        case Down(n) => DownDoubles(w.trace);
        case Up(_) =>
      }
    }
  }

  /** A failed handshake gets a second reply, to a command already completed. */
  lemma DownDoubles(t: Trace)
    requires TurnAfter(t) != Waiting
    ensures Broken(Record(Record(t, TlsDown), Said(Reply(403, "4.7.0"))))
  {
    assert TurnAfter(Record(t, TlsDown)) == TurnAfter(t);
    assert Upset(Record(t, TlsDown));
  }

  /** Every command is completed by exactly one reply, unless the connection ends, the
      handshake fails or a hook gives an error that is no final reply. */
  lemma DispatchCompletes(cfg: Config, env: Env, s: State, verb: Verb, args: string)
    requires TurnAfter(s.wire.trace) != Idle
    ensures var t := Dispatch(cfg, env, s, verb, args);
            t.open ==> Settles(cfg, env, s.wire.trace, t.wire.trace)
  {
    hide DoData, DoAuth, DoRcpt, DoStartTls, MatchMail, MatchSize, Atoi, Tame, Broken;
    match verb
    case RCPT => RcptCompletes(cfg, env, s, args);
    case DATA => DataCompletes(cfg, env, s);
    case AUTH => AuthCompletes(cfg, env, s, args);
    case STARTTLS => StartTlsCompletes(cfg, env, s, args);
    case _ =>
  }

  /** Between two commands of an open session: in step, unless there is a reason. */
  ghost predicate InStep(cfg: Config, env: Env, s: State) {
    s.open ==>
      && (TurnAfter(s.wire.trace) == Idle <==> !Upset(s.wire.trace))
      && (!cfg.hasTls && Tame(env) ==> !Upset(s.wire.trace))
  }

  lemma IterateInStep(cfg: Config, env: Env, s: State)
    requires InStep(cfg, env, s)
    ensures InStep(cfg, env, Iterate(cfg, env, s))
  {
    hide Tame, Dispatch, IsUpset;
    if s.open && HasLine(s.wire.input.bytes) {
      var line := Trim(FirstLine(s.wire.input.bytes));
      var t := Accept(s, line, AfterLine(s.wire.input.bytes));
      AcceptWaits(s.wire.trace, line);
      DispatchCompletes(cfg, env, t, VerbOf(line), Rest(line));
    }
  }

  lemma AcceptWaits(t: Trace, line: string)
    ensures var u := Record(t, Command(line));
            Upset(u) == Upset(t) && TurnAfter(u) == if TurnAfter(t) == Idle then Waiting else Misaligned
  {
  }

  lemma {:induction false} TurnsInStep(cfg: Config, env: Env, s: State, n: nat)
    requires InStep(cfg, env, s)
    ensures InStep(cfg, env, Turns(cfg, env, s, n))
    decreases n
  {
    hide InStep, Iterate;
    if n > 0 {
      IterateInStep(cfg, env, s);
      TurnsInStep(cfg, env, Iterate(cfg, env, s), n - 1);
    }
  }

  lemma StartInStep(cfg: Config, env: Env, input: Stream, tls: bool, ip: string, host: string)
    ensures InStep(cfg, env, Start(input, tls, ip, host))
  {
    assert TurnAfter(Nothing) == Waiting && !Upset(Nothing);
  }

  /** Over any session, between two commands every command read so far has got exactly
      one completion, in order, if and only if no TLS handshake has failed and no hook
      error was passed on that a client does not take for one final reply: because it
      begins with 334 or 354, continues, or is more than a line. */
  lemma RepliesAlign(cfg: Config, env: Env, input: Stream, tls: bool, ip: string, host: string, n: nat)
    ensures var s := Turns(cfg, env, Start(input, tls, ip, host), n);
            s.open ==> (TurnAfter(s.wire.trace) == Idle <==> !Upset(s.wire.trace))
  {
    StartInStep(cfg, env, input, tls, ip, host);
    TurnsInStep(cfg, env, Start(input, tls, ip, host), n);
  }

  /** Without TLS, and with hooks that give no such error, replies always align. */
  lemma TameRepliesAlign(cfg: Config, env: Env, input: Stream, tls: bool, ip: string, host: string, n: nat)
    requires !cfg.hasTls && Tame(env)
    ensures var s := Turns(cfg, env, Start(input, tls, ip, host), n);
            s.open ==> TurnAfter(s.wire.trace) == Idle
  {
    StartInStep(cfg, env, input, tls, ip, host);
    TurnsInStep(cfg, env, Start(input, tls, ip, host), n);
  }
}
