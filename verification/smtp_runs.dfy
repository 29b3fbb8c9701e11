/** A session on a finite connection comes to an end. */
module SmtpRuns {
  import opened Base64
  import opened SmtpData
  import opened SmtpExchange
  import opened SmtpModel
  import opened SmtpSyntax
  import opened SmtpTrace
  import opened Text

  /** Nothing more is left to read than before. */
  predicate Shorter(w: Wire, v: Wire) {
    |v.input.bytes| <= |w.input.bytes|
  }

  /** The connection was replaced by a TLS one, or no more is left of it than before. */
  predicate Advances(s: State, t: State) {
    (!s.tls && t.tls) || (t.tls == s.tls && Shorter(s.wire, t.wire))
  }

  lemma DataAdvances(cfg: Config, env: Env, s: State)
    ensures Advances(s, DoData(cfg, env, s))
  {
    ReadsBodies(s.wire.input.bytes, cfg.maxSize, "");
    if !Gated(cfg, s) && s.mail.gotFrom && |s.mail.recipients| > 0 {
      var t := s.(wire := Say(s.wire, 354, ""));
      BodyAdvances(cfg, env, t, ReadBody(t.wire.input.bytes, cfg.maxSize, ""));
    }
  }

  lemma BodyAdvances(cfg: Config, env: Env, s: State, read: BodyRead)
    requires s.mail.recipients != []
    requires read.Complete? || read.TooLarge? ==> |read.rest| <= |s.wire.input.bytes|
    ensures Advances(s, TakeBody(cfg, env, s, read))
  {
  }

  lemma AskLoginAdvances(env: Env, w: Wire, user: Option<Octets>)
    ensures Shorter(w, AskLogin(env, w, user).0)
  {
  }

  lemma ExchangeAdvances(env: Env, w: Wire, mech: string, arg: string)
    ensures Shorter(w, Exchange(env, w, mech, arg).0)
  {
    hide Decode, AskLogin, Trim;
    var (v, line) := ReadMore(Say(w, 334, ""));
    AskLoginAdvances(env, w, Decode(arg));
    if line.Some? {
      AskLoginAdvances(env, v, Decode(line.value));
    }
  }

  lemma AuthAdvances(cfg: Config, env: Env, s: State, args: string)
    ensures Advances(s, DoAuth(cfg, env, s, args))
  {
    ExchangeAdvances(env, s.wire, FirstWord(args), Rest(args));
    hide Exchange, FirstWord, Rest;
  }

  lemma DispatchAdvances(cfg: Config, env: Env, s: State, verb: Verb, args: string)
    ensures Advances(s, Dispatch(cfg, env, s, verb, args))
  {
    hide DoData, DoAuth;
    DataAdvances(cfg, env, s);
    AuthAdvances(cfg, env, s, args);
  }

  /** Every turn of an open session switches to TLS, uses up input or closes. */
  lemma Shrinks(cfg: Config, env: Env, s: State)
    ensures var t := Iterate(cfg, env, s);
            s.open ==> (!s.tls && t.tls) || (t.tls == s.tls && (!t.open || |t.wire.input.bytes| < |s.wire.input.bytes|))
  {
    hide Dispatch;
    if s.open && HasLine(s.wire.input.bytes) {
      var line := Trim(FirstLine(s.wire.input.bytes));
      var t := Accept(s, line, AfterLine(s.wire.input.bytes));
      DispatchAdvances(cfg, env, t, VerbOf(line), Rest(line));
    }
  }

  /** The session at its end. */
  function Run(cfg: Config, env: Env, s: State): (t: State)
    ensures !t.open
    decreases !s.tls, s.open, |s.wire.input.bytes|
  {
    Shrinks(cfg, env, s);
    if !s.open then s else Run(cfg, env, Iterate(cfg, env, s))
  }

  /** The end is reached after some number of turns, so what holds after any number of
      turns holds of it. */
  lemma {:induction false} RunIsTurns(cfg: Config, env: Env, s: State) returns (n: nat)
    ensures Run(cfg, env, s) == Turns(cfg, env, s, n)
    decreases !s.tls, s.open, |s.wire.input.bytes|
  {
    hide Iterate;
    if s.open {
      Shrinks(cfg, env, s);
      n := RunIsTurns(cfg, env, Iterate(cfg, env, s));
      n := n + 1;
    } else {
      n := 0;
    }
  }

  // ---- The trace only grows ----

  lemma {:induction false} BetweenExtends(t: Trace, u: Trace)
    requires Between(t, u)
    ensures Extends(t, u)
  {
    if t != u {
      BetweenExtends(t, u.before);
    }
  }

  lemma FewMore(t: Trace)
    ensures forall e :: Extends(t, Then(t, e))
    ensures forall e, f :: Extends(t, Then(Then(t, e), f))
    ensures forall e, f, g :: Extends(t, Then(Then(Then(t, e), f), g))
  {
    forall e, f, g
      ensures Extends(t, Then(t, e)) && Extends(t, Then(Then(t, e), f)) && Extends(t, Then(Then(Then(t, e), f), g))
    {
      assert Extends(t, Then(t, e));
      assert Extends(t, Then(Then(t, e), f));
    }
  }

  lemma DeliverExtends(cfg: Config, env: Env, s: State, body: string)
    requires s.mail.recipients != []
    ensures Extends(s.wire.trace, Deliver(cfg, env, s, body).wire.trace)
  {
    hide MakeHeaders, IsReplyText;
    FewMore(s.wire.trace);
  }

  lemma DataExtends(cfg: Config, env: Env, s: State)
    ensures Extends(s.wire.trace, DoData(cfg, env, s).wire.trace)
  {
    hide ReadBody, Deliver;
    if !Gated(cfg, s) && s.mail.gotFrom && |s.mail.recipients| > 0 {
      var w := Say(s.wire, 354, "");
      match ReadBody(w.input.bytes, cfg.maxSize, "")
      case Complete(body, rest) =>
        var t := s.(wire := Note(Unread(w, rest), Body(body)));
        DeliverExtends(cfg, env, t, body);
        FewMore(s.wire.trace);
        ExtendsTransitive(s.wire.trace, t.wire.trace, Deliver(cfg, env, t, body).wire.trace);
      case _ => FewMore(s.wire.trace);
    }
  }

  lemma AuthExtends(cfg: Config, env: Env, s: State, args: string)
    ensures Extends(s.wire.trace, DoAuth(cfg, env, s, args).wire.trace)
  {
    hide Exchange, FirstWord, Rest, MechAllowed;
    var (w, end) := Exchange(env, s.wire, FirstWord(args), Rest(args));
    ExchangeExchanges(env, s.wire, FirstWord(args), Rest(args));
    BetweenExtends(s.wire.trace, w.trace);
  }

  lemma RcptExtends(cfg: Config, env: Env, s: State, args: string)
    ensures Extends(s.wire.trace, DoRcpt(cfg, env, s, args).wire.trace)
  {
    hide MatchRcpt;
    FewMore(s.wire.trace);
  }

  lemma StartTlsExtends(cfg: Config, env: Env, s: State, args: string)
    ensures Extends(s.wire.trace, DoStartTls(cfg, env, s, args).wire.trace)
  {
    FewMore(s.wire.trace);
  }

  lemma DispatchExtends(cfg: Config, env: Env, s: State, verb: Verb, args: string)
    ensures Extends(s.wire.trace, Dispatch(cfg, env, s, verb, args).wire.trace)
  {
    hide DoData, DoAuth, DoRcpt, DoStartTls, MailReply;
    match verb
    case DATA => DataExtends(cfg, env, s);
    case AUTH => AuthExtends(cfg, env, s, args);
    case RCPT => RcptExtends(cfg, env, s, args);
    case STARTTLS => StartTlsExtends(cfg, env, s, args);
    case _ =>
  }

  lemma IterateExtends(cfg: Config, env: Env, s: State)
    ensures Extends(s.wire.trace, Iterate(cfg, env, s).wire.trace)
  {
    hide Dispatch;
    if s.open && HasLine(s.wire.input.bytes) {
      var line := Trim(FirstLine(s.wire.input.bytes));
      var t := Accept(s, line, AfterLine(s.wire.input.bytes));
      DispatchExtends(cfg, env, t, VerbOf(line), Rest(line));
      ExtendsTransitive(s.wire.trace, t.wire.trace, Dispatch(cfg, env, t, VerbOf(line), Rest(line)).wire.trace);
    }
  }

  lemma {:induction false} TurnsExtend(cfg: Config, env: Env, s: State, n: nat)
    ensures Extends(s.wire.trace, Turns(cfg, env, s, n).wire.trace)
    decreases n
  {
    hide Iterate;
    if n > 0 {
      IterateExtends(cfg, env, s);
      TurnsExtend(cfg, env, Iterate(cfg, env, s), n - 1);
      ExtendsTransitive(s.wire.trace, Iterate(cfg, env, s).wire.trace, Turns(cfg, env, s, n).wire.trace);
    }
  }

  lemma {:induction false} ExtendsHandlings(t: Trace, u: Trace)
    requires Extends(t, u)
    ensures Handlings(t) <= Handlings(u)
  {
    if t != u {
      ExtendsHandlings(t, u.before);
    }
  }

  lemma {:induction false} RunGoesOn(cfg: Config, env: Env, s: State, n: nat)
    ensures Run(cfg, env, Turns(cfg, env, s, n)) == Run(cfg, env, s)
    decreases n
  {
    if n > 0 {
      assert s.open ==> Run(cfg, env, s) == Run(cfg, env, Iterate(cfg, env, s));
      assert !s.open ==> Iterate(cfg, env, s) == s;
      hide Iterate;
      RunGoesOn(cfg, env, Iterate(cfg, env, s), n - 1);
    }
  }

  /** What has happened after some turns has still happened at the end. */
  lemma RunExtends(cfg: Config, env: Env, s: State, n: nat)
    ensures Extends(Turns(cfg, env, s, n).wire.trace, Run(cfg, env, s).wire.trace)
    ensures Handlings(Turns(cfg, env, s, n).wire.trace) <= Handlings(Run(cfg, env, s).wire.trace)
  {
    hide *;
    var t := Turns(cfg, env, s, n);
    RunGoesOn(cfg, env, s, n);
    var m := RunIsTurns(cfg, env, t);
    TurnsExtend(cfg, env, t, m);
    ExtendsHandlings(t.wire.trace, Run(cfg, env, s).wire.trace);
  }
}
