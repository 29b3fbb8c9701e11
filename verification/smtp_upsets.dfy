/** Sessions in which replies and commands get out of step, and a refusal that reads like
    a success. */
module SmtpUpsets {
  import opened Base64
  import opened Seqs
  import opened SmtpData
  import opened SmtpDelivery
  import opened SmtpInvariants
  import opened SmtpModel
  import opened SmtpPipelining
  import opened SmtpSyntax
  import opened SmtpTrace
  import opened Text

  /** The session is open, and client and server are out of step. */
  predicate OutOfStep(s: State) {
    s.open && TurnAfter(s.wire.trace) != Idle
  }

  /** A reason for it is enough. */
  lemma UpsetIsOutOfStep(cfg: Config, env: Env, input: Stream, tls: bool, ip: string, host: string, n: nat)
    ensures var s := Turns(cfg, env, Start(input, tls, ip, host), n);
            s.open && Upset(s.wire.trace) ==> OutOfStep(s)
  {
    hide Turns, Start, Upset, TurnAfter;
    RepliesAlign(cfg, env, input, tls, ip, host, n);
  }

  lemma OneTurn(cfg: Config, env: Env, s: State)
    ensures Turns(cfg, env, s, 1) == Iterate(cfg, env, s)
  {
    hide Iterate;
  }

  lemma LastIsUpset(t: Trace)
    requires t.Then? && IsUpset(t.last)
    ensures Upset(t)
  {
  }

  // ---- A handshake that fails ----

  lemma StartTlsReadsBack()
    ensures Trim(AsSent("STARTTLS")) == "STARTTLS" && VerbOf("STARTTLS") == STARTTLS && Rest("STARTTLS") == ""
  {
    BareWordReadsBack("STARTTLS");
    assert Upper("STARTTLS") == "STARTTLS";
  }

  /** In every session that begins with STARTTLS and whose handshake fails. */
  lemma HandshakeUpsets(cfg: Config, env: Env, rest: string, ending: Ending, ip: string, host: string)
    requires cfg.hasTls && forall n :: env.handshake(n).Down?
    ensures OutOfStep(Turns(cfg, env, Start(Stream(AsSent("STARTTLS") + rest, ending), false, ip, host), 1))
  {
    hide Iterate, Trim, VerbOf, Rest, HasLine, FirstLine, AfterLine, AsSent;
    var input := Stream(AsSent("STARTTLS") + rest, ending);
    var s := Start(input, false, ip, host);
    StartTlsReadsBack();
    LineTurn(cfg, env, s, "STARTTLS", rest);
    OneTurn(cfg, env, s);
    DownIsUpset(cfg, env, Accept(s, "STARTTLS", rest));
    UpsetIsOutOfStep(cfg, env, input, false, ip, host, 1);
  }

  lemma DownIsUpset(cfg: Config, env: Env, s: State)
    requires cfg.hasTls && !s.tls && forall n :: env.handshake(n).Down?
    ensures var t := DoStartTls(cfg, env, s, ""); t.open == s.open && Upset(t.wire.trace)
  {
    assert env.handshake(Now(s.wire) + 1).Down?;
    var t := DoStartTls(cfg, env, s, "").wire.trace;
    LastIsUpset(t.before);
  }

  // ---- An error of the AuthHandler ----

  /** In every session that begins with an AUTH PLAIN to which the hook gives an error that
      is no final reply. */
  lemma AuthErrorUpsets(cfg: Config, env: Env, user: Octets, password: Octets, rest: string, ending: Ending,
                        tls: bool, ip: string, host: string, error: string)
    requires cfg.hasAuth && (cfg.hasTls && cfg.tlsRequired ==> tls) && MechAllowed(cfg, tls, "PLAIN")
    requires 0 !in user && 0 !in password
    requires !IsFinal(Raw(error)) && forall n :: env.auth(n).error == Some(error)
    ensures OutOfStep(Turns(cfg, env, Start(Stream(AsSent(LoginLine(user, password)) + rest, ending), tls, ip, host), 1))
  {
    hide Iterate, Trim, VerbOf, Rest, FirstWord, HasLine, FirstLine, AfterLine, AsSent, LoginLine, Encode, AuthPlain,
         IsFinal, MechAllowed;
    var line := LoginLine(user, password);
    var input := Stream(AsSent(line) + rest, ending);
    var s := Start(input, tls, ip, host);
    LoginReadsBack(user, password);
    LineTurn(cfg, env, s, line, rest);
    OneTurn(cfg, env, s);
    var t := Accept(s, line, rest);
    LoginAsks(env, t.wire, user, password);
    assert env.auth(Now(t.wire)).error == Some(error);
    assert Exchange(env, t.wire, "PLAIN", Rest(Rest(line))) == AskAuth(env, t.wire, "PLAIN", user, password);
    LastIsUpset(Iterate(cfg, env, s).wire.trace);
    UpsetIsOutOfStep(cfg, env, input, tls, ip, host, 1);
  }

  // ---- An error of the handler ----

  /** In every session that begins with a letter the handler refuses with an error that is
      passed on and is no final reply. */
  lemma HandlerErrorUpsets(cfg: Config, env: Env, m: Letter, rest: string, ending: Ending,
                           tls: bool, ip: string, host: string, error: string)
    requires !(cfg.hasAuth && cfg.authRequired) && (cfg.hasTls && cfg.tlsRequired ==> tls) && !cfg.hook.NoHook?
    requires Fits(cfg, m) && Admitting(env)
    requires !IsFinal(Refusal(error)) && forall n :: env.handle(n) == Refused(error)
    ensures OutOfStep(Turns(cfg, env, Start(Stream(Sent(m) + rest, ending), tls, ip, host), |m.to| + 2))
  {
    hide Iterate, Turns, Sent, Fits, Upset;
    var input := Stream(Sent(m) + rest, ending);
    var s := Start(input, tls, ip, host);
    EnvelopeTurns(cfg, env, s, m, rest);
    var u := Turns(cfg, env, s, |m.to| + 1);
    RefusedTurn(cfg, env, u, m, rest, error);
    TurnsAdd(cfg, env, s, |m.to| + 1, 1);
    OneTurn(cfg, env, u);
    UpsetIsOutOfStep(cfg, env, input, tls, ip, host, |m.to| + 2);
  }

  lemma RefusedTurn(cfg: Config, env: Env, s: State, m: Letter, rest: string, error: string)
    requires Ready(cfg, s) && Fits(cfg, m) && s.mail == Mail(m.sender, true, m.to)
    requires s.wire.input.bytes == DataText(m, rest)
    requires !IsFinal(Refusal(error)) && forall n :: env.handle(n) == Refused(error)
    ensures var t := Iterate(cfg, env, s); t.open && Upset(t.wire.trace)
  {
    hide Iterate, Deliver, ReadBody, Trim, VerbOf, Rest, HasLine, FirstLine, AfterLine, IsFinal;
    var t := Accept(s, "DATA", Stuff(m.body) + ".\r\n" + rest);
    var w := Say(t.wire, 354, "");
    var u := t.(wire := Note(Unread(w, rest), Body(m.body)));
    DataReadsBack();
    LineTurn(cfg, env, s, "DATA", Stuff(m.body) + ".\r\n" + rest);
    UnstuffsExactly(m.body, ".\r\n", rest, cfg.maxSize);
    assert DoData(cfg, env, t) == Deliver(cfg, env, u, m.body);
    RefusedDelivery(cfg, env, u, m.body, error);
    LastIsUpset(Iterate(cfg, env, s).wire.trace);
  }

  lemma RefusedDelivery(cfg: Config, env: Env, s: State, body: string, error: string)
    requires s.mail.recipients != [] && !cfg.hook.NoHook? && env.handle(Now(s.wire)) == Refused(error)
    ensures var t := Deliver(cfg, env, s, body);
            && t.open == s.open && t.mail == s.mail
            && t.wire.trace.Then? && t.wire.trace.last == Said(Refusal(error))
    ensures !IsFinal(Refusal(error)) ==> Refusal(error).Raw?
  {
    hide MakeHeaders, IsReplyText;
  }

  /** A handler error that reads "354 go on" is of that kind. */
  lemma GoOnIsNotFinal()
    ensures Refusal("354 go on") == Raw("354 go on") && !IsFinal(Refusal("354 go on"))
  {
    assert "354 go on"[..3] == "354";
    ThreeDigits("354");
  }

  lemma SplitTwo(a: string, b: string)
    requires '\n' !in a && '\n' !in b
    ensures Split(a + ['\n'] + b, '\n') == [a, b]
  {
    FindAt(a, '\n', b);
    FindNone(b, '\n');
    DropAppended(a + ['\n'], b);
    assert (a + ['\n'] + b)[..|a|] == a;
  }

  lemma CodeLine(code: string, c: char, text: string)
    requires |code| == 3 && StartsWithCode(code)
    ensures var line := code + [c] + text;
            StartsWithCode(line) && line[..3] == code && (Continues(line) <==> c == '-')
  {
  }

  /** An error of two lines with one code is one whole reply. */
  lemma TwoLinesAreWhole(code: string, a: string, b: string)
    requires |code| == 3 && StartsWithCode(code)
    requires '\n' !in code + ['-'] + a && '\n' !in code + [' '] + b
    ensures IsWhole(Raw(code + ['-'] + a + ['\n'] + (code + [' '] + b)))
  {
    hide StartsWithCode, Continues;
    var first, second := code + ['-'] + a, code + [' '] + b;
    SplitTwo(first, second);
    CodeLine(code, '-', a);
    CodeLine(code, ' ', b);
    assert IsMultiline([first, second]);
    assert (first + ['\n'] + second)[|first|] == '\n';
  }

  // ---- A refusal that reads like a success ----

  /** A message the handler refuses leaves the transaction open, and yet is answered with
      code 250 if and only if the error has the form of a reply and begins with 250. */
  lemma RefusedAs250(cfg: Config, env: Env, s: State, body: string, error: string)
    requires s.mail.recipients != [] && !cfg.hook.NoHook? && env.handle(Now(s.wire)) == Refused(error)
    ensures var t := Deliver(cfg, env, s, body);
            && t.mail == s.mail && t.wire.trace.Then? && t.wire.trace.last.Said?
            && (Code(t.wire.trace.last.reply) == 250 <==> IsReplyText(error) && error[..3] == "250")
  {
    hide Deliver, MakeHeaders;
    RefusedDelivery(cfg, env, s, body, error);
    if IsReplyText(error) {
      var code := error[..3];
      assert code[0] == error[0] && code[1] == error[1] && code[2] == error[2];
      ThreeDigits(code);
      if Code(Raw(error)) == 250 {
        assert DigitValue(code[0]) == 2 && DigitValue(code[1]) == 5 && DigitValue(code[2]) == 0;
        assert code == "250";
      }
    }
  }
}
