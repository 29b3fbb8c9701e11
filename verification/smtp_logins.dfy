/** Whatever way a client logs in, the hook is asked about the credentials it sent, and the
    answer is what the client gets. */
module SmtpLogins {
  import opened Base64
  import opened SmtpDelivery
  import opened SmtpExchange
  import opened SmtpModel
  import opened SmtpRuns
  import opened SmtpSyntax
  import opened SmtpTrace
  import opened Text

  /** Octets as a line of an AUTH exchange. */
  function TokenLine(data: Octets): string {
    AsSent(Encode(data))
  }

  lemma TokenReads(w: Wire, data: Octets, rest: string)
    requires w.input.bytes == TokenLine(data) + rest
    ensures ReadMore(w) == (Note(Unread(w, rest), Continued(Encode(data))), Some(Encode(data)))
  {
    hide Encode, HasLine, FirstLine, AfterLine, Trim;
    SentLine(Encode(data), rest);
    TokenTrims(data);
  }

  lemma TokenTrims(data: Octets)
    ensures Trim(TokenLine(data)) == Encode(data)
  {
    if data == [] {
      assert Encode(data) == "";
      assert TokenLine(data) == "\r\n";
      assert "\r\n"[1..] == "\n" && "\n"[1..] == "";
      assert TrimLeft("\n") == "" && TrimLeft("\r\n") == "";
    } else {
      hide Encode, Trim;
      TokenIsText(data);
      TrimLineEnd(Encode(data));
    }
  }

  // ---- The exchanges ----

  /** AUTH LOGIN once the user is known: the password follows. */
  lemma PasswordAsks(env: Env, w: Wire, user: Octets, password: Octets, rest: string) returns (v: Wire)
    requires w.input.bytes == TokenLine(password) + rest
    ensures AskLogin(env, w, Some(user)) == AskAuth(env, v, "LOGIN", user, password)
    ensures v.input == Stream(rest, w.input.ending) && Between(w.trace, v.trace)
  {
    hide Encode, Decode, HasLine, FirstLine, AfterLine, Trim;
    var said := Say(w, 334, "");
    TokenReads(said, password, rest);
    DecodeEncode(password);
    v := Note(Unread(said, rest), Continued(Encode(password)));
    BetweenStep(w.trace, w.trace, Said(Reply(334, "")));
    BetweenStep(w.trace, said.trace, Continued(Encode(password)));
  }

  lemma UserAndPasswordAsk(env: Env, w: Wire, user: Octets, password: Octets, rest: string) returns (v: Wire)
    requires w.input.bytes == TokenLine(user) + (TokenLine(password) + rest)
    ensures AuthLogin(env, w, "") == AskAuth(env, v, "LOGIN", user, password)
    ensures v.input == Stream(rest, w.input.ending) && Between(w.trace, v.trace)
  {
    hide Encode, Decode, HasLine, FirstLine, AfterLine, Trim, AskLogin;
    var said := Say(w, 334, "");
    TokenReads(said, user, TokenLine(password) + rest);
    DecodeEncode(user);
    var u := Note(Unread(said, TokenLine(password) + rest), Continued(Encode(user)));
    BetweenStep(w.trace, w.trace, Said(Reply(334, "")));
    BetweenStep(w.trace, said.trace, Continued(Encode(user)));
    v := PasswordAsks(env, u, user, password, rest);
    BetweenTransitive(w.trace, u.trace, v.trace);
  }

  lemma {:induction false} BetweenTransitive(t: Trace, u: Trace, v: Trace)
    requires Between(t, u) && Between(u, v)
    ensures Between(t, v)
  {
    if u != v {
      BetweenTransitive(t, u, v.before);
    }
  }

  lemma NulsAsk(env: Env, w: Wire, user: Octets, password: Octets, rest: string) returns (v: Wire)
    requires 0 !in user && 0 !in password
    requires w.input.bytes == TokenLine([0] + user + [0] + password) + rest
    ensures AuthPlain(env, w, "") == AskAuth(env, v, "PLAIN", user, password)
    ensures v.input == Stream(rest, w.input.ending) && Between(w.trace, v.trace)
  {
    hide Encode, Decode, HasLine, FirstLine, AfterLine, Trim, SplitAt;
    var data := [0] + user + [0] + password;
    var said := Say(w, 334, "");
    TokenReads(said, data, rest);
    DecodeEncode(data);
    SplitCredentials(user, password);
    v := Note(Unread(said, rest), Continued(Encode(data)));
    BetweenStep(w.trace, w.trace, Said(Reply(334, "")));
    BetweenStep(w.trace, said.trace, Continued(Encode(data)));
  }

  lemma SplitWords(a: Octets, b: Octets)
    requires 32 !in a && 32 !in b
    ensures SplitAt(a + ([32] + b), 32) == [a, b]
  {
    SplitNone(b, 32);
    SplitFirst(a, 32, b);
  }

  /** No base64 text is the single star that cancels. */
  lemma NotAStar(data: Octets)
    ensures Encode(data) != "*"
  {
    hide Encode;
    assert |Encode(data)| == (|data| + 2) / 3 * 4;
  }

  lemma DigestAsks(env: Env, w: Wire, user: Octets, digest: Octets, rest: string) returns (v: Wire)
    requires 32 !in user && 32 !in digest
    requires w.input.bytes == TokenLine(user + ([32] + digest)) + rest
    ensures AuthCramMd5(env, w) == AskAuth(env, v, "CRAM-MD5", user, digest)
    ensures v.input == Stream(rest, w.input.ending) && Between(w.trace, v.trace)
  {
    hide Encode, Decode, HasLine, FirstLine, AfterLine, Trim, SplitAt;
    var data := user + ([32] + digest);
    var said := Say(w, 334, "");
    TokenReads(said, data, rest);
    DecodeEncode(data);
    NotAStar(data);
    SplitWords(user, digest);
    v := Note(Unread(said, rest), Continued(Encode(data)));
    BetweenStep(w.trace, w.trace, Said(Reply(334, "")));
    BetweenStep(w.trace, said.trace, Continued(Encode(data)));
  }

  // ---- Whole sessions ----

  /** AUTH with this mechanism is possible. */
  predicate MayLogIn(cfg: Config, s: State, mech: string) {
    && s.open && cfg.hasAuth && !NeedsTls(cfg, s) && !s.authenticated && s.mail == NO_MAIL
    && MechAllowed(cfg, s.tls, mech)
  }

  /** From `s` to `t` the hook was asked about exactly this, its answer is the outcome, and
      `rest` is left to read. */
  ghost predicate HookAsked(env: Env, s: State, t: State, mech: string, user: Octets, password: Octets, rest: string) {
    && t.wire.trace.Then? && t.wire.trace.last.Said?
    && t.wire.trace.before.Then? && Extends(s.wire.trace, t.wire.trace.before.before)
    && var answer := env.auth(Length(t.wire.trace.before.before));
       && t.wire.trace.before.last == AuthAsked(mech, user, password, answer.ok)
       && t == s.(authenticated := answer.ok, wire := t.wire)
       && t.wire.input == Stream(rest, s.wire.input.ending)
       && (answer.error.None? ==> Code(t.wire.trace.last.reply) == if answer.ok then 235 else 535)
  }

  lemma Asks(cfg: Config, env: Env, s: State, line: string, after: string, mech: string, arg: string, v: Wire,
             user: Octets, password: Octets, rest: string)
    requires MayLogIn(cfg, s, mech) && '\n' !in line && Trim(AsSent(line)) == line && mech != ""
    requires s.wire.input.bytes == AsSent(line) + after
    requires VerbOf(line) == AUTH && FirstWord(Rest(line)) == mech && Rest(Rest(line)) == arg
    requires Exchange(env, Accept(s, line, after).wire, mech, arg) == AskAuth(env, v, mech, user, password)
    requires Between(Accept(s, line, after).wire.trace, v.trace) && v.input == Stream(rest, s.wire.input.ending)
    ensures HookAsked(env, s, Iterate(cfg, env, s), mech, user, password, rest)
  {
    hide Iterate, Exchange, Trim, VerbOf, Rest, FirstWord, HasLine, FirstLine, AfterLine, MechAllowed;
    LineTurn(cfg, env, s, line, after);
    var t := Accept(s, line, after);
    BetweenExtends(t.wire.trace, v.trace);
    assert Extends(s.wire.trace, t.wire.trace);
    ExtendsTransitive(s.wire.trace, t.wire.trace, v.trace);
  }

  /** `AUTH MECH`, alone on its line. */
  lemma MechReadsBack(mech: string)
    requires mech == "LOGIN" || mech == "PLAIN" || mech == "CRAM-MD5"
    ensures var line := "AUTH" + " " + mech;
            && '\n' !in line && Trim(AsSent(line)) == line && VerbOf(line) == AUTH
            && FirstWord(Rest(line)) == mech && Rest(Rest(line)) == ""
  {
    hide Trim, FirstWord, Rest;
    assert Upper("LOGIN") == "LOGIN" && Upper("CRAM-MD5") == "CRAM-MD5";
    UpperWords();
    ReadsBack("AUTH", mech);
    BareWordReadsBack(mech);
  }

  /** A session that reads AUTH LOGIN and two lines, the user and the password in base64. */
  lemma LoginByTwoLines(cfg: Config, env: Env, s: State, user: Octets, password: Octets, rest: string)
    requires MayLogIn(cfg, s, "LOGIN")
    requires s.wire.input.bytes == AsSent("AUTH LOGIN") + (TokenLine(user) + (TokenLine(password) + rest))
    ensures HookAsked(env, s, Iterate(cfg, env, s), "LOGIN", user, password, rest)
  {
    hide Iterate, HookAsked, MayLogIn, AuthLogin, Trim, VerbOf, FirstWord, Rest, TokenLine;
    var after := TokenLine(user) + (TokenLine(password) + rest);
    assert "AUTH" + " " + "LOGIN" == "AUTH LOGIN";
    MechReadsBack("LOGIN");
    var v := UserAndPasswordAsk(env, Accept(s, "AUTH LOGIN", after).wire, user, password, rest);
    Asks(cfg, env, s, "AUTH LOGIN", after, "LOGIN", "", v, user, password, rest);
  }

  /** A session that reads AUTH LOGIN with the user in base64, and the password in a line. */
  lemma LoginByOneLine(cfg: Config, env: Env, s: State, user: Octets, password: Octets, rest: string)
    requires MayLogIn(cfg, s, "LOGIN") && user != []
    requires s.wire.input.bytes == AsSent("AUTH" + " " + ("LOGIN" + " " + Encode(user))) + (TokenLine(password) + rest)
    ensures HookAsked(env, s, Iterate(cfg, env, s), "LOGIN", user, password, rest)
  {
    hide Iterate, HookAsked, MayLogIn, AskLogin, Trim, VerbOf, FirstWord, Rest, TokenLine, Encode, Decode;
    var token, after := Encode(user), TokenLine(password) + rest;
    var line := "AUTH" + " " + ("LOGIN" + " " + token);
    TokenIsText(user);
    LoginWordReadsBack(token);
    DecodeEncode(user);
    var v := PasswordAsks(env, Accept(s, line, after).wire, user, password, rest);
    Asks(cfg, env, s, line, after, "LOGIN", token, v, user, password, rest);
  }

  lemma LoginWordReadsBack(token: string)
    requires token != "" && Trimmed(token) && '\n' !in token
    ensures var line := "AUTH" + " " + ("LOGIN" + " " + token);
            && '\n' !in line && Trim(AsSent(line)) == line && VerbOf(line) == AUTH
            && FirstWord(Rest(line)) == "LOGIN" && Rest(Rest(line)) == token
  {
    hide Trim, FirstWord, Rest;
    assert Upper("LOGIN") == "LOGIN";
    UpperWords();
    ReadsBack("LOGIN", token);
    ReadsBack("AUTH", "LOGIN" + " " + token);
  }

  /** A session that reads AUTH PLAIN and a line with the credentials. */
  lemma PlainByOneLine(cfg: Config, env: Env, s: State, user: Octets, password: Octets, rest: string)
    requires MayLogIn(cfg, s, "PLAIN") && 0 !in user && 0 !in password
    requires s.wire.input.bytes == AsSent("AUTH PLAIN") + (TokenLine([0] + user + [0] + password) + rest)
    ensures HookAsked(env, s, Iterate(cfg, env, s), "PLAIN", user, password, rest)
  {
    hide Iterate, HookAsked, MayLogIn, AuthPlain, Trim, VerbOf, FirstWord, Rest, TokenLine;
    var after := TokenLine([0] + user + [0] + password) + rest;
    assert "AUTH" + " " + "PLAIN" == "AUTH PLAIN";
    MechReadsBack("PLAIN");
    var v := NulsAsk(env, Accept(s, "AUTH PLAIN", after).wire, user, password, rest);
    Asks(cfg, env, s, "AUTH PLAIN", after, "PLAIN", "", v, user, password, rest);
  }

  /** A session that reads AUTH PLAIN with the credentials in the same line. */
  lemma PlainAtOnce(cfg: Config, env: Env, s: State, user: Octets, password: Octets, rest: string)
    requires MayLogIn(cfg, s, "PLAIN") && 0 !in user && 0 !in password
    requires s.wire.input.bytes == AsSent(LoginLine(user, password)) + rest
    ensures HookAsked(env, s, Iterate(cfg, env, s), "PLAIN", user, password, rest)
  {
    hide Iterate, HookAsked, MayLogIn, AuthPlain, Trim, VerbOf, FirstWord, Rest, Encode, LoginLine;
    var line := LoginLine(user, password);
    LoginReadsBack(user, password);
    var t := Accept(s, line, rest);
    SmtpDelivery.LoginAsks(env, t.wire, user, password);
    Asks(cfg, env, s, line, rest, "PLAIN", Rest(Rest(line)), t.wire, user, password, rest);
  }

  /** A session that reads AUTH CRAM-MD5 and a line with user and digest. */
  lemma CramMd5ByOneLine(cfg: Config, env: Env, s: State, user: Octets, digest: Octets, rest: string)
    requires MayLogIn(cfg, s, "CRAM-MD5") && 32 !in user && 32 !in digest
    requires s.wire.input.bytes == AsSent("AUTH CRAM-MD5") + (TokenLine(user + ([32] + digest)) + rest)
    ensures HookAsked(env, s, Iterate(cfg, env, s), "CRAM-MD5", user, digest, rest)
  {
    hide Iterate, HookAsked, MayLogIn, AuthCramMd5, Trim, VerbOf, FirstWord, Rest, TokenLine;
    var after := TokenLine(user + ([32] + digest)) + rest;
    assert "AUTH" + " " + "CRAM-MD5" == "AUTH CRAM-MD5";
    MechReadsBack("CRAM-MD5");
    var v := DigestAsks(env, Accept(s, "AUTH CRAM-MD5", after).wire, user, digest, rest);
    Asks(cfg, env, s, "AUTH CRAM-MD5", after, "CRAM-MD5", "", v, user, digest, rest);
  }

  // ---- The answer ----

  /** Whatever the client sends, an AUTH is answered 235 if and only if the session is
      authenticated after it, as long as the hook gives no error. */
  lemma AuthAnswered(cfg: Config, env: Env, s: State, args: string)
    requires !s.authenticated && forall n :: env.auth(n).error.None?
    ensures var t := DoAuth(cfg, env, s, args);
            && t.wire.trace.Then? && t.wire.trace.last.Said?
            && (Code(t.wire.trace.last.reply) == 235 <==> t.authenticated)
  {
    hide Exchange, Exchanging, EndAuth, Exchanged, AuthRefusal, Code, FirstWord, Rest;
    if Exchanging(cfg, s, args) {
      var (w, end) := Exchange(env, s.wire, FirstWord(args), Rest(args));
      ExchangeExchanges(env, s.wire, FirstWord(args), Rest(args));
      EndAnswered(env, s, w, end);
    } else {
      RefusalIsNo235(cfg, s, args);
    }
  }

  lemma RefusalIsNo235(cfg: Config, s: State, args: string)
    ensures Code(AuthRefusal(cfg, s, args)) != 235
  {
    hide MechAllowed, FirstWord;
  }

  lemma EndAnswered(env: Env, s: State, w: Wire, end: AuthEnd)
    requires Exchanged(env, s.wire, w, end) && forall n :: env.auth(n).error.None?
    ensures var t := EndAuth(s, w, end);
            && t.wire.trace.Then? && t.wire.trace.last.Said?
            && (Code(t.wire.trace.last.reply) == 235 <==> t.authenticated)
  {
    hide Between, Logins;
    ReadErrorHasNoCode(w.input.ending);
  }

  lemma ReadErrorHasNoCode(e: Ending)
    ensures Code(Raw(ReadError(e))) == 0
  {
  }
}
