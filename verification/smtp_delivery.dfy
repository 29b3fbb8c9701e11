/** End to end: what a client sends is what the handler gets. */
module SmtpDelivery {
  import opened Base64
  import opened Seqs
  import opened SmtpData
  import opened SmtpInvariants
  import opened SmtpModel
  import opened SmtpRuns
  import opened SmtpSyntax
  import opened SmtpTrace
  import opened Text

  datatype Letter = Letter(sender: string, to: seq<string>, body: string)

  function MailLine(address: string): string {
    "MAIL " + ("FROM:" + "<" + address + ">")
  }

  function RcptLine(address: string): string {
    "RCPT " + ("TO:" + "<" + address + ">")
  }

  function RcptLines(to: seq<string>): string {
    if to == [] then "" else AsSent(RcptLine(to[0])) + RcptLines(to[1..])
  }

  /** A letter as a client writes it, with its body dot-stuffed. */
  function Sent(m: Letter): string {
    AsSent(MailLine(m.sender)) + (RcptLines(m.to) + (AsSent("DATA") + (Stuff(m.body) + ".\r\n")))
  }

  function AllSent(letters: seq<Letter>): string {
    if letters == [] then "" else Sent(letters[0]) + AllSent(letters[1..])
  }

  predicate IsAddress(a: string) {
    '\n' !in a
  }

  /** A letter the configuration has room for. */
  predicate Fits(cfg: Config, m: Letter) {
    && IsAddress(m.sender)
    && m.to != []
    && (forall a :: a in m.to ==> a != "" && IsAddress(a))
    && (MaxRecipients(cfg) >= 0 ==> |m.to| <= MaxRecipients(cfg))
    && IsBody(m.body) && !Exceeds(|m.body|, cfg.maxSize)
  }

  /** Every hook accepts whatever it is asked. */
  ghost predicate Accepting(env: Env) {
    Admitting(env) && forall n :: env.handle(n).Took?
  }

  /** The recipient hook does. */
  ghost predicate Admitting(env: Env) {
    forall n :: env.rcpt(n)
  }

  /** Ready for mail: open, and past the checks on TLS and login. */
  predicate Ready(cfg: Config, s: State) {
    s.open && !Gated(cfg, s) && !cfg.hook.NoHook?
  }

  /** From `s` to `t` only the transaction moved on to `mail`, with `rest` left to read
      and `calls` made to the handler. */
  ghost predicate Moved(s: State, t: State, mail: Mail, rest: string, calls: seq<Event>) {
    && t == s.(mail := mail, wire := t.wire)
    && t.wire.input == Stream(rest, s.wire.input.ending)
    && Handlings(t.wire.trace) == Handlings(s.wire.trace) + calls
  }

  lemma SentLine(line: string, rest: string)
    requires '\n' !in line
    ensures HasLine(AsSent(line) + rest)
    ensures FirstLine(AsSent(line) + rest) == AsSent(line) && AfterLine(AsSent(line) + rest) == rest
  {
    MakeLine(line);
    LineFirst(AsSent(line), rest);
  }

  /** A line as sent is the next command. */
  lemma LineTurn(cfg: Config, env: Env, s: State, line: string, rest: string)
    requires s.open && '\n' !in line && Trim(AsSent(line)) == line
    requires s.wire.input.bytes == AsSent(line) + rest
    ensures Iterate(cfg, env, s) == Dispatch(cfg, env, Accept(s, line, rest), VerbOf(line), Rest(line))
  {
    hide Dispatch;
    SentLine(line, rest);
  }

  lemma MailMoves(cfg: Config, s: State, args: string, a: string)
    requires !Gated(cfg, s) && MatchMail(args) == Some(MailArgs(a, false, ""))
    ensures Moved(s, DoMail(cfg, s, args), Mail(a, true, []), s.wire.input.bytes, [])
  {
  }

  lemma MailTurn(cfg: Config, env: Env, s: State, a: string, rest: string)
    requires Ready(cfg, s) && IsAddress(a) && s.wire.input.bytes == AsSent(MailLine(a)) + rest
    ensures Moved(s, Iterate(cfg, env, s), Mail(a, true, []), rest, [])
  {
    hide Iterate, DoMail, MatchMail, Trim, VerbOf, Rest, HasLine, FirstLine, AfterLine;
    var t := Accept(s, MailLine(a), rest);
    MailReadsBack(a);
    LineTurn(cfg, env, s, MailLine(a), rest);
    MailMoves(cfg, t, Rest(MailLine(a)), a);
    assert Handlings(t.wire.trace) == Handlings(s.wire.trace);
  }

  lemma RcptTurn(cfg: Config, env: Env, s: State, a: string, rest: string)
    requires Ready(cfg, s) && Admitting(env) && a != "" && IsAddress(a) && s.mail.gotFrom
    requires MaxRecipients(cfg) >= 0 ==> |s.mail.recipients| < MaxRecipients(cfg)
    requires s.wire.input.bytes == AsSent(RcptLine(a)) + rest
    ensures Moved(s, Iterate(cfg, env, s), s.mail.(recipients := s.mail.recipients + [a]), rest, [])
  {
    hide Iterate, AddRcpt, MatchRcpt, Trim, VerbOf, Rest, HasLine, FirstLine, AfterLine;
    var t := Accept(s, RcptLine(a), rest);
    RcptReadsBack(a);
    LineTurn(cfg, env, s, RcptLine(a), rest);
    AddRcptMoves(cfg, env, t, a);
    assert Handlings(t.wire.trace) == Handlings(s.wire.trace);
  }

  lemma AddRcptMoves(cfg: Config, env: Env, s: State, a: string)
    requires Admitting(env)
    ensures Moved(s, AddRcpt(cfg, env, s, a), s.mail.(recipients := s.mail.recipients + [a]), s.wire.input.bytes, [])
  {
    assert env.rcpt(Now(s.wire));
    assert Handlings(Record(s.wire.trace, RcptAsked(s.mail.sender, a, true))) == Handlings(s.wire.trace);
  }

  /** The call for `m`: its sender, its recipients, and a Received header for the first
      of them followed by the body. */
  ghost predicate CallFor(cfg: Config, peer: Peer, m: Letter, call: Event) {
    && m.to != []
    && exists now :: call == Handled(m.sender, m.to, MakeHeaders(cfg, peer, m.to, now) + m.body, true)
  }

  predicate HasSuffix(s: string, t: string) {
    |t| <= |s| && s[|s| - |t|..] == t
  }

  /** Three lines and then `body`. */
  predicate IsThreeLines(data: string, a: string, b: string, c: string, body: string) {
    && HasLine(data) && FirstLine(data) == AsSent(a)
    && var second := AfterLine(data);
       && HasLine(second) && FirstLine(second) == AsSent(b)
       && var third := AfterLine(second);
          HasLine(third) && FirstLine(third) == AsSent(c) && AfterLine(third) == body
  }

  lemma ThreeLines(a: string, b: string, c: string, body: string)
    requires '\n' !in a && '\n' !in b && '\n' !in c
    ensures IsThreeLines(AsSent(a) + (AsSent(b) + (AsSent(c) + body)), a, b, c, body)
  {
    hide HasLine, FirstLine, AfterLine;
    SentLine(a, AsSent(b) + (AsSent(c) + body));
    SentLine(b, AsSent(c) + body);
    SentLine(c, body);
  }

  lemma HeaderLines(a: string, b: string, c: string, body: string)
    ensures a + "\r\n" + b + "\r\n" + c + "\r\n" + body == AsSent(a) + (AsSent(b) + (AsSent(c) + body))
  {
  }

  /** The header in front of a body is a single field, Received, folded over three lines
      (section 2.2.3 of RFC 5322): it names the client and the first recipient, and the
      lines after it are the body. */
  lemma ReceivedIsOneField(cfg: Config, peer: Peer, to: seq<string>, now: string, body: string)
      returns (a: string, b: string, c: string)
    requires to != [] && '\n' !in to[0] && '\n' !in now && '\n' !in cfg.hostname && '\n' !in cfg.appname
    requires '\n' !in peer.name && '\n' !in peer.ip && '\n' !in peer.host
    ensures IsThreeLines(MakeHeaders(cfg, peer, to, now) + body, a, b, c, body)
    ensures HasPrefix(a, "Received: from " + peer.name + " ")
    ensures b != "" && b[0] == ' ' && c != "" && c[0] == ' '
    ensures HasSuffix(c, "for <" + to[0] + ">; " + now)
  {
    hide IsThreeLines;
    a := "Received: from " + peer.name + " (" + peer.host + " [" + peer.ip + "])";
    b := "        by " + cfg.hostname + " (" + cfg.appname + ") with SMTP";
    c := "        for <" + to[0] + ">; " + now;
    ThreeLines(a, b, c, body);
    HeaderLines(a, b, c, body);
    HeaderText(cfg, peer, to, now, a, b, c);
    assert a == "Received: from " + peer.name + " " + ("(" + peer.host + " [" + peer.ip + "])");
    assert c == "        " + ("for <" + to[0] + ">; " + now);
  }

  lemma HeaderText(cfg: Config, peer: Peer, to: seq<string>, now: string, a: string, b: string, c: string)
    requires to != []
    requires a == "Received: from " + peer.name + " (" + peer.host + " [" + peer.ip + "])"
    requires b == "        by " + cfg.hostname + " (" + cfg.appname + ") with SMTP"
    requires c == "        for <" + to[0] + ">; " + now
    ensures MakeHeaders(cfg, peer, to, now) == a + "\r\n" + b + "\r\n" + c + "\r\n"
  {
  }

  lemma DataTurn(cfg: Config, env: Env, s: State, m: Letter, rest: string) returns (call: Event)
    requires Ready(cfg, s) && Accepting(env) && Fits(cfg, m) && s.mail == Mail(m.sender, true, m.to)
    requires s.wire.input.bytes == AsSent("DATA") + (Stuff(m.body) + ".\r\n" + rest)
    ensures CallFor(cfg, s.peer, m, call)
    ensures Moved(s, Iterate(cfg, env, s), NO_MAIL, rest, [call])
  {
    hide Iterate, Deliver, ReadBody, Trim, VerbOf, Rest, HasLine, FirstLine, AfterLine;
    var t := Accept(s, "DATA", Stuff(m.body) + ".\r\n" + rest);
    var w := Say(t.wire, 354, "");
    var u := t.(wire := Note(Unread(w, rest), Body(m.body)));
    DataReadsBack();
    LineTurn(cfg, env, s, "DATA", Stuff(m.body) + ".\r\n" + rest);
    UnstuffsExactly(m.body, ".\r\n", rest, cfg.maxSize);
    assert DoData(cfg, env, t) == Deliver(cfg, env, u, m.body);
    assert Handlings(u.wire.trace) == Handlings(w.trace) == Handlings(t.wire.trace) == Handlings(s.wire.trace);
    call := DeliverMoves(cfg, env, u, m);
  }

  lemma DeliverMoves(cfg: Config, env: Env, s: State, m: Letter) returns (call: Event)
    requires Accepting(env) && !cfg.hook.NoHook? && m.to != [] && s.mail == Mail(m.sender, true, m.to)
    ensures CallFor(cfg, s.peer, m, call)
    ensures Moved(s, Deliver(cfg, env, s, m.body), NO_MAIL, s.wire.input.bytes, [call])
  {
    var now := Now(s.wire);
    call := Handled(m.sender, m.to, MakeHeaders(cfg, s.peer, m.to, env.clock(now)) + m.body, true);
    assert env.handle(now).Took?;
    assert Handlings(Record(s.wire.trace, call)) == Handlings(s.wire.trace) + [call];
  }

  lemma {:induction false} RcptTurns(cfg: Config, env: Env, s: State, to: seq<string>, rest: string)
    requires Ready(cfg, s) && Admitting(env) && s.mail.gotFrom
    requires forall a :: a in to ==> a != "" && IsAddress(a)
    requires MaxRecipients(cfg) >= 0 ==> |s.mail.recipients| + |to| <= MaxRecipients(cfg)
    requires s.wire.input.bytes == RcptLines(to) + rest
    ensures Moved(s, Turns(cfg, env, s, |to|), s.mail.(recipients := s.mail.recipients + to), rest, [])
    decreases |to|
  {
    hide Iterate;
    if to != [] {
      assert to[0] in to;
      Assoc(AsSent(RcptLine(to[0])), RcptLines(to[1..]), rest);
      RcptTurn(cfg, env, s, to[0], RcptLines(to[1..]) + rest);
      var t := Iterate(cfg, env, s);
      assert forall a :: a in to[1..] ==> a in to;
      RcptTurns(cfg, env, t, to[1..], rest);
      assert s.mail.recipients + [to[0]] + to[1..] == s.mail.recipients + to;
    }
  }

  /** The text of a letter from its DATA on. */
  function DataText(m: Letter, rest: string): string {
    AsSent("DATA") + (Stuff(m.body) + ".\r\n" + rest)
  }

  /** A letter up to its DATA. */
  lemma EnvelopeTurns(cfg: Config, env: Env, s: State, m: Letter, rest: string)
    requires Ready(cfg, s) && Admitting(env) && Fits(cfg, m)
    requires s.wire.input.bytes == Sent(m) + rest
    ensures Moved(s, Turns(cfg, env, s, |m.to| + 1), Mail(m.sender, true, m.to), DataText(m, rest), [])
  {
    hide Iterate;
    SentParts(m, rest);
    MailTurn(cfg, env, s, m.sender, RcptLines(m.to) + DataText(m, rest));
    RcptTurns(cfg, env, Iterate(cfg, env, s), m.to, DataText(m, rest));
    assert [] + m.to == m.to;
  }

  /** One letter, in one command for the sender, one for each recipient and one for the
      body. */
  lemma LetterTurns(cfg: Config, env: Env, s: State, m: Letter, rest: string) returns (call: Event)
    requires Ready(cfg, s) && Accepting(env) && Fits(cfg, m)
    requires s.wire.input.bytes == Sent(m) + rest
    ensures CallFor(cfg, s.peer, m, call)
    ensures Moved(s, Turns(cfg, env, s, |m.to| + 2), NO_MAIL, rest, [call])
  {
    hide Iterate;
    EnvelopeTurns(cfg, env, s, m, rest);
    var u := Turns(cfg, env, s, |m.to| + 1);
    call := DataTurn(cfg, env, u, m, rest);
    TurnsAdd(cfg, env, s, |m.to| + 1, 1);
    assert Turns(cfg, env, u, 1) == Iterate(cfg, env, u);
  }

  lemma SentParts(m: Letter, rest: string)
    ensures Sent(m) + rest
         == AsSent(MailLine(m.sender)) + (RcptLines(m.to) + DataText(m, rest))
  {
    var body := Stuff(m.body) + ".\r\n";
    Assoc(AsSent("DATA"), body, rest);
    Assoc(RcptLines(m.to), AsSent("DATA") + body, rest);
    Assoc(AsSent(MailLine(m.sender)), RcptLines(m.to) + (AsSent("DATA") + body), rest);
  }

  function Commands(letters: seq<Letter>): nat {
    if letters == [] then 0 else |letters[0].to| + 2 + Commands(letters[1..])
  }

  /** Exactly one handler call for each letter, in order. */
  ghost predicate CallsFor(cfg: Config, peer: Peer, letters: seq<Letter>, calls: seq<Event>) {
    |calls| == |letters| && forall i :: 0 <= i < |letters| ==> CallFor(cfg, peer, letters[i], calls[i])
  }

  /** A session past its checks takes any list of letters: one handler call for each, in
      order, with that sender, those recipients and that body, and the connection is left
      at exactly what follows them. */
  lemma {:induction false} Delivers(cfg: Config, env: Env, s: State, letters: seq<Letter>, rest: string)
      returns (calls: seq<Event>)
    requires Ready(cfg, s) && Accepting(env) && forall m :: m in letters ==> Fits(cfg, m)
    requires s.wire.input.bytes == AllSent(letters) + rest
    ensures CallsFor(cfg, s.peer, letters, calls)
    ensures Moved(s, Turns(cfg, env, s, Commands(letters)), if letters == [] then s.mail else NO_MAIL, rest, calls)
    decreases |letters|
  {
    hide Iterate, Sent, CallFor, Handlings;
    if letters == [] {
      calls := [];
    } else {
      Assoc(Sent(letters[0]), AllSent(letters[1..]), rest);
      assert letters[0] in letters;
      var call := LetterTurns(cfg, env, s, letters[0], AllSent(letters[1..]) + rest);
      var n := |letters[0].to| + 2;
      var t := Turns(cfg, env, s, n);
      assert forall m :: m in letters[1..] ==> m in letters;
      var more := Delivers(cfg, env, t, letters[1..], rest);
      TurnsAdd(cfg, env, s, n, Commands(letters[1..]));
      calls := [call] + more;
      Assoc(Handlings(s.wire.trace), [call], more);
    }
  }

  // ---- From the login on ----

  function LoginLine(user: Octets, password: Octets): string {
    "AUTH" + " " + ("PLAIN" + " " + Encode([0] + user + [0] + password))
  }

  lemma LoginReadsBack(user: Octets, password: Octets)
    ensures var line := LoginLine(user, password); var args := Rest(line);
            && '\n' !in line && Trim(AsSent(line)) == line && VerbOf(line) == AUTH
            && FirstWord(args) == "PLAIN" && Rest(args) == Encode([0] + user + [0] + password)
            && Rest(args) != ""
  {
    hide Encode, Trim, FirstWord, Rest;
    var data := [0] + user + [0] + password;
    var token := Encode(data);
    TokenIsText(data);
    UpperWords();
    ReadsBack("PLAIN", token);
    ReadsBack("AUTH", "PLAIN" + " " + token);
  }

  lemma UpperWords()
    ensures Upper("PLAIN") == "PLAIN" && Upper("AUTH") == "AUTH"
  {
  }

  lemma TokenIsText(data: Octets)
    requires data != []
    ensures Encode(data) != "" && Trimmed(Encode(data))
  {
    var token := Encode(data);
    LettersAreGraphic(Group(data));
    assert token[0] in token && token[|token| - 1] in token;
  }

  lemma {:induction false} SplitNone(data: Octets, sep: Octet)
    requires sep !in data
    ensures SplitAt(data, sep) == [data]
  {
    if data != [] {
      SplitNone(data[1..], sep);
      assert data == [data[0]] + data[1..];
    }
  }

  lemma {:induction false} SplitFirst(a: Octets, sep: Octet, b: Octets)
    requires sep !in a
    ensures SplitAt(a + ([sep] + b), sep) == [a] + SplitAt(b, sep)
  {
    if a == [] {
      assert a + ([sep] + b) == [sep] + b;
      assert ([sep] + b)[1..] == b;
    } else {
      SplitFirst(a[1..], sep, b);
      ConcatTail(a, [sep] + b);
      assert a == [a[0]] + a[1..];
      assert ([a[1..]] + SplitAt(b, sep))[1..] == SplitAt(b, sep);
    }
  }

  lemma SplitCredentials(user: Octets, password: Octets)
    requires 0 !in user && 0 !in password
    ensures SplitAt([0] + user + [0] + password, 0) == [[], user, password]
  {
    SplitNone(password, 0);
    SplitFirst(user, 0, password);
    SplitFirst([], 0, user + ([0] + password));
    assert [] + ([0] + (user + ([0] + password))) == [0] + user + [0] + password;
    assert [[]] + ([user] + [password]) == [[], user, password];
  }

  /** AUTH PLAIN with its credentials in one line hands exactly those to the hook. */
  lemma LoginAsks(env: Env, w: Wire, user: Octets, password: Octets)
    requires 0 !in user && 0 !in password
    ensures AuthPlain(env, w, Encode([0] + user + [0] + password)) == AskAuth(env, w, "PLAIN", user, password)
  {
    var data := [0] + user + [0] + password;
    DecodeEncode(data);
    TokenIsText(data);
    SplitCredentials(user, password);
    hide Decode, Encode, SplitAt;
  }

  /** The start of a session that logs in and sends letters. */
  function Session(user: Octets, password: Octets, letters: seq<Letter>): string {
    AsSent(LoginLine(user, password)) + AllSent(letters)
  }

  ghost predicate Welcoming(env: Env) {
    Accepting(env) && forall n :: env.auth(n) == AuthAnswer(true, None)
  }

  lemma LoggedIn(cfg: Config, env: Env, s: State, t: State)
    requires Welcoming(env) && !NeedsTls(cfg, s) && !cfg.hook.NoHook?
    requires t.open && t.authenticated && t.tls == s.tls
    ensures Ready(cfg, t) && Accepting(env)
  {
  }

  lemma MovedMeans(s: State, t: State, mail: Mail, rest: string, calls: seq<Event>)
    requires Moved(s, t, mail, rest, calls)
    ensures t.open == s.open && t.authenticated == s.authenticated && t.wire.input.bytes == rest
    ensures Handlings(t.wire.trace) == Handlings(s.wire.trace) + calls
  {
  }

  lemma SessionParts(user: Octets, password: Octets, letters: seq<Letter>, rest: string)
    ensures Session(user, password, letters) + rest
         == AsSent(LoginLine(user, password)) + (AllSent(letters) + rest)
  {
    Assoc(AsSent(LoginLine(user, password)), AllSent(letters), rest);
  }

  /** End to end, from a fresh connection: the credentials reach the hook as they were,
      and after its consent every letter reaches the handler, once and in order, with its
      sender, its recipients and its body, whatever comes next on the connection. */
  lemma SessionDelivers(cfg: Config, env: Env, s: State, user: Octets, password: Octets, letters: seq<Letter>, rest: string)
      returns (calls: seq<Event>, asked: Trace)
    requires Welcoming(env) && 0 !in user && 0 !in password
    requires cfg.hasAuth && !cfg.hook.NoHook? && !NeedsTls(cfg, s) && MechAllowed(cfg, s.tls, "PLAIN")
    requires forall m :: m in letters ==> Fits(cfg, m)
    requires s.wire.input.bytes == Session(user, password, letters) + rest
    requires s.open && !s.authenticated && s.mail == NO_MAIL
    ensures CallsFor(cfg, s.peer, letters, calls)
    ensures asked.Then? && asked.last == AuthAsked("PLAIN", user, password, true)
    ensures var t := Turns(cfg, env, s, 1 + Commands(letters));
            && t.open && t.authenticated && t.wire.input.bytes == rest
            && Extends(s.wire.trace, asked) && Extends(asked, t.wire.trace)
            && Handlings(asked) == Handlings(s.wire.trace)
            && Handlings(t.wire.trace) == Handlings(s.wire.trace) + calls
  {
    hide *;
    SessionParts(user, password, letters, rest);
    LoginTurn(cfg, env, s, user, password, AllSent(letters) + rest);
    var t := Iterate(cfg, env, s);
    LoggedIn(cfg, env, s, t);
    calls := Delivers(cfg, env, t, letters, rest);
    TurnsOne(cfg, env, s, Commands(letters));
    MovedMeans(t, Turns(cfg, env, t, Commands(letters)), if letters == [] then t.mail else NO_MAIL, rest, calls);
    asked := t.wire.trace.before;
    TurnsExtend(cfg, env, t, Commands(letters));
    OneBefore(asked, t.wire.trace, Turns(cfg, env, t, Commands(letters)).wire.trace);
  }

  lemma OneBefore(s: Trace, t: Trace, u: Trace)
    requires t.Then? && t.before == s && Extends(t, u)
    ensures Extends(s, u)
  {
    ExtendsTransitive(s, t, u);
  }

  /** And so it is at the end of the session, whatever comes after. */
  lemma ServedDelivers(cfg: Config, env: Env, input: Stream, tls: bool, ip: string, host: string,
                       user: Octets, password: Octets, letters: seq<Letter>, rest: string)
      returns (calls: seq<Event>)
    requires Welcoming(env) && 0 !in user && 0 !in password
    requires cfg.hasAuth && !cfg.hook.NoHook? && (cfg.hasTls && cfg.tlsRequired ==> tls) && MechAllowed(cfg, tls, "PLAIN")
    requires forall m :: m in letters ==> Fits(cfg, m)
    requires input.bytes == Session(user, password, letters) + rest
    ensures CallsFor(cfg, Peer("", ip, host), letters, calls)
    ensures calls <= Handlings(Run(cfg, env, Start(input, tls, ip, host)).wire.trace)
  {
    hide Session, Run, Turns, CallsFor, Fits, MechAllowed, Welcoming, Commands;
    var s := Start(input, tls, ip, host);
    var asked;
    calls, asked := SessionDelivers(cfg, env, s, user, password, letters, rest);
    RunExtends(cfg, env, s, 1 + Commands(letters));
    assert Handlings(s.wire.trace) == [] && [] + calls == calls;
  }

  lemma TurnsOne(cfg: Config, env: Env, s: State, n: nat)
    ensures Turns(cfg, env, s, 1 + n) == Turns(cfg, env, Iterate(cfg, env, s), n)
  {
    hide Iterate;
  }

  lemma LoginTurn(cfg: Config, env: Env, s: State, user: Octets, password: Octets, rest: string)
    requires Welcoming(env) && 0 !in user && 0 !in password
    requires cfg.hasAuth && !NeedsTls(cfg, s) && MechAllowed(cfg, s.tls, "PLAIN")
    requires s.wire.input.bytes == AsSent(LoginLine(user, password)) + rest
    requires s.open && !s.authenticated && s.mail == NO_MAIL
    ensures var t := Iterate(cfg, env, s);
            && t.open && t.authenticated && t.tls == s.tls && t.peer == s.peer
            && t.wire.input == Stream(rest, s.wire.input.ending)
            && Handlings(t.wire.trace) == Handlings(s.wire.trace)
            && t.wire.trace.Then? && t.wire.trace.before.Then?
            && t.wire.trace.before.last == AuthAsked("PLAIN", user, password, true)
            && Handlings(t.wire.trace.before) == Handlings(s.wire.trace)
            && Extends(s.wire.trace, t.wire.trace.before)
  {
    hide Iterate, Trim, VerbOf, Rest, FirstWord, HasLine, FirstLine, AfterLine, Encode, LoginLine, AuthPlain;
    var line := LoginLine(user, password);
    var t := Accept(s, line, rest);
    LoginReadsBack(user, password);
    LineTurn(cfg, env, s, line, rest);
    LoginAsks(env, t.wire, user, password);
    assert Exchange(env, t.wire, "PLAIN", Rest(Rest(line))) == AskAuth(env, t.wire, "PLAIN", user, password);
    assert Handlings(t.wire.trace) == Handlings(s.wire.trace);
    assert Extends(s.wire.trace, t.wire.trace);
    assert Extends(s.wire.trace, Record(t.wire.trace, AuthAsked("PLAIN", user, password, true)));
    assert Handlings(Record(t.wire.trace, AuthAsked("PLAIN", user, password, true))) == Handlings(t.wire.trace);
  }
}
