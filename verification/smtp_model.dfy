/** One SMTP session of internal/mhalesmtpd/smtpd.go as a function of its input and of
    the answers its environment gives. The class in smtp_engine.dfy is proved equal
    to it; the properties are proved about it. */
module SmtpModel {
  import opened Base64
  import opened SmtpData
  import opened SmtpSyntax
  import opened SmtpTrace
  import opened Text

  /** Which hook takes the messages. Both are modelled by Env.handle; only MsgIDHandler
      returns an id for the reply. */
  datatype Hook = NoHook | Handler | MsgIDHandler

  datatype Config = Config(
    hostname: string,
    appname: string,
    hasTls: bool,
    tlsRequired: bool,
    hasAuth: bool,
    authRequired: bool,
    authMechs: map<string, bool>,
    maxSize: int,
    maxRecipients: int,
    hook: Hook,
    hasRcptHook: bool)

  /** What reading beyond the last byte meets. */
  datatype Ending = Eof | Timeout | Broken

  datatype Stream = Stream(bytes: string, ending: Ending)

  datatype AuthAnswer = AuthAnswer(ok: bool, error: Option<string>)
  datatype HandlerAnswer = Took(id: string) | Refused(error: string)
  datatype TlsAnswer = Up(stream: Stream) | Down(skipped: nat)

  /** The environment: every answer is a function of the number of events so far, so
      "for every Env" means for every behaviour of the hooks, peers and clocks. */
  datatype Env = Env(
    auth: nat -> AuthAnswer,
    rcpt: nat -> bool,
    handle: nat -> HandlerAnswer,
    handshake: nat -> TlsAnswer,
    buffered: nat -> nat,                // bytes dropped after an oversize message
    xclient: nat -> (string, string),    // remote address and host of a trusted XCLIENT
    clock: nat -> string)                // the date in the Received header

  /** The connection: what is left to read, and what was read, written and asked. */
  datatype Wire = Wire(input: Stream, trace: Trace)

  /** Who is at the other end, for the Received header. */
  datatype Peer = Peer(name: string, ip: string, host: string)

  datatype State = State(open: bool, tls: bool, authenticated: bool, peer: Peer, mail: Mail, wire: Wire)

  function Note(w: Wire, e: Event): Wire {
    Wire(w.input, Record(w.trace, e))
  }

  function Say(w: Wire, code: nat, status: string): Wire {
    Note(w, Said(Reply(code, status)))
  }

  function Unread(w: Wire, rest: string): Wire {
    Wire(Stream(rest, w.input.ending), w.trace)
  }

  function Skip(w: Wire, n: nat): Wire {
    var bytes := w.input.bytes;
    Unread(w, bytes[if n < |bytes| then n else |bytes|..])
  }

  /** The index an environment's answers depend on. */
  function Now(w: Wire): nat {
    Length(w.trace)
  }

  function Answer(s: State, code: nat, status: string): State {
    s.(wire := Say(s.wire, code, status))
  }

  /** A new connection, greeted. */
  function Start(input: Stream, tls: bool, ip: string, host: string): State {
    State(true, tls, false, Peer("", ip, host), NO_MAIL, Say(Wire(input, Nothing), 220, ""))
  }

  // ---- The checks in front of MAIL, RCPT, DATA, RSET and AUTH ----

  predicate NeedsTls(cfg: Config, s: State) {
    cfg.hasTls && cfg.tlsRequired && !s.tls
  }

  predicate NeedsLogin(cfg: Config, s: State) {
    cfg.hasAuth && cfg.authRequired && !s.authenticated
  }

  predicate Gated(cfg: Config, s: State) {
    NeedsTls(cfg, s) || NeedsLogin(cfg, s)
  }

  /** Zero stands for the default of 100; a negative limit is never reached. */
  function MaxRecipients(cfg: Config): int {
    if cfg.maxRecipients == 0 then 100 else cfg.maxRecipients
  }

  // ---- MAIL, RCPT and DATA ----

  /** The reply to a MAIL that passed the checks: 250, or why its parameters are refused. */
  function MailReply(cfg: Config, args: string): Reply {
    match MatchMail(args)
    case None => Reply(501, "5.5.4")
    case Some(m) =>
      if !m.hasParams then Reply(250, "2.1.0")
      else
        match MatchSize(m.params)
        case None => Reply(501, "5.5.4")
        case Some(digits) =>
          match Atoi(digits)
          case None => Reply(501, "5.5.4")
          case Some(size) =>
            if cfg.maxSize > 0 && size > cfg.maxSize then Reply(552, "5.3.4") else Reply(250, "2.1.0")
  }

  /** A refused MAIL keeps the earlier sender but drops the recipients all the same. */
  function AfterMail(m: Mail, args: string, reply: Reply): Mail {
    match MatchMail(args)
    case Some(found) => if reply == Reply(250, "2.1.0") then Mail(found.address, true, []) else m.(recipients := [])
    case None => m.(recipients := [])
  }

  function DoMail(cfg: Config, s: State, args: string): State {
    if Gated(cfg, s) then Answer(s, 530, "5.7.0")
    else
      var reply := MailReply(cfg, args);
      s.(mail := AfterMail(s.mail, args, reply), wire := Note(s.wire, Said(reply)))
  }

  /** Why an RCPT is turned down before any hook is asked. */
  function RcptRefusal(cfg: Config, s: State, args: string): (r: Option<Reply>)
    ensures r.None? ==> MatchRcpt(args).Some?
  {
    if Gated(cfg, s) then Some(Reply(530, "5.7.0"))
    else if !s.mail.gotFrom then Some(Reply(503, "5.5.1"))
    else if MatchRcpt(args).None? then Some(Reply(501, "5.5.4"))
    else if |s.mail.recipients| == MaxRecipients(cfg) then Some(Reply(452, "4.5.3"))
    else None
  }

  function DoRcpt(cfg: Config, env: Env, s: State, args: string): State {
    match RcptRefusal(cfg, s, args)
    case Some(reply) => s.(wire := Note(s.wire, Said(reply)))
    case None => AddRcpt(cfg, env, s, MatchRcpt(args).value)
  }

  function AddRcpt(cfg: Config, env: Env, s: State, address: string): State {
    var ok := !cfg.hasRcptHook || env.rcpt(Now(s.wire));
    var w := if cfg.hasRcptHook then Note(s.wire, RcptAsked(s.mail.sender, address, ok)) else s.wire;
    if ok then
      s.(mail := s.mail.(recipients := s.mail.recipients + [address]), wire := Say(w, 250, "2.1.5"))
    else
      s.(wire := Say(w, 550, "5.1.0"))
  }

  /** The Received header. */
  function MakeHeaders(cfg: Config, peer: Peer, to: seq<string>, now: string): string
    requires to != []
  {
    "Received: from " + peer.name + " (" + peer.host + " [" + peer.ip + "])\r\n"
    + "        by " + cfg.hostname + " (" + cfg.appname + ") with SMTP\r\n"
    + "        for <" + to[0] + ">; " + now + "\r\n"
  }

  function DoData(cfg: Config, env: Env, s: State): State {
    if Gated(cfg, s) then Answer(s, 530, "5.7.0")
    else if !s.mail.gotFrom || |s.mail.recipients| == 0 then Answer(s, 503, "5.5.1")
    else
      var w := Say(s.wire, 354, "");
      TakeBody(cfg, env, s.(wire := w), ReadBody(w.input.bytes, cfg.maxSize, ""))
  }

  function TakeBody(cfg: Config, env: Env, s: State, read: BodyRead): State
    requires s.mail.recipients != []
  {
    match read
    case Cut =>
      var w := Unread(s.wire, "");
      (match w.input.ending
       case Timeout => s.(open := false, wire := Say(w, 421, "4.4.2"))
       case Broken => s.(open := false, wire := w)
       case Eof => s.(wire := Say(w, 451, "4.3.0")))
    case TooLarge(rest) =>
      s.(wire := Say(Skip(Unread(s.wire, rest), env.buffered(Now(s.wire))), 552, "5.3.4"))
    case Complete(body, rest) =>
      Deliver(cfg, env, s.(wire := Note(Unread(s.wire, rest), Body(body))), body)
  }

  /** Hands header and body to the hook. A message it refuses leaves the transaction as
      it was. */
  function Deliver(cfg: Config, env: Env, s: State, body: string): State
    requires s.mail.recipients != []
  {
    var now := Now(s.wire);
    var data := MakeHeaders(cfg, s.peer, s.mail.recipients, env.clock(now)) + body;
    if cfg.hook.NoHook? then s.(mail := NO_MAIL, wire := Say(s.wire, 250, "2.0.0"))
    else
      match env.handle(now)
      case Took(id) =>
        var w := Note(s.wire, Handled(s.mail.sender, s.mail.recipients, data, true));
        s.(mail := NO_MAIL, wire := Say(w, 250, "2.0.0"))
      case Refused(error) =>
        var w := Note(s.wire, Handled(s.mail.sender, s.mail.recipients, data, false));
        s.(wire := Note(w, Said(Refusal(error))))
  }

  function Refusal(error: string): Reply {
    if IsReplyText(error) then Raw(error) else Reply(451, "4.3.5")
  }

  // ---- AUTH ----

  /** How an exchange ends: with an answer of the AuthHandler, with a reply of its own,
      or because no line could be read. */
  datatype AuthEnd = Verdict(ok: bool) | Failed(ok: bool, reply: Reply) | NoLine

  /** A further line, trimmed, or None at the end of the input. */
  function ReadMore(w: Wire): (Wire, Option<string>) {
    if !HasLine(w.input.bytes) then (Unread(w, ""), None)
    else
      var line := Trim(FirstLine(w.input.bytes));
      (Note(Unread(w, AfterLine(w.input.bytes)), Continued(line)), Some(line))
  }

  /** Splits on an octet, as bytes.Split does. */
  function SplitAt(data: Octets, sep: Octet): (parts: seq<Octets>)
    ensures |parts| >= 1
  {
    if data == [] then [[]]
    else
      var parts := SplitAt(data[1..], sep);
      if data[0] == sep then [[]] + parts else [[data[0]] + parts[0]] + parts[1..]
  }

  const BAD_SYNTAX := Failed(false, Reply(501, "5.5.2"))

  function AskAuth(env: Env, w: Wire, mech: string, user: Octets, password: Octets): (Wire, AuthEnd) {
    var a := env.auth(Now(w));
    (Note(w, AuthAsked(mech, user, password, a.ok)),
     if a.error.Some? then Failed(a.ok, Raw(a.error.value)) else Verdict(a.ok))
  }

  /** The credentials of AUTH PLAIN, once decoded. */
  function AskPlain(env: Env, w: Wire, data: Option<Octets>): (Wire, AuthEnd) {
    match data
    case None => (w, BAD_SYNTAX)
    case Some(octets) =>
      var parts := SplitAt(octets, 0);
      if |parts| != 3 then (w, BAD_SYNTAX) else AskAuth(env, w, "PLAIN", parts[1], parts[2])
  }

  function AuthPlain(env: Env, w: Wire, arg: string): (Wire, AuthEnd) {
    if arg != "" then AskPlain(env, w, Decode(arg))
    else
      match ReadMore(Say(w, 334, ""))
      case (v, None) => (v, NoLine)
      case (v, Some(line)) => AskPlain(env, v, Decode(line))
  }

  /** AUTH LOGIN once the user name is known: asks for the password. */
  function AskLogin(env: Env, w: Wire, user: Option<Octets>): (Wire, AuthEnd) {
    if user.None? then (w, BAD_SYNTAX)
    else
      match ReadMore(Say(w, 334, ""))
      case (v, None) => (v, NoLine)
      case (v, Some(line)) =>
        match Decode(line)
        case None => (v, BAD_SYNTAX)
        case Some(password) => AskAuth(env, v, "LOGIN", user.value, password)
  }

  function AuthLogin(env: Env, w: Wire, arg: string): (Wire, AuthEnd) {
    if arg != "" then AskLogin(env, w, Decode(arg))
    else
      match ReadMore(Say(w, 334, ""))
      case (v, None) => (v, NoLine)
      case (v, Some(line)) => AskLogin(env, v, Decode(line))
  }

  function AskCramMd5(env: Env, w: Wire, data: Option<Octets>): (Wire, AuthEnd) {
    match data
    case None => (w, BAD_SYNTAX)
    case Some(octets) =>
      var fields := SplitAt(octets, 32);
      if |fields| < 2 then (w, BAD_SYNTAX) else AskAuth(env, w, "CRAM-MD5", fields[0], fields[1])
  }

  function AuthCramMd5(env: Env, w: Wire): (Wire, AuthEnd) {
    match ReadMore(Say(w, 334, ""))
    case (v, None) => (v, NoLine)
    case (v, Some(line)) =>
      if line == "*" then (v, Failed(false, Reply(501, "5.7.0"))) else AskCramMd5(env, v, Decode(line))
  }

  /** LOGIN and PLAIN need TLS unless the configuration says otherwise. */
  predicate MechAllowed(cfg: Config, tls: bool, mech: string) {
    && (mech == "LOGIN" || mech == "PLAIN" || mech == "CRAM-MD5")
    && if mech in cfg.authMechs then cfg.authMechs[mech] else tls || mech == "CRAM-MD5"
  }

  function Exchange(env: Env, w: Wire, mech: string, arg: string): (Wire, AuthEnd) {
    if mech == "PLAIN" then AuthPlain(env, w, arg)
    else if mech == "LOGIN" then AuthLogin(env, w, arg)
    else AuthCramMd5(env, w)
  }

  /** The text of the error a read ends with. */
  function ReadError(e: Ending): string {
    match e
    case Eof => "EOF"
    case Timeout => "i/o timeout"
    case Broken => "connection reset"
  }

  function EndAuth(s: State, w: Wire, end: AuthEnd): State {
    match end
    case Verdict(ok) =>
      s.(authenticated := ok, wire := if ok then Say(w, 235, "2.7.0") else Say(w, 535, "5.7.8"))
    case Failed(ok, reply) => s.(authenticated := ok, wire := Note(w, Said(reply)))
    case NoLine =>
      if w.input.ending.Timeout? then
        s.(open := false, authenticated := false, wire := Say(w, 421, "4.4.2"))
      else
        s.(authenticated := false, wire := Note(w, Said(Raw(ReadError(w.input.ending)))))
  }

  /** AUTH is permitted here and names an allowed mechanism. */
  predicate Exchanging(cfg: Config, s: State, args: string) {
    && !NeedsTls(cfg, s) && cfg.hasAuth && !s.authenticated && !s.mail.gotFrom && s.mail.recipients == []
    && FirstWord(args) != "" && MechAllowed(cfg, s.tls, FirstWord(args))
  }

  /** Why it is not. */
  function AuthRefusal(cfg: Config, s: State, args: string): Reply {
    if NeedsTls(cfg, s) then Reply(530, "5.7.0")
    else if !cfg.hasAuth then Reply(502, "5.5.1")
    else if s.authenticated then Reply(503, "5.5.1")
    else if s.mail.gotFrom || |s.mail.recipients| > 0 then Reply(503, "5.5.1")
    else if FirstWord(args) == "" then Reply(501, "5.5.4")
    else Reply(504, "5.5.4")
  }

  function DoAuth(cfg: Config, env: Env, s: State, args: string): State {
    if !Exchanging(cfg, s, args) then s.(wire := Note(s.wire, Said(AuthRefusal(cfg, s, args))))
    else
      var (w, end) := Exchange(env, s.wire, FirstWord(args), Rest(args));
      EndAuth(s, w, end)
  }

  // ---- STARTTLS and the rest ----

  function DoStartTls(cfg: Config, env: Env, s: State, args: string): State {
    if args != "" then Answer(s, 501, "5.5.2")
    else if !cfg.hasTls then Answer(s, 502, "5.5.1")
    else if s.tls then Answer(s, 503, "5.5.1")
    else Handshake(s.(wire := Say(s.wire, 220, "2.0.0")), env.handshake(Now(s.wire) + 1))
  }

  function Handshake(s: State, answer: TlsAnswer): State {
    match answer
    case Down(n) => s.(wire := Say(Note(Skip(s.wire, n), TlsDown), 403, "4.7.0"))
    case Up(stream) =>
      s.(tls := true, peer := s.peer.(name := ""), mail := NO_MAIL,
         wire := Wire(stream, Note(s.wire, TlsUp).trace))
  }

  function DoReset(cfg: Config, s: State): State {
    if NeedsTls(cfg, s) then Answer(s, 530, "5.7.0")
    else s.(mail := NO_MAIL, wire := Say(s.wire, 250, "2.0.0"))
  }

  function DoHello(s: State, name: string): State {
    s.(peer := s.peer.(name := name), mail := NO_MAIL, wire := Say(s.wire, 250, ""))
  }

  function DoXclient(env: Env, s: State): State {
    var (ip, host) := env.xclient(Now(s.wire));
    s.(peer := Peer(s.peer.name, ip, host), wire := Say(s.wire, 250, "2.0.0"))
  }

  function DoQuit(s: State): State {
    s.(open := false, wire := Say(s.wire, 221, "2.0.0"))
  }

  function Dispatch(cfg: Config, env: Env, s: State, verb: Verb, args: string): State {
    match verb
    case HELO => DoHello(s, args)
    case EHLO => DoHello(s, args)
    case MAIL => DoMail(cfg, s, args)
    case RCPT => DoRcpt(cfg, env, s, args)
    case DATA => DoData(cfg, env, s)
    case QUIT => DoQuit(s)
    case RSET => DoReset(cfg, s)
    case NOOP => Answer(s, 250, "2.0.0")
    case XCLIENT => DoXclient(env, s)
    case HELP => Answer(s, 502, "5.5.1")
    case STARTTLS => DoStartTls(cfg, env, s, args)
    case AUTH => DoAuth(cfg, env, s, args)
    case UNKNOWN => Answer(s, 500, "5.5.2")
  }

  /** Nothing more can be read. */
  function Hangup(s: State): State {
    var w := Unread(s.wire, "");
    s.(open := false, wire := if w.input.ending.Timeout? then Say(w, 421, "4.4.2") else w)
  }

  function Accept(s: State, line: string, rest: string): State {
    s.(wire := Note(Unread(s.wire, rest), Command(line)))
  }

  /** One turn of the command loop. */
  function Iterate(cfg: Config, env: Env, s: State): State {
    if !s.open then s
    else if !HasLine(s.wire.input.bytes) then Hangup(s)
    else
      var line := Trim(FirstLine(s.wire.input.bytes));
      Dispatch(cfg, env, Accept(s, line, AfterLine(s.wire.input.bytes)), VerbOf(line), Rest(line))
  }

  /** The session after `n` turns. */
  function Turns(cfg: Config, env: Env, s: State, n: nat): State
    decreases n
  {
    if n == 0 then s else Turns(cfg, env, Iterate(cfg, env, s), n - 1)
  }
}
