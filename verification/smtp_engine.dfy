/** The session object of internal/mhalesmtpd/smtpd.go. `Serve` is its command loop; the
    loop's local variables are fields here, so that each command can be a method. */
module SmtpEngine {
  import opened Base64
  import opened SmtpData
  import opened SmtpModel
  import opened SmtpRuns
  import opened SmtpSyntax
  import opened SmtpTrace
  import opened Text

  class Session {
    const srv: Config
    const env: Env
    var open: bool
    var br: string  // bytes received and not read yet
    var ending: Ending
    var tls: bool
    var authenticated: bool
    var remoteName: string
    var remoteIP: string
    var remoteHost: string
    var sender: string
    var gotFrom: bool
    var to: seq<string>
    var buffer: string
    var events: nat
    ghost var trace: Trace

    ghost predicate Valid()
      reads this
    {
      events == Length(trace)
    }

    ghost function Conn(): Wire
      reads this
    {
      Wire(Stream(br, ending), trace)
    }

    ghost function Now(): State
      reads this
    {
      State(open, tls, authenticated, Peer(remoteName, remoteIP, remoteHost), Mail(sender, gotFrom, to), Conn())
    }

    constructor (srv: Config, env: Env, input: Stream, tls: bool, ip: string, host: string)
      ensures Valid()
      ensures this.srv == srv && this.env == env
      ensures Now() == State(true, tls, false, Peer("", ip, host), NO_MAIL, Wire(input, Nothing))
    {
      this.srv, this.env := srv, env;
      open, br, ending := true, input.bytes, input.ending;
      this.tls, authenticated := tls, false;
      remoteName, remoteIP, remoteHost := "", ip, host;
      sender, gotFrom, to, buffer := "", false, [], "";
      events, trace := 0, Nothing;
    }

    method Note(ghost e: Event)
      requires Valid()
      modifies this`events, this`trace
      ensures Valid()
      ensures Conn() == SmtpModel.Note(old(Conn()), e)
    {
      trace := Record(trace, e);
      events := events + 1;
    }

    method Writef(reply: Reply)
      requires Valid()
      modifies this`events, this`trace
      ensures Valid()
      ensures Conn() == SmtpModel.Note(old(Conn()), Said(reply))
    {
      Note(Said(reply));
    }

    /** A whole line without its white space, or None at the end of the input. */
    method ReadLine() returns (line: Option<string>)
      modifies this`br
      ensures !HasLine(old(br)) ==> line == None && br == ""
      ensures HasLine(old(br)) ==> line == Some(Trim(FirstLine(old(br)))) && br == AfterLine(old(br))
    {
      if !HasLine(br) {
        br := "";
        return None;
      }
      line := Some(Trim(FirstLine(br)));
      br := AfterLine(br);
    }

    /** Reads the body line by line into `data`. */
    method ReadData() returns (r: BodyRead)
      modifies this`br
      ensures r == ReadBody(old(br), srv.maxSize, "")
      ensures br == match r { case Complete(_, rest) => rest case TooLarge(rest) => rest case Cut => "" }
    {
      var data := "";
      ghost var goal := ReadBody(br, srv.maxSize, "");
      while true
        invariant ReadBody(br, srv.maxSize, data) == goal
        decreases |br|
      {
        if !HasLine(br) {
          br := "";
          return Cut;
        }
        var line := FirstLine(br);
        br := AfterLine(br);
        if line == ".\r\n" || line == ".\n" {
          return Complete(data, br);
        }
        if |line| > 0 && line[0] == '.' {
          line := line[1..];
        }
        if srv.maxSize > 0 {
          if |data| + |line| > srv.maxSize {
            return TooLarge(br);
          }
        }
        data := data + line;
      }
    }

    method ResetMail()
      modifies this`sender, this`gotFrom, this`to, this`buffer
      ensures sender == "" && !gotFrom && to == []
    {
      sender, gotFrom, to, buffer := "", false, [], "";
    }

    // ---- Commands ----

    method Hello(args: string)
      requires Valid()
      modifies this
      ensures Valid() && Now() == DoHello(old(Now()), args)
    {
      remoteName := args;
      Writef(Reply(250, ""));
      ResetMail();
    }

    /** Writes the 530 reply if TLS or a login is still missing. */
    method Gate() returns (shut: bool)
      requires Valid()
      modifies this`events, this`trace
      ensures Valid() && shut == Gated(srv, old(Now()))
      ensures Now() == if shut then Answer(old(Now()), 530, "5.7.0") else old(Now())
    {
      if srv.hasTls && srv.tlsRequired && !tls {
        Writef(Reply(530, "5.7.0"));
        return true;
      }
      if srv.hasAuth && srv.authRequired && !authenticated {
        Writef(Reply(530, "5.7.0"));
        return true;
      }
      return false;
    }

    method MailCommand(args: string)
      requires Valid()
      modifies this
      ensures Valid() && Now() == DoMail(srv, old(Now()), args)
    {
      var shut := Gate();
      if shut {
        return;
      }
      hide MatchMail, MatchSize, Atoi;
      var found := MatchMail(args);
      if found.None? {
        Writef(Reply(501, "5.5.4"));
      } else if found.value.hasParams {
        var digits := MatchSize(found.value.params);
        if digits.None? {
          Writef(Reply(501, "5.5.4"));
        } else {
          var size := Atoi(digits.value);
          if size.None? {
            Writef(Reply(501, "5.5.4"));
          } else if srv.maxSize > 0 && size.value > srv.maxSize {
            Writef(Reply(552, "5.3.4"));
          } else {
            sender := found.value.address;
            gotFrom := true;
            Writef(Reply(250, "2.1.0"));
          }
        }
      } else {
        sender := found.value.address;
        gotFrom := true;
        Writef(Reply(250, "2.1.0"));
      }
      to := [];
      buffer := "";
    }

    method RcptCommand(args: string)
      requires Valid()
      modifies this
      ensures Valid() && Now() == DoRcpt(srv, env, old(Now()), args)
    {
      var shut := Gate();
      if shut {
        return;
      }
      if !gotFrom {
        Writef(Reply(503, "5.5.1"));
        return;
      }
      var found := MatchRcpt(args);
      if found.None? {
        Writef(Reply(501, "5.5.4"));
        return;
      }
      if |to| == (if srv.maxRecipients == 0 then 100 else srv.maxRecipients) {
        Writef(Reply(452, "4.5.3"));
        return;
      }
      var accept := true;
      if srv.hasRcptHook {
        accept := env.rcpt(events);
        Note(RcptAsked(sender, found.value, accept));
      }
      if accept {
        to := to + [found.value];
        Writef(Reply(250, "2.1.5"));
      } else {
        Writef(Reply(550, "5.1.0"));
      }
    }

    method DataCommand()
      requires Valid()
      modifies this
      ensures Valid() && Now() == DoData(srv, env, old(Now()))
    {
      var shut := Gate();
      if shut {
        return;
      }
      if !gotFrom || |to| == 0 {
        Writef(Reply(503, "5.5.1"));
        return;
      }
      hide Deliver, ReadBody;
      Writef(Reply(354, ""));
      ghost var asked := Now();
      var read := ReadData();
      match read {
        case Cut =>
          match ending {
            case Timeout =>
              Writef(Reply(421, "4.4.2"));
              open := false;
            case Broken => open := false;
            case Eof => Writef(Reply(451, "4.3.0"));
          }
        case TooLarge(_) =>
          var n := env.buffered(events);
          br := br[if n < |br| then n else |br|..];
          Writef(Reply(552, "5.3.4"));
        case Complete(data, _) =>
          Note(Body(data));
          Handle(data);
      }
      assert Now() == TakeBody(srv, env, asked, read);
    }

    /** Puts header and body into the buffer and calls the hook. */
    method Handle(data: string)
      requires Valid() && to != []
      modifies this
      ensures Valid() && Now() == Deliver(srv, env, old(Now()), data)
    {
      hide MakeHeaders, IsReplyText;
      buffer := MakeHeaders(srv, Peer(remoteName, remoteIP, remoteHost), to, env.clock(events));
      buffer := buffer + data;
      if srv.hook.NoHook? {
        Writef(Reply(250, "2.0.0"));
      } else {
        var answer := env.handle(events);
        Note(Handled(sender, to, buffer, answer.Took?));
        match answer {
          case Refused(error) =>
            if IsReplyText(error) {
              Writef(Raw(error));
            } else {
              Writef(Reply(451, "4.3.5"));
            }
            return;
          case Took(_) => Writef(Reply(250, "2.0.0"));
        }
      }
      ResetMail();
    }

    method Rset()
      requires Valid()
      modifies this
      ensures Valid() && Now() == DoReset(srv, old(Now()))
    {
      if srv.hasTls && srv.tlsRequired && !tls {
        Writef(Reply(530, "5.7.0"));
        return;
      }
      Writef(Reply(250, "2.0.0"));
      ResetMail();
    }

    method Xclient()
      requires Valid()
      modifies this
      ensures Valid() && Now() == DoXclient(env, old(Now()))
    {
      var (ip, host) := env.xclient(events);
      remoteIP, remoteHost := ip, host;
      Writef(Reply(250, "2.0.0"));
    }

    method StartTls(args: string)
      requires Valid()
      modifies this
      ensures Valid() && Now() == DoStartTls(srv, env, old(Now()), args)
    {
      if args != "" {
        Writef(Reply(501, "5.5.2"));
        return;
      }
      if !srv.hasTls {
        Writef(Reply(502, "5.5.1"));
        return;
      }
      if tls {
        Writef(Reply(503, "5.5.1"));
        return;
      }
      Writef(Reply(220, "2.0.0"));
      Shake(env.handshake(events));
    }

    /** Goes on over TLS if the handshake succeeded, forgetting what was said before. */
    method Shake(answer: TlsAnswer)
      requires Valid()
      modifies this
      ensures Valid() && Now() == Handshake(old(Now()), answer)
    {
      match answer {
        case Down(n) =>
          br := br[if n < |br| then n else |br|..];
          Note(TlsDown);
          Writef(Reply(403, "4.7.0"));
        case Up(stream) =>
          Note(TlsUp);
          br, ending := stream.bytes, stream.ending;
          tls := true;
          remoteName := "";
          ResetMail();
      }
    }

    // ---- AUTH ----

    /** Sends a challenge and reads the answer to it. */
    method Challenge() returns (line: Option<string>)
      requires Valid()
      modifies this`br, this`events, this`trace
      ensures Valid() && (Conn(), line) == ReadMore(Say(old(Conn()), 334, ""))
    {
      Writef(Reply(334, ""));
      line := ReadLine();
      if line.Some? {
        Note(Continued(line.value));
      }
    }

    method CallAuthHandler(mech: string, user: Octets, password: Octets) returns (end: AuthEnd)
      requires Valid()
      modifies this`events, this`trace
      ensures Valid() && (Conn(), end) == AskAuth(env, old(Conn()), mech, user, password)
    {
      var a := env.auth(events);
      Note(AuthAsked(mech, user, password, a.ok));
      end := if a.error.Some? then Failed(a.ok, Raw(a.error.value)) else Verdict(a.ok);
    }

    method HandleAuthPlain(arg: string) returns (end: AuthEnd)
      requires Valid()
      modifies this`br, this`events, this`trace
      ensures Valid() && (Conn(), end) == AuthPlain(env, old(Conn()), arg)
    {
      var line := Some(arg);
      if arg == "" {
        line := Challenge();
        if line.None? {
          return NoLine;
        }
      }
      var data := Decode(line.value);
      if data.None? {
        return BAD_SYNTAX;
      }
      var parts := SplitAt(data.value, 0);
      if |parts| != 3 {
        return BAD_SYNTAX;
      }
      end := CallAuthHandler("PLAIN", parts[1], parts[2]);
    }

    method HandleAuthLogin(arg: string) returns (end: AuthEnd)
      requires Valid()
      modifies this`br, this`events, this`trace
      ensures Valid() && (Conn(), end) == AuthLogin(env, old(Conn()), arg)
    {
      var line := Some(arg);
      if arg == "" {
        line := Challenge();
        if line.None? {
          return NoLine;
        }
      }
      end := HandlePassword(Decode(line.value));
    }

    method HandlePassword(user: Option<Octets>) returns (end: AuthEnd)
      requires Valid()
      modifies this`br, this`events, this`trace
      ensures Valid() && (Conn(), end) == AskLogin(env, old(Conn()), user)
    {
      if user.None? {
        return BAD_SYNTAX;
      }
      var line := Challenge();
      if line.None? {
        return NoLine;
      }
      var password := Decode(line.value);
      if password.None? {
        return BAD_SYNTAX;
      }
      end := CallAuthHandler("LOGIN", user.value, password.value);
    }

    method HandleAuthCramMd5() returns (end: AuthEnd)
      requires Valid()
      modifies this`br, this`events, this`trace
      ensures Valid() && (Conn(), end) == AuthCramMd5(env, old(Conn()))
    {
      var line := Challenge();
      if line.None? {
        return NoLine;
      }
      if line.value == "*" {
        return Failed(false, Reply(501, "5.7.0"));
      }
      var data := Decode(line.value);
      if data.None? {
        return BAD_SYNTAX;
      }
      var fields := SplitAt(data.value, 32);
      if |fields| < 2 {
        return BAD_SYNTAX;
      }
      end := CallAuthHandler("CRAM-MD5", fields[0], fields[1]);
    }

    /** Says why AUTH is not permitted here, if it is not. */
    method RefuseAuth(args: string) returns (refused: bool)
      requires Valid()
      modifies this`events, this`trace
      ensures Valid() && refused == !Exchanging(srv, old(Now()), args)
      ensures Conn() == if refused then SmtpModel.Note(old(Conn()), Said(AuthRefusal(srv, old(Now()), args))) else old(Conn())
    {
      refused := true;
      if srv.hasTls && srv.tlsRequired && !tls {
        Writef(Reply(530, "5.7.0"));
      } else if !srv.hasAuth {
        Writef(Reply(502, "5.5.1"));
      } else if authenticated {
        Writef(Reply(503, "5.5.1"));
      } else if gotFrom || |to| > 0 {
        Writef(Reply(503, "5.5.1"));
      } else if FirstWord(args) == "" {
        Writef(Reply(501, "5.5.4"));
      } else if !MechAllowed(srv, tls, FirstWord(args)) {
        Writef(Reply(504, "5.5.4"));
      } else {
        refused := false;
      }
    }

    method Auth(args: string)
      requires Valid()
      modifies this
      ensures Valid() && Now() == DoAuth(srv, env, old(Now()), args)
    {
      hide Exchange, FirstWord, Rest;
      var refused := RefuseAuth(args);
      if refused {
        return;
      }
      var end := Converse(FirstWord(args), Rest(args));
      FinishAuth(end);
    }

    method Converse(mech: string, arg: string) returns (end: AuthEnd)
      requires Valid()
      modifies this`br, this`events, this`trace
      ensures Valid() && (Conn(), end) == Exchange(env, old(Conn()), mech, arg)
    {
      if mech == "PLAIN" {
        end := HandleAuthPlain(arg);
      } else if mech == "LOGIN" {
        end := HandleAuthLogin(arg);
      } else {
        end := HandleAuthCramMd5();
      }
    }

    method FinishAuth(end: AuthEnd)
      requires Valid()
      modifies this
      ensures Valid() && Now() == EndAuth(old(Now()), old(Conn()), end)
    {
      match end {
        case NoLine =>
          authenticated := false;
          if ending.Timeout? {
            Writef(Reply(421, "4.4.2"));
            open := false;
          } else {
            Writef(Raw(ReadError(ending)));
          }
        case Failed(ok, reply) =>
          authenticated := ok;
          Writef(reply);
        case Verdict(ok) =>
          authenticated := ok;
          if ok {
            Writef(Reply(235, "2.7.0"));
          } else {
            Writef(Reply(535, "5.7.8"));
          }
      }
    }

    // ---- The loop ----

    method Command(verb: Verb, args: string)
      requires Valid()
      modifies this
      ensures Valid() && Now() == Dispatch(srv, env, old(Now()), verb, args)
    {
      match verb {
        case HELO => Hello(args);
        case EHLO => Hello(args);
        case MAIL => MailCommand(args);
        case RCPT => RcptCommand(args);
        case DATA => DataCommand();
        case QUIT =>
          Writef(Reply(221, "2.0.0"));
          open := false;
        case RSET => Rset();
        case NOOP => Writef(Reply(250, "2.0.0"));
        case XCLIENT => Xclient();
        case HELP => Writef(Reply(502, "5.5.1"));
        case STARTTLS => StartTls(args);
        case AUTH => Auth(args);
        case UNKNOWN => Writef(Reply(500, "5.5.2"));
      }
    }

    /** One turn: reads a line and carries it out. */
    method Turn()
      requires Valid() && open
      modifies this
      ensures Valid() && Now() == Iterate(srv, env, old(Now()))
    {
      var line := ReadLine();
      if line.None? {
        if ending.Timeout? {
          Writef(Reply(421, "4.4.2"));
        }
        open := false;
        return;
      }
      Note(SmtpTrace.Command(line.value));
      Command(VerbOf(line.value), Rest(line.value));
    }

    /** Serves the connection to its end. */
    method Serve()
      requires Valid() && open && trace == Nothing
      modifies this
      ensures Valid() && !open
      ensures Now() == Run(srv, env, Answer(old(Now()), 220, ""))
    {
      Writef(Reply(220, ""));
      ghost var goal := Run(srv, env, Now());
      while open
        invariant Valid() && Run(srv, env, Now()) == goal
        decreases !tls, open, |br|
      {
        Shrinks(srv, env, Now());
        Turn();
      }
    }
  }
}
