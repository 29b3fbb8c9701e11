/** What happens in a session, as seen from outside: the lines read, the replies
    written and the hooks called, in order. */
module SmtpTrace {
  import opened Base64
  import opened SmtpSyntax
  import opened Text

  /** A reply: its code and enhanced status code, or a text passed through as it is. */
  datatype Reply = Reply(code: nat, status: string) | Raw(text: string)

  datatype Event =
    | Command(line: string)        // a command line, trimmed
    | Continued(line: string)      // a further line of an AUTH exchange
    | Body(text: string)           // a message body, with the dots removed
    | Said(reply: Reply)
    | AuthAsked(mech: string, user: Octets, password: Octets, ok: bool)
    | RcptAsked(sender: string, address: string, ok: bool)
    | Handled(sender: string, recipients: seq<string>, data: string, ok: bool)
    | TlsUp
    | TlsDown

  /** The events so far, latest last. */
  datatype Trace = Nothing | Then(before: Trace, last: Event)

  function Length(t: Trace): nat {
    if t.Nothing? then 0 else Length(t.before) + 1
  }

  /** `t` continues `s`. */
  predicate Extends(s: Trace, t: Trace) {
    s == t || (t.Then? && Extends(s, t.before))
  }

  lemma {:induction false} ExtendsTransitive(s: Trace, t: Trace, u: Trace)
    requires Extends(s, t) && Extends(t, u)
    ensures Extends(s, u)
  {
    if t != u {
      ExtendsTransitive(s, t, u.before);
    }
  }

  /** Three digits, as a client looks for at the start of a line. */
  predicate StartsWithCode(text: string) {
    |text| >= 3 && IsDigit(text[0]) && IsDigit(text[1]) && IsDigit(text[2])
  }

  /** The code a client reads; 0 when there is none. */
  function Code(r: Reply): nat {
    match r
    case Reply(code, _) => code
    case Raw(text) => if StartsWithCode(text) then Value(text[..3]) else 0
  }

  /** A line that another line of the same reply must follow. */
  predicate Continues(line: string) {
    StartsWithCode(line) && |line| > 3 && line[3] == '-'
  }

  /** Several lines of one reply: all with the same code, and all but the last continued
      (section 4.2.1 of RFC 5321). */
  predicate IsMultiline(lines: seq<string>) {
    forall i :: 0 <= i < |lines| ==>
      && StartsWithCode(lines[0]) && StartsWithCode(lines[i]) && lines[i][..3] == lines[0][..3]
      && (Continues(lines[i]) <==> i < |lines| - 1)
  }

  /** A client takes it for one whole reply. A single line without a code is one too, of
      which a client can only make that something failed. */
  predicate IsWhole(r: Reply) {
    match r
    case Reply(_, _) => true
    case Raw(text) => if '\n' in text then IsMultiline(Split(text, '\n')) else !Continues(text)
  }

  predicate IsIntermediate(r: Reply) {
    IsWhole(r) && (Code(r) == 334 || Code(r) == 354)
  }

  /** It completes a command. */
  predicate IsFinal(r: Reply) {
    IsWhole(r) && Code(r) != 334 && Code(r) != 354
  }

  // ---- The transaction, told from the history alone ----

  /** The mail transaction: sender, whether there is one, recipients. */
  datatype Mail = Mail(sender: string, gotFrom: bool, recipients: seq<string>)

  const NO_MAIL := Mail("", false, [])

  /** The last command line, the transaction, whether the handler has refused the message
      of that command (a refusal may itself be worded as a 250), and the name the client
      gave. */
  datatype View = View(line: string, mail: Mail, refused: bool, name: string)

  /** How a reply changes the transaction. A MAIL answered 250 sets the sender; any
      answer to a MAIL that passed the TLS and login checks (530) drops the recipients;
      an RCPT answered 250 adds one; HELO, EHLO, an accepted RSET and a DATA answered 250
      whose message the handler has not refused end the transaction. */
  function Replied(v: View, r: Reply): Mail {
    match VerbOf(v.line)
    case HELO => NO_MAIL
    case EHLO => NO_MAIL
    case RSET => if Code(r) == 250 then NO_MAIL else v.mail
    case DATA => if Code(r) == 250 && !v.refused then NO_MAIL else v.mail
    case MAIL =>
      if Code(r) == 530 then v.mail
      else
        (match MatchMail(Rest(v.line))
         case Some(found) => if Code(r) == 250 then Mail(found.address, true, []) else v.mail.(recipients := [])
         case None => v.mail.(recipients := []))
    case RCPT =>
      (match MatchRcpt(Rest(v.line))
       case Some(address) =>
         if Code(r) == 250 then v.mail.(recipients := v.mail.recipients + [address]) else v.mail
       case None => v.mail)
    case _ => v.mail
  }

  /** The name is that of the last HELO or EHLO answered. */
  function Named(v: View): string {
    if VerbOf(v.line) == HELO || VerbOf(v.line) == EHLO then Rest(v.line) else v.name
  }

  /** A completed STARTTLS ends the transaction and drops the name. */
  function Observe(v: View, e: Event): View {
    match e
    case Command(line) => v.(line := line, refused := false)
    case Handled(_, _, _, ok) => v.(refused := !ok)
    case TlsUp => v.(mail := NO_MAIL, name := "")
    case Said(r) => v.(mail := Replied(v, r), name := Named(v))
    case _ => v
  }

  function Seen(t: Trace): View {
    if t.Nothing? then View("", NO_MAIL, false, "") else Observe(Seen(t.before), t.last)
  }

  // ---- Commands and their completions ----

  /** Whether a command is waiting for its completion reply. */
  datatype Turn = Idle | Waiting | Misaligned

  /** A command may only be read when none is waiting, and a reply may only be sent
      while one is. Codes 334 and 354 do not complete it, and what is no whole reply puts
      client and server out of step. */
  function Advance(turn: Turn, e: Event): Turn {
    match (turn, e)
    case (Misaligned, _) => Misaligned
    case (Idle, Command(_)) => Waiting
    case (Waiting, Command(_)) => Misaligned
    case (Idle, Said(_)) => Misaligned
    case (Waiting, Said(r)) => if IsFinal(r) then Idle else if IsIntermediate(r) then Waiting else Misaligned
    case _ => turn
  }

  /** A new connection waits for the banner. */
  function TurnAfter(t: Trace): Turn {
    if t.Nothing? then Waiting else Advance(TurnAfter(t.before), t.last)
  }

  /** A failed handshake, or a hook's error passed on that completes nothing. */
  predicate IsUpset(e: Event) {
    e.TlsDown? || (e.Said? && e.reply.Raw? && !IsFinal(e.reply))
  }

  predicate Upset(t: Trace) {
    t.Then? && (IsUpset(t.last) || Upset(t.before))
  }

  // ---- Hook calls ----

  function Handlings(t: Trace): seq<Event> {
    if t.Nothing? then []
    else if t.last.Handled? then Handlings(t.before) + [t.last]
    else Handlings(t.before)
  }

  predicate IsLogin(e: Event) {
    e.AuthAsked? && e.ok
  }

  function Logins(t: Trace): nat {
    if t.Nothing? then 0 else Logins(t.before) + if IsLogin(t.last) then 1 else 0
  }

  /** Appends an event. */
  function Record(t: Trace, e: Event): (r: Trace)
    ensures Logins(r) == Logins(t) + if IsLogin(e) then 1 else 0
  {
    Then(t, e)
  }

  // ---- What may happen between a command and its completion ----

  predicate IsMiddle(e: Event) {
    e.Continued? || e.AuthAsked? || e.RcptAsked? || e.Body? || (e.Said? && e.reply.Reply? && IsIntermediate(e.reply))
  }

  predicate Between(t: Trace, u: Trace) {
    t == u || (u.Then? && IsMiddle(u.last) && Between(t, u.before))
  }

  lemma BetweenStep(t: Trace, u: Trace, e: Event)
    requires Between(t, u) && IsMiddle(e)
    ensures Between(t, Record(u, e))
  {
  }

  /** It leaves the command waiting, and only the replies to HELO, EHLO and MAIL could
      have changed the transaction. */
  lemma {:induction false} BetweenChangesNothing(t: Trace, u: Trace)
    requires Between(t, u)
    ensures TurnAfter(t) != Idle ==> TurnAfter(u) == TurnAfter(t)
    ensures Upset(u) == Upset(t)
    ensures VerbOf(Seen(t).line) !in {HELO, EHLO, MAIL} ==> Seen(u) == Seen(t)
    ensures Handlings(u) == Handlings(t)
  {
    if t != u {
      BetweenChangesNothing(t, u.before);
    }
  }
}
