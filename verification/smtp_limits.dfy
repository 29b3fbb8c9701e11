/** The limit on the size of a message, announced and actual. */
module SmtpLimits {
  import opened Seqs
  import opened SmtpData
  import opened SmtpDelivery
  import opened SmtpModel
  import opened SmtpSyntax
  import opened SmtpTrace
  import opened Text

  // ---- MAIL with a SIZE ----

  lemma {:induction false} AfterLastThen(a: string, c: char, b: string)
    requires c !in b
    ensures AfterLast(a + [c] + b, c) == |a| + 1
    decreases |b|
  {
    var s := a + [c] + b;
    if b == "" {
      assert s == a + [c];
      AfterLastAt(a, c);
    } else {
      assert s[|s| - 1] == b[|b| - 1] && b[|b| - 1] in b;
      assert s[..|s| - 1] == a + [c] + b[..|b| - 1];
      AfterLastThen(a, c, b[..|b| - 1]);
    }
  }

  lemma {:induction false} AllDigitsLead(s: string)
    requires AllDigits(s)
    ensures LeadingDigits(s) == s
  {
    if s != "" {
      assert s[0] in s;
      AllDigitsLead(s[1..]);
    }
  }

  function SizeArgs(address: string, n: nat): string {
    "FROM:" + "<" + address + ">" + (" SIZE=" + Itoa(n))
  }

  lemma NumberIsDigits(n: nat)
    ensures AllDigits(Itoa(n))
  {
  }

  lemma SizeMatches(n: nat)
    ensures MatchSize("SIZE=" + Itoa(n)) == Some(Itoa(n))
  {
    var params := "SIZE=" + Itoa(n);
    NumberIsDigits(n);
    AllDigitsLead(Itoa(n));
    assert params[..5] == "SIZE=" && params[5..] == Itoa(n);
    assert Itoa(n)[0] in Itoa(n);
    assert Lower("SIZE=") == "size=";
  }

  /** The address is found before whatever follows its last bracket. */
  lemma BracketedBefore(address: string, tail: string)
    requires '>' !in tail
    ensures var args := "FROM:" + "<" + address + ">" + tail;
            && Bracketed(args, "from:", 0, 0) == Some((6, 6 + |address|))
            && args[6..6 + |address|] == address && args[6 + |address| + 1..] == tail
  {
    var head := "FROM:" + "<" + address;
    var args := "FROM:" + "<" + address + ">" + tail;
    AfterLastThen(head, '>', tail);
    assert args == head + ['>'] + tail;
    DropAppended(head + ['>'], tail);
    LowerWord();
    assert args[0..5] == "FROM:";
    assert SmtpSyntax.Opening(args, "from:", 0) == Some(6);
    assert args[6..6 + |address|] == address;
  }

  lemma SizeArgsRead(address: string, n: nat)
    ensures MatchMail(SizeArgs(address, n)) == Some(MailArgs(address, true, "SIZE=" + Itoa(n)))
    ensures Trimmed(SizeArgs(address, n))
  {
    hide Itoa, Bracketed;
    var args, tail := SizeArgs(address, n), " SIZE=" + Itoa(n);
    TailShape(n);
    BracketedBefore(address, tail);
    assert args[6 + |address| + 1] == tail[0];
    assert args[6 + |address| + 2..] == tail[1..];
    assert args[|args| - 1] == tail[|tail| - 1];
    assert args[0] == "FROM:"[0];
  }

  lemma TailShape(n: nat)
    ensures var tail := " SIZE=" + Itoa(n);
            '>' !in tail && tail[0] == ' ' && tail[1..] == "SIZE=" + Itoa(n) && !IsSpace(tail[|tail| - 1])
  {
    NumberIsDigits(n);
    hide Itoa;
    var tail := " SIZE=" + Itoa(n);
    assert '>' !in " SIZE=" && '>' !in Itoa(n);
    assert tail[|tail| - 1] == Itoa(n)[|Itoa(n)| - 1] && Itoa(n)[|Itoa(n)| - 1] in Itoa(n);
  }

  lemma SizeReadsBack(address: string, n: nat)
    requires IsAddress(address)
    ensures var line := "MAIL" + " " + SizeArgs(address, n);
            && '\n' !in line && Trim(AsSent(line)) == line && VerbOf(line) == MAIL && Rest(line) == SizeArgs(address, n)
  {
    SizeArgsRead(address, n);
    NumberIsDigits(n);
    LowerWord();
    hide Itoa, MatchMail, Trim, FirstWord, Rest;
    ReadsBack("MAIL", SizeArgs(address, n));
  }

  /** A MAIL that announces a size is answered 250, and makes its sender the sender, if and
      only if there is no limit or the size is within it; otherwise 552, and the earlier
      sender stays. A size beyond 64 bits is a syntax error. */
  lemma MailWithSize(cfg: Config, env: Env, s: State, address: string, n: nat, rest: string)
    requires s.open && !Gated(cfg, s) && IsAddress(address)
    requires s.wire.input.bytes == AsSent("MAIL" + " " + SizeArgs(address, n)) + rest
    ensures var t := Iterate(cfg, env, s);
            && t.open && t.wire.trace.Then? && t.wire.trace.last.Said?
            && var code := Code(t.wire.trace.last.reply);
               && code == (if n > MAX_INT64 then 501 else if cfg.maxSize <= 0 || n <= cfg.maxSize then 250 else 552)
               && t.mail == if code == 250 then Mail(address, true, []) else s.mail.(recipients := [])
  {
    hide Iterate, Trim, VerbOf, Rest, HasLine, FirstLine, AfterLine, MatchMail, MatchSize, Atoi, Itoa, SizeArgs;
    SizeReadsBack(address, n);
    SizeArgsRead(address, n);
    SizeMatches(n);
    AtoiItoa(n);
    LineTurn(cfg, env, s, "MAIL" + " " + SizeArgs(address, n), rest);
  }

  // ---- RCPT at the limit ----

  /** An RCPT in a transaction is answered 250, and adds its address, if and only if the
      limit is not reached yet, 100 recipients where none is configured, and the recipient
      hook, if there is one, says `ok`. At the limit it is answered 452, refused by the hook
      550, and changes nothing. */
  lemma RcptAnswered(cfg: Config, env: Env, s: State, address: string, ok: bool, rest: string)
    requires s.open && !Gated(cfg, s) && s.mail.gotFrom && address != "" && IsAddress(address)
    requires (forall n :: env.rcpt(n) == ok) && s.wire.input.bytes == AsSent(RcptLine(address)) + rest
    ensures var t := Iterate(cfg, env, s);
            && t.open && t.wire.trace.Then? && t.wire.trace.last.Said?
            && var code := Code(t.wire.trace.last.reply);
               && code == (if |s.mail.recipients| == (if cfg.maxRecipients == 0 then 100 else cfg.maxRecipients) then 452
                           else if cfg.hasRcptHook && !ok then 550
                           else 250)
               && t.mail == if code == 250 then Mail(s.mail.sender, true, s.mail.recipients + [address]) else s.mail
  {
    hide Iterate, MatchRcpt, Trim, VerbOf, Rest, HasLine, FirstLine, AfterLine;
    var t := Accept(s, RcptLine(address), rest);
    RcptReadsBack(address);
    LineTurn(cfg, env, s, RcptLine(address), rest);
    assert env.rcpt(Now(t.wire)) == ok;
  }

  // ---- A message that is too large ----

  /** A body over the limit is answered 552: the transaction stays, the handler is not
      called, and the session goes on. */
  lemma TooLargeTurn(cfg: Config, env: Env, s: State, m: Letter, rest: string)
    requires s.open && !Gated(cfg, s) && s.mail == Mail(m.sender, true, m.to) && m.to != []
    requires IsBody(m.body) && Exceeds(|m.body|, cfg.maxSize)
    requires s.wire.input.bytes == DataText(m, rest)
    ensures var t := Iterate(cfg, env, s);
            && t.open && t.mail == s.mail && Handlings(t.wire.trace) == Handlings(s.wire.trace)
            && t.wire.trace.Then? && t.wire.trace.last.Said? && Code(t.wire.trace.last.reply) == 552
  {
    hide Iterate, ReadBody, Trim, VerbOf, Rest, HasLine, FirstLine, AfterLine;
    var after := Stuff(m.body) + ".\r\n" + rest;
    var t := Accept(s, "DATA", after);
    var w := Say(t.wire, 354, "");
    DataReadsBack();
    LineTurn(cfg, env, s, "DATA", after);
    UnstuffsExactly(m.body, ".\r\n", rest, cfg.maxSize);
    assert Handlings(w.trace) == Handlings(t.wire.trace) == Handlings(s.wire.trace);
  }
}
