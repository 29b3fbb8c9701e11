/** Command-line syntax of internal/mhalesmtpd/smtpd.go: the verb, its arguments and
    the three patterns for MAIL and RCPT, matched as the original's regular
    expressions match them. */
module SmtpSyntax {
  import opened Text

  datatype Verb =
    | HELO | EHLO | MAIL | RCPT | DATA | QUIT | RSET | NOOP
    | XCLIENT | HELP | STARTTLS | AUTH | UNKNOWN

  /** parseLine: the text before the first space in upper case, and the trimmed rest. */
  function FirstWord(line: string): string {
    Upper(line[..Find(line, ' ')])
  }

  function Rest(line: string): string {
    var i := Find(line, ' ');
    if i < |line| then Trim(line[i + 1..]) else ""
  }

  function ToVerb(word: string): Verb {
    if word == "HELO" then HELO
    else if word == "EHLO" then EHLO
    else if word == "MAIL" then MAIL
    else if word == "RCPT" then RCPT
    else if word == "DATA" then DATA
    else if word == "QUIT" then QUIT
    else if word == "RSET" then RSET
    else if word == "NOOP" then NOOP
    else if word == "XCLIENT" then XCLIENT
    else if word == "HELP" || word == "VRFY" || word == "EXPN" then HELP
    else if word == "STARTTLS" then STARTTLS
    else if word == "AUTH" then AUTH
    else UNKNOWN
  }

  function VerbOf(line: string): Verb {
    ToVerb(FirstWord(line))
  }

  /** \s of the original's regular expressions. */
  predicate IsBlank(c: char) {
    c == ' ' || c == '\t' || c == '\n' || c == '\r' || c == 12 as char
  }

  /** Where the text inside `<...>` starts if `key`, in any case, and at most one
      blank precede it at position `i`. */
  function Opening(args: string, key: string, i: nat): Option<nat>
    requires i <= |args|
  {
    var j := i + |key|;
    if |args| < j || Lower(args[i..j]) != key then None
    else
      var k := if j < |args| && IsBlank(args[j]) then j + 1 else j;
      if k < |args| && args[k] == '<' then Some(k + 1) else None
  }

  /** The leftmost match of `key\s?<(...)>` from `i` on, holding at least `min`
      characters; being greedy it runs to the last '>'. */
  function Bracketed(args: string, key: string, min: nat, i: nat): Option<(nat, nat)>
    requires i <= |args|
    ensures var r := Bracketed(args, key, min, i);
            r.Some? ==> r.value.0 + min <= r.value.1 < |args| && args[r.value.1] == '>'
    decreases |args| - i
  {
    var close := AfterLast(args, '>');
    var open := Opening(args, key, i);
    if open.Some? && open.value + min < close then Some((open.value, close - 1))
    else if i == |args| then None
    else Bracketed(args, key, min, i + 1)
  }

  /** What the MAIL pattern captures. */
  datatype MailArgs = MailArgs(address: string, hasParams: bool, params: string)

  function MatchMail(args: string): Option<MailArgs> {
    match Bracketed(args, "from:", 0, 0)
    case None => None
    case Some((open, close)) =>
      var hasParams := close + 1 < |args| && IsBlank(args[close + 1]);
      Some(MailArgs(args[open..close], hasParams, if hasParams then args[close + 2..] else ""))
  }

  function MatchRcpt(args: string): Option<string> {
    match Bracketed(args, "to:", 1, 0)
    case None => None
    case Some((open, close)) => Some(args[open..close])
  }

  /** The digits at the start of `s`. */
  function LeadingDigits(s: string): string {
    if s != "" && IsDigit(s[0]) then [s[0]] + LeadingDigits(s[1..]) else ""
  }

  /** The digits of the leftmost `size=` followed by a digit. */
  function MatchSize(params: string): Option<string>
    decreases |params|
  {
    if |params| < 6 then None
    else if Lower(params[..5]) == "size=" && IsDigit(params[5]) then Some(LeadingDigits(params[5..]))
    else MatchSize(params[1..])
  }

  /** ^([2-5][0-9]{2})[\s\-](.+)$ : a handler error that is sent as it is. */
  predicate IsReplyText(s: string) {
    && |s| >= 5
    && '2' <= s[0] <= '5' && IsDigit(s[1]) && IsDigit(s[2])
    && (IsBlank(s[3]) || s[3] == '-')
    && '\n' !in s[4..]
  }

  // ---- What a client writes is what the server reads ----

  lemma {:induction false} AfterLastAt(a: string, c: char)
    ensures AfterLast(a + [c], c) == |a| + 1
  {
  }

  function AsSent(line: string): string {
    line + "\r\n"
  }

  /** One command as it travels: a line, its word and its arguments. */
  lemma ReadsBack(word: string, args: string)
    requires word != "" && ' ' !in word && Trimmed(word) && Trimmed(args) && args != ""
    ensures var line := word + " " + args;
            Trim(AsSent(line)) == line && FirstWord(line) == Upper(word) && Rest(line) == args
  {
    var line := word + " " + args;
    assert line[|line| - 1] == args[|args| - 1];
    TrimLineEnd(line);
    FindAt(word, ' ', args);
    assert line == word + [' '] + args;
    assert line[..|word|] == word && line[|word| + 1..] == args;
    TrimTrims(args);
  }

  lemma BareWordReadsBack(word: string)
    requires word != "" && ' ' !in word && Trimmed(word)
    ensures Trim(AsSent(word)) == word && FirstWord(word) == Upper(word) && Rest(word) == ""
  {
    TrimLineEnd(word);
    FindNone(word, ' ');
    assert word[..|word|] == word;
  }

  /** An address written as `KEY<address>` is found whole, whatever brackets it holds. */
  lemma BracketedReadsBack(word: string, key: string, min: nat, address: string)
    requires Lower(word) == key && |address| >= min && word != "" && Trimmed(word + ">")
    ensures var args := word + "<" + address + ">";
            && Trimmed(args)
            && Bracketed(args, key, min, 0) == Some((|word| + 1, |args| - 1))
            && args[|word| + 1..|args| - 1] == address
  {
    var args := word + "<" + address + ">";
    AfterLastAt(word + "<" + address, '>');
    assert args == (word + "<" + address) + ['>'];
    assert args[0..|word|] == word;
    assert (word + ">")[0] == args[0];
    assert Opening(args, key, 0) == Some(|word| + 1);
  }

  lemma MailReadsBack(address: string)
    ensures var line := "MAIL " + ("FROM:" + "<" + address + ">");
            && Trim(AsSent(line)) == line && VerbOf(line) == MAIL
            && MatchMail(Rest(line)) == Some(MailArgs(address, false, ""))
  {
    var args := "FROM:" + "<" + address + ">";
    LowerWord();
    BracketedReadsBack("FROM:", "from:", 0, address);
    ReadsBack("MAIL", args);
    assert "MAIL" + " " + args == "MAIL " + args;
  }

  lemma LowerWord()
    ensures Lower("FROM:") == "from:" && Lower("TO:") == "to:"
    ensures Upper("MAIL") == "MAIL" && Upper("RCPT") == "RCPT"
  {
  }

  lemma RcptReadsBack(address: string)
    requires address != ""
    ensures var line := "RCPT " + ("TO:" + "<" + address + ">");
            && Trim(AsSent(line)) == line && VerbOf(line) == RCPT
            && MatchRcpt(Rest(line)) == Some(address)
  {
    var args := "TO:" + "<" + address + ">";
    LowerWord();
    BracketedReadsBack("TO:", "to:", 1, address);
    ReadsBack("RCPT", args);
    assert "RCPT" + " " + args == "RCPT " + args;
  }

  lemma DataReadsBack()
    ensures Trim(AsSent("DATA")) == "DATA" && VerbOf("DATA") == DATA
  {
    BareWordReadsBack("DATA");
    assert Upper("DATA") == "DATA";
  }
}
