/** The body of a DATA command: `readData` of internal/mhalesmtpd/smtpd.go. */
module SmtpData {
  import opened Seqs
  import opened Text

  /** What reading a body comes to; `rest` is what the connection still holds. */
  datatype BodyRead =
    | Complete(body: string, rest: string)
    | TooLarge(rest: string)
    | Cut  // the connection ended before the terminator

  predicate IsTerminator(line: string) {
    line == ".\r\n" || line == ".\n"
  }

  function Undot(line: string): string {
    if line != "" && line[0] == '.' then line[1..] else line
  }

  /** A limit of zero or less means no limit. */
  predicate Exceeds(size: nat, maxSize: int) {
    maxSize > 0 && size > maxSize
  }

  /** Reads lines up to the terminator, after `body` has been read. */
  function ReadBody(input: string, maxSize: int, body: string): BodyRead
    decreases |input|
  {
    if !HasLine(input) then Cut
    else
      var line, rest := FirstLine(input), AfterLine(input);
      if IsTerminator(line) then Complete(body, rest)
      else if Exceeds(|body| + |Undot(line)|, maxSize) then TooLarge(rest)
      else ReadBody(rest, maxSize, body + Undot(line))
  }

  // ---- Dot-stuffing, section 4.5.2 of RFC 5321 ----

  predicate IsBody(s: string) {
    s == "" || s[|s| - 1] == '\n'
  }

  function Dot(line: string): string {
    if line != "" && line[0] == '.' then "." + line else line
  }

  /** Adds a dot to every line that starts with one. */
  function Stuff(body: string): string
    decreases |body|
  {
    if !HasLine(body) then Dot(body)
    else Dot(FirstLine(body)) + Stuff(AfterLine(body))
  }

  lemma DottedLine(line: string)
    requires IsLine(line)
    ensures IsLine(Dot(line)) && !IsTerminator(Dot(line)) && Undot(Dot(line)) == line
  {
    var d := Dot(line);
    FindFirst(line, '\n');
    assert d == d[..|d| - 1] + ['\n'] + "";
    assert d[..|d| - 1] == Dot(line[..|line| - 1]);
    assert forall i :: 0 <= i < |line| - 1 ==> line[i] == line[..|line| - 1][i];
    FindAt(d[..|d| - 1], '\n', "");
  }

  /** One line of a stuffed body is read back as the line it was. */
  lemma ReadStuffedLine(line: string, rest: string, maxSize: int, done: string)
    requires IsLine(line)
    ensures ReadBody(Dot(line) + rest, maxSize, done)
         == if Exceeds(|done| + |line|, maxSize) then TooLarge(rest) else ReadBody(rest, maxSize, done + line)
  {
    DottedLine(line);
    LineFirst(Dot(line), rest);
  }

  lemma BodyLines(body: string)
    requires IsBody(body) && body != ""
    ensures HasLine(body) && IsBody(AfterLine(body))
  {
    FindBefore(body, '\n', |body| - 1);
  }

  lemma TerminatorIsLine(end: string)
    requires IsTerminator(end)
    ensures IsLine(end)
  {
    MakeLine(".");
    assert "." + "\r\n" == ".\r\n" && "." + "\n" == ".\n";
  }

  /** Reading undoes stuffing: a stuffed body and its terminator give back the body
      and leave exactly what follows. */
  lemma {:induction false} ReadStuffed(body: string, end: string, rest: string, maxSize: int, done: string)
    requires IsBody(body) && IsTerminator(end)
    requires !Exceeds(|done| + |body|, maxSize)
    ensures ReadBody(Stuff(body) + end + rest, maxSize, done) == Complete(done + body, rest)
    decreases |body|
  {
    if body == "" {
      TerminatorIsLine(end);
      LineFirst(end, rest);
      assert Stuff("") + end + rest == end + rest;
      assert done + body == done;
    } else {
      BodyLines(body);
      FirstLineIsLine(body);
      var line, more := FirstLine(body), AfterLine(body);
      ReadStuffedLine(line, Stuff(more) + end + rest, maxSize, done);
      Assoc(Dot(line), Stuff(more), end);
      Assoc(Dot(line), Stuff(more) + end, rest);
      ReadStuffed(more, end, rest, maxSize, done + line);
      Assoc(done, line, more);
    }
  }

  /** With a limit, reading fails exactly when the body is over it, and then it stops
      inside the stuffed text. */
  lemma {:induction false} ReadStuffedTooLarge(body: string, end: string, rest: string, maxSize: int, done: string)
    requires IsBody(body) && IsTerminator(end)
    requires !Exceeds(|done|, maxSize) && Exceeds(|done| + |body|, maxSize)
    ensures ReadBody(Stuff(body) + end + rest, maxSize, done).TooLarge?
    decreases |body|
  {
    BodyLines(body);
    FirstLineIsLine(body);
    var line, more := FirstLine(body), AfterLine(body);
    ReadStuffedLine(line, Stuff(more) + end + rest, maxSize, done);
    Assoc(Dot(line), Stuff(more), end);
    Assoc(Dot(line), Stuff(more) + end, rest);
    if !Exceeds(|done| + |line|, maxSize) {
      ReadStuffedTooLarge(more, end, rest, maxSize, done + line);
    }
  }

  /** `readData` undoes dot-stuffing, for every body, terminator, following text and
      limit; it succeeds if and only if the body is within the limit. */
  lemma UnstuffsExactly(body: string, end: string, rest: string, maxSize: int)
    requires IsBody(body) && IsTerminator(end)
    ensures var r := ReadBody(Stuff(body) + end + rest, maxSize, "");
            if Exceeds(|body|, maxSize) then r.TooLarge? else r == Complete(body, rest)
  {
    if Exceeds(|body|, maxSize) {
      ReadStuffedTooLarge(body, end, rest, maxSize, "");
    } else {
      ReadStuffed(body, end, rest, maxSize, "");
      assert "" + body == body;
    }
  }

  /** Whatever is read is a body within the limit, and what is left comes after a
      terminator. */
  lemma {:induction false} ReadsBodies(input: string, maxSize: int, done: string)
    requires IsBody(done) && !Exceeds(|done|, maxSize)
    ensures match ReadBody(input, maxSize, done)
            case Complete(body, rest) =>
              && IsBody(body) && !Exceeds(|body|, maxSize) && done <= body
              && |rest| + 2 <= |input| && rest == input[|input| - |rest|..]
            case TooLarge(rest) => |rest| < |input| && rest == input[|input| - |rest|..]
            case Cut => true
    decreases |input|
  {
    if HasLine(input) {
      var line, rest := FirstLine(input), AfterLine(input);
      if !IsTerminator(line) && !Exceeds(|done| + |Undot(line)|, maxSize) {
        assert line != ".\n" && line[|line| - 1] == '\n';
        ReadsBodies(rest, maxSize, done + Undot(line));
      }
    }
  }
}
