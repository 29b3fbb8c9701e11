/** ASCII text helpers with the behaviour of the Go library calls the bridge relies on.
    A byte of the original is a `char` here. */
module Text {
  import opened Seqs

  datatype Option<+T> = None | Some(value: T)

  const MAX_INT64: int := 0x7FFF_FFFF_FFFF_FFFF

  type Time = int  // nanoseconds

  // ---- Searching ----

  /** Index of the first `c` at or after `i`, or |s| when there is none. */
  function FindFrom(s: string, c: char, i: nat): (r: nat)
    requires i <= |s|
    ensures i <= r <= |s|
    ensures r < |s| ==> s[r] == c
    decreases |s| - i
  {
    if i == |s| || s[i] == c then i else FindFrom(s, c, i + 1)
  }

  function Find(s: string, c: char): (r: nat)
    ensures r <= |s|
    ensures r < |s| ==> s[r] == c
  {
    FindFrom(s, c, 0)
  }

  lemma {:induction false} FindFromIs(s: string, c: char, i: nat, r: nat)
    requires i <= r <= |s| && c !in s[i..r] && (r < |s| ==> s[r] == c)
    ensures FindFrom(s, c, i) == r
    decreases |s| - i
  {
    if i < r {
      assert s[i] == s[i..r][0];
      assert s[i + 1..r] == s[i..r][1..];
      FindFromIs(s, c, i + 1, r);
    }
  }

  lemma {:induction false} FindFromFirst(s: string, c: char, i: nat, j: nat)
    requires i <= |s| && i <= j < FindFrom(s, c, i)
    ensures s[j] != c
    decreases |s| - i
  {
    if i < j {
      FindFromFirst(s, c, i + 1, j);
    }
  }

  lemma FindFirst(s: string, c: char)
    ensures c !in s[..Find(s, c)]
  {
    forall j | 0 <= j < Find(s, c)
      ensures s[..Find(s, c)][j] != c
    {
      FindFromFirst(s, c, 0, j);
    }
  }

  /** The first `c` is where it is seen to be, whatever follows. */
  lemma FindAt(a: string, c: char, b: string)
    requires c !in a
    ensures Find(a + [c] + b, c) == |a|
  {
    var s := a + [c] + b;
    assert s[0..|a|] == a;
    FindFromIs(s, c, 0, |a|);
  }

  lemma FindBefore(s: string, c: char, j: nat)
    requires j < |s| && s[j] == c
    ensures Find(s, c) <= j
  {
    if j < Find(s, c) {
      FindFromFirst(s, c, 0, j);
    }
  }

  lemma FindPrefix(a: string, c: char, b: string)
    requires Find(a, c) < |a|
    ensures Find(a + b, c) == Find(a, c)
  {
    var r := Find(a, c);
    FindFirst(a, c);
    assert (a + b)[0..r] == a[..r];
    FindFromIs(a + b, c, 0, r);
  }

  lemma FindNone(s: string, c: char)
    requires c !in s
    ensures Find(s, c) == |s|
  {
    assert s[0..|s|] == s;
    FindFromIs(s, c, 0, |s|);
  }

  // ---- Lines ----

  /** Text up to and including its only LF. */
  predicate IsLine(s: string) {
    s != "" && Find(s, '\n') == |s| - 1
  }

  predicate HasLine(s: string) {
    Find(s, '\n') < |s|
  }

  function FirstLine(s: string): (line: string)
    requires HasLine(s)
    ensures line != ""
  {
    s[..Find(s, '\n') + 1]
  }

  function AfterLine(s: string): (rest: string)
    requires HasLine(s)
    ensures |rest| < |s|
  {
    s[Find(s, '\n') + 1..]
  }

  lemma LineFirst(line: string, rest: string)
    requires IsLine(line)
    ensures HasLine(line + rest) && FirstLine(line + rest) == line && AfterLine(line + rest) == rest
  {
    FindPrefix(line, '\n', rest);
    DropAppended(line, rest);
  }

  lemma MakeLine(s: string)
    requires '\n' !in s
    ensures IsLine(s + "\n") && IsLine(s + "\r\n")
  {
    FindAt(s, '\n', "");
    assert s + ['\n'] + "" == s + "\n";
    FindAt(s + "\r", '\n', "");
    assert s + "\r" + ['\n'] + "" == s + "\r\n";
  }

  lemma FirstLineIsLine(s: string)
    requires HasLine(s)
    ensures IsLine(FirstLine(s)) && s == FirstLine(s) + AfterLine(s)
  {
    var i := Find(s, '\n');
    Parts(s, i + 1);
    FindFirst(s, '\n');
    FindAt(s[..i], '\n', "");
    assert s[..i] + ['\n'] + "" == s[..i + 1];
  }

  /** Index just past the last `c`, or 0 when there is none. */
  function AfterLast(s: string, c: char): (i: nat)
    ensures i <= |s|
    ensures c !in s[i..]
    ensures 0 < i ==> s[i - 1] == c
  {
    if s == "" then 0
    else if s[|s| - 1] == c then |s|
    else
      var i := AfterLast(s[..|s| - 1], c);
      assert s[i..] == s[..|s| - 1][i..] + [s[|s| - 1]];
      i
  }

  // ---- Case and white space ----

  predicate IsSpace(c: char) {
    c == ' ' || '\t' <= c <= '\r'
  }

  predicate IsDigit(c: char) {
    '0' <= c <= '9'
  }

  function UpperChar(c: char): char {
    if 'a' <= c <= 'z' then c - 32 as char else c
  }

  function LowerChar(c: char): char {
    if 'A' <= c <= 'Z' then c + 32 as char else c
  }

  function Upper(s: string): (r: string)
    ensures |r| == |s|
  {
    seq(|s|, i requires 0 <= i < |s| => UpperChar(s[i]))
  }

  function Lower(s: string): (r: string)
    ensures |r| == |s|
  {
    seq(|s|, i requires 0 <= i < |s| => LowerChar(s[i]))
  }

  function TrimLeft(s: string): string {
    if s != "" && IsSpace(s[0]) then TrimLeft(s[1..]) else s
  }

  function TrimRight(s: string): string {
    if s != "" && IsSpace(s[|s| - 1]) then TrimRight(s[..|s| - 1]) else s
  }

  function Trim(s: string): string {
    TrimRight(TrimLeft(s))
  }

  predicate Trimmed(s: string) {
    s == "" || (!IsSpace(s[0]) && !IsSpace(s[|s| - 1]))
  }

  lemma TrimLeftStarts(s: string)
    ensures TrimLeft(s) == "" || !IsSpace(TrimLeft(s)[0])
  {
  }

  lemma {:induction false} TrimRightEnds(s: string)
    requires s == "" || !IsSpace(s[0])
    ensures var r := TrimRight(s); Trimmed(r) && (s != "" ==> r != "" && r[0] == s[0])
  {
    if s != "" && IsSpace(s[|s| - 1]) {
      TrimRightEnds(s[..|s| - 1]);
    }
  }

  /** TrimSpace leaves nothing to trim, and leaves trimmed text alone. */
  lemma TrimTrims(s: string)
    ensures Trimmed(Trim(s))
    ensures Trimmed(s) <==> Trim(s) == s
  {
    TrimLeftStarts(s);
    TrimRightEnds(TrimLeft(s));
  }

  lemma {:induction false} TrimLeftShorter(s: string)
    ensures |TrimLeft(s)| <= |s| && (|TrimLeft(s)| == |s| ==> TrimLeft(s) == s)
  {
    if s != "" && IsSpace(s[0]) {
      TrimLeftShorter(s[1..]);
    }
  }

  lemma {:induction false} TrimRightPrefix(s: string)
    ensures TrimRight(s) <= s
  {
    if s != "" && IsSpace(s[|s| - 1]) {
      TrimRightPrefix(s[..|s| - 1]);
    }
  }

  /** Trimming changes the length or nothing. */
  lemma TrimShorter(s: string)
    ensures |Trim(s)| <= |s| && (|Trim(s)| == |s| ==> Trim(s) == s)
  {
    TrimLeftShorter(s);
    TrimRightPrefix(TrimLeft(s));
  }

  lemma {:induction false} TrimRightKeeps(s: string, j: nat)
    requires j < |s| && !IsSpace(s[j])
    ensures |TrimRight(s)| > j
  {
    if IsSpace(s[|s| - 1]) {
      TrimRightKeeps(s[..|s| - 1], j);
    }
  }

  /** It goes no further than the first and the last character that is no space. */
  lemma TrimKeeps(s: string, j: nat)
    requires j < |s| && !IsSpace(s[0]) && !IsSpace(s[j])
    ensures |Trim(s)| > j && Trim(s) <= s
  {
    TrimRightPrefix(s);
    TrimRightKeeps(s, j);
  }

  /** Trimming on the left stops before the last character of `t` if that is no space. */
  lemma {:induction false} TrimLeftStops(t: string, u: string)
    requires t != "" && !IsSpace(t[|t| - 1])
    ensures var l := TrimLeft(t); TrimLeft(t + u) == l + u && l != "" && l[|l| - 1] == t[|t| - 1] && !IsSpace(l[0])
  {
    if IsSpace(t[0]) {
      ConcatTail(t, u);
      TrimLeftStops(t[1..], u);
    }
  }

  /** A text line loses exactly its line ending. */
  lemma TrimLineEnd(s: string)
    requires s != "" && Trimmed(s)
    ensures Trim(s + "\r\n") == s
  {
    var t := s + "\r\n";
    assert TrimLeft(t) == t;
    assert t[..|t| - 1] == s + "\r";
    assert (s + "\r")[..|s|] == s;
    assert TrimRight(s + "\r") == TrimRight(s) == s;
  }

  predicate HasPrefix(s: string, p: string) {
    |p| <= |s| && s[..|p|] == p
  }

  // ---- Decimal numbers ----

  function DigitChar(d: nat): (c: char)
    requires d < 10
    ensures IsDigit(c)
  {
    '0' + d as char
  }

  function DigitValue(c: char): (d: nat)
    requires IsDigit(c)
    ensures d < 10
  {
    (c - '0') as nat
  }

  predicate AllDigits(s: string) {
    forall c :: c in s ==> IsDigit(c)
  }

  function Digits(n: nat): (s: string)
    ensures s != ""
    ensures AllDigits(s)
  {
    if n < 10 then [DigitChar(n)] else Digits(n / 10) + [DigitChar(n % 10)]
  }

  function Value(s: string): nat
    requires AllDigits(s)
  {
    if s == "" then 0 else 10 * Value(s[..|s| - 1]) + DigitValue(s[|s| - 1])
  }

  lemma {:induction false} ValueOfDigits(n: nat)
    ensures Value(Digits(n)) == n
  {
    var s := Digits(n);
    if n >= 10 {
      ValueOfDigits(n / 10);
      assert s[..|s| - 1] == Digits(n / 10);
    } else {
      assert s[..|s| - 1] == "";
    }
  }

  lemma ThreeDigits(s: string)
    requires |s| == 3 && AllDigits(s)
    ensures Value(s) == 100 * DigitValue(s[0]) + 10 * DigitValue(s[1]) + DigitValue(s[2])
  {
    assert s[..2][..1] == [s[0]] && s[..2][1] == s[1];
    assert Value(s[..2]) == 10 * Value([s[0]]) + DigitValue(s[1]);
    assert [s[0]][..0] == "";
    assert Value([s[0]]) == DigitValue(s[0]);
  }

  /** strconv.Itoa */
  function Itoa(n: int): (s: string)
    ensures s != ""
  {
    if n < 0 then "-" + Digits(-n) else Digits(n)
  }

  /** strconv.Atoi: an optional sign, then digits, within 64 bits. */
  function Atoi(s: string): Option<int> {
    var signed := s != "" && (s[0] == '-' || s[0] == '+');
    var digits := if signed then s[1..] else s;
    if digits == "" || !AllDigits(digits) then None
    else
      var v: int := if s[0] == '-' then 0 - Value(digits) else Value(digits);
      if -MAX_INT64 - 1 <= v <= MAX_INT64 then Some(v) else None
  }

  /** Printing a number and reading it back is the identity, within 64 bits. */
  lemma AtoiItoa(n: int)
    ensures Atoi(Itoa(n)) == if -MAX_INT64 - 1 <= n <= MAX_INT64 then Some(n) else None
  {
    var s := Itoa(n);
    ValueOfDigits(if n < 0 then -n else n);
    if n < 0 {
      assert s[1..] == Digits(-n);
    } else {
      assert s[0] in s;
    }
  }

  lemma ItoaInjective(m: int, n: int)
    requires Itoa(m) == Itoa(n)
    ensures m == n
  {
    var s := Itoa(m);
    ValueOfDigits(if m < 0 then -m else m);
    ValueOfDigits(if n < 0 then -n else n);
    assert m < 0 ==> s[0] == '-' && s[1..] == Digits(-m);
    assert n < 0 ==> s[0] == '-' && s[1..] == Digits(-n);
    assert m >= 0 ==> s[0] in Digits(m);
    assert n >= 0 ==> s[0] in Digits(n);
  }

  /** Decimal numbers have no letters, so changing case leaves them alone. */
  lemma LowerItoa(n: int)
    ensures Lower(Itoa(n)) == Itoa(n)
    ensures Trimmed(Itoa(n))
  {
    var s := Itoa(n);
    var d := Digits(if n < 0 then -n else n);
    assert forall c :: c in d ==> LowerChar(c) == c && !IsSpace(c);
    forall i | 0 <= i < |s|
      ensures LowerChar(s[i]) == s[i] && !IsSpace(s[i])
    {
      assert s[i] == '-' || s[i] in d;
    }
  }

  // ---- Lists of text ----

  function Concat(parts: seq<string>): string {
    if parts == [] then "" else parts[0] + Concat(parts[1..])
  }

  /** strings.Split on one character: always at least one part. */
  function Split(s: string, c: char): (parts: seq<string>)
    ensures |parts| >= 1
    decreases |s|
  {
    var i := Find(s, c);
    if i == |s| then [s] else [s[..i]] + Split(s[i + 1..], c)
  }

  /** The last part is what follows the last separator. */
  lemma {:induction false} SplitLast(a: string, c: char, b: string)
    requires c !in b
    ensures var parts := Split(a + [c] + b, c); parts[|parts| - 1] == b
    decreases |a|
  {
    var s := a + [c] + b;
    var i := Find(s, c);
    FindBefore(s, c, |a|);
    if i == |a| {
      assert s[i + 1..] == b;
      FindNone(b, c);
    } else {
      assert s[i + 1..] == a[i + 1..] + [c] + b;
      SplitLast(a[i + 1..], c, b);
    }
  }
}
