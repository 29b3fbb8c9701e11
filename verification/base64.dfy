/** The standard Base64 alphabet with padding (section 4 of RFC 4648), as Go's
    `base64.StdEncoding` encodes and decodes it. Both directions go through
    six-bit values, with PAD standing for '='. */
module Base64 {
  import opened Text

  type Octet = n: nat | n < 256
  type Octets = seq<Octet>

  const PAD: nat := 64
  type Sextet = n: nat | n <= PAD

  // ---- Octets and sextets ----

  /** Three octets become four sextets; a short last group is padded. */
  function Group(data: Octets): (q: seq<Sextet>)
    ensures |q| == (|data| + 2) / 3 * 4
  {
    if |data| == 0 then []
    else if |data| == 1 then
      [data[0] / 4, data[0] % 4 * 16, PAD, PAD]
    else if |data| == 2 then
      [data[0] / 4, data[0] % 4 * 16 + data[1] / 16, data[1] % 16 * 4, PAD]
    else
      [data[0] / 4, data[0] % 4 * 16 + data[1] / 16, data[1] % 16 * 4 + data[2] / 64, data[2] % 64]
      + Group(data[3..])
  }

  /** Padding is required and may only end the text; unused bits of the last
      sextet are ignored. */
  function Ungroup(q: seq<Sextet>): Option<Octets> {
    if q == [] then Some([])
    else if |q| < 4 || q[0] == PAD || q[1] == PAD then None
    else
      var w: nat, x: nat, y: nat, z: nat := q[0], q[1], q[2], q[3];
      var first: Octet := w * 4 + x / 16;
      if q[2] == PAD then
        if q[3] == PAD && |q| == 4 then Some([first]) else None
      else
        var second: Octet := x % 16 * 16 + y / 4;
        if q[3] == PAD then
          if |q| == 4 then Some([first, second]) else None
        else
          var third: Octet := y % 4 * 64 + z;
          match Ungroup(q[4..])
          case None => None
          case Some(rest) => Some([first, second, third] + rest)
  }

  /** Cutting 24 bits into four sextets loses nothing. */
  lemma Regroup(a: Octet, b: Octet, c: Octet)
    ensures var w, x, y, z := a / 4, a % 4 * 16 + b / 16, b % 16 * 4 + c / 64, c % 64;
            && w < PAD && x < PAD && y < PAD && z < PAD
            && w * 4 + x / 16 == a && x % 16 * 16 + y / 4 == b && y % 4 * 64 + z == c
  {
  }

  lemma UngroupFour(w: Sextet, x: Sextet, y: Sextet, z: Sextet, q: seq<Sextet>, data: Octets)
    requires w < PAD && x < PAD && y < PAD && z < PAD && Ungroup(q) == Some(data)
    ensures Ungroup([w, x, y, z] + q) == Some([w * 4 + x / 16, x % 16 * 16 + y / 4, y % 4 * 64 + z] + data)
  {
    assert ([w, x, y, z] + q)[4..] == q;
  }

  lemma UngroupShort(a: Octet, b: Octet)
    ensures Ungroup(Group([a])) == Some([a]) && Ungroup(Group([a, b])) == Some([a, b])
  {
    Regroup(a, 0, 0);
    Regroup(a, b, 0);
  }

  lemma {:induction false} UngroupGroup(data: Octets)
    ensures Ungroup(Group(data)) == Some(data)
  {
    hide Ungroup;
    if data == [] {
      assert Ungroup([]) == Some([]) by { UngroupNothing(); }
    } else if |data| == 1 {
      UngroupShort(data[0], 0);
      assert data == [data[0]];
    } else if |data| == 2 {
      UngroupShort(data[0], data[1]);
      assert data == [data[0], data[1]];
    } else {
      var a, b, c := data[0], data[1], data[2];
      Regroup(a, b, c);
      UngroupGroup(data[3..]);
      UngroupFour(a / 4, a % 4 * 16 + b / 16, b % 16 * 4 + c / 64, c % 64, Group(data[3..]), data[3..]);
      assert data == [a, b, c] + data[3..];
    }
  }

  lemma UngroupNothing()
    ensures Ungroup([]) == Some([])
  {
  }

  // ---- Sextets and letters ----

  function Letter(v: Sextet): (c: char)
    ensures c != '\r' && c != '\n'
  {
    if v < 26 then 'A' + v as char
    else if v < 52 then 'a' + (v - 26) as char
    else if v < 62 then '0' + (v - 52) as char
    else if v == 62 then '+'
    else if v == 63 then '/'
    else '='
  }

  function ValueOf(c: char): Option<Sextet> {
    if 'A' <= c <= 'Z' then Some((c - 'A') as nat)
    else if 'a' <= c <= 'z' then Some((c - 'a') as nat + 26)
    else if '0' <= c <= '9' then Some((c - '0') as nat + 52)
    else if c == '+' then Some(62)
    else if c == '/' then Some(63)
    else if c == '=' then Some(PAD)
    else None
  }

  lemma ValueOfLetter(v: Sextet)
    ensures ValueOf(Letter(v)) == Some(v)
  {
  }

  function Letters(q: seq<Sextet>): (s: string)
    ensures |s| == |q|
    ensures '\r' !in s && '\n' !in s
  {
    if q == [] then "" else [Letter(q[0])] + Letters(q[1..])
  }

  function Values(s: string): Option<seq<Sextet>> {
    if s == "" then Some([])
    else
      match (ValueOf(s[0]), Values(s[1..]))
      case (Some(v), Some(rest)) => Some([v] + rest)
      case _ => None
  }

  lemma {:induction false} ValuesOfLetters(q: seq<Sextet>)
    ensures Values(Letters(q)) == Some(q)
  {
    if q != [] {
      ValueOfLetter(q[0]);
      ValuesOfLetters(q[1..]);
      assert Letters(q)[1..] == Letters(q[1..]);
      assert q == [q[0]] + q[1..];
    }
  }

  lemma {:induction false} LettersAreGraphic(q: seq<Sextet>)
    ensures forall c :: c in Letters(q) ==> !IsSpace(c)
  {
    if q != [] {
      LettersAreGraphic(q[1..]);
      assert !IsSpace(Letter(q[0]));
    }
  }

  // ---- Text ----

  predicate IsLineBreak(c: char) {
    c == '\r' || c == '\n'
  }

  function DropLineBreaks(s: string): (r: string)
    ensures '\r' !in r && '\n' !in r
  {
    if s == "" then ""
    else if IsLineBreak(s[0]) then DropLineBreaks(s[1..])
    else [s[0]] + DropLineBreaks(s[1..])
  }

  lemma DropNothing(s: string)
    requires '\r' !in s && '\n' !in s
    ensures DropLineBreaks(s) == s
  {
  }

  lemma {:induction false} DropConcat(s: string, t: string)
    ensures DropLineBreaks(s + t) == DropLineBreaks(s) + DropLineBreaks(t)
  {
    if s == "" {
      assert s + t == t;
    } else {
      var u := s + t;
      assert u[0] == s[0] && u[1..] == s[1..] + t;
      DropConcat(s[1..], t);
    }
  }

  /** StdEncoding.EncodeToString */
  function Encode(data: Octets): (s: string)
    ensures |s| == (|data| + 2) / 3 * 4
    ensures '\r' !in s && '\n' !in s
  {
    Letters(Group(data))
  }

  /** StdEncoding.DecodeString, which skips line breaks. */
  function Decode(s: string): Option<Octets> {
    match Values(DropLineBreaks(s))
    case None => None
    case Some(q) => Ungroup(q)
  }

  /** Encoding and decoding again returns the data, for all octets. */
  lemma DecodeEncode(data: Octets)
    ensures Decode(Encode(data)) == Some(data)
  {
    DropNothing(Encode(data));
    ValuesOfLetters(Group(data));
    UngroupGroup(data);
  }

  // ---- What is decoded at all ----

  /** Where the bits that decoding ignores are, -1 when there are none. */
  function Loose(octets: nat, letters: nat): int {
    if octets % 3 == 1 then letters - 3 else if octets % 3 == 2 then letters - 2 else -1
  }

  /** There is one way to write 24 bits as four sextets. */
  lemma SameBits(a: Octet, b: Octet, c: Octet, w: nat, x: nat, y: nat, z: nat)
    requires w < 64 && x < 64 && y < 64 && z < 64
    requires a * 0x1_0000 + b * 0x100 + c == w * 0x4_0000 + x * 0x1000 + y * 0x40 + z
    ensures w == a / 4 && x == a % 4 * 16 + b / 16 && y == b % 16 * 4 + c / 64 && z == c % 64
  {
    var x1, x0, y1, y0 := x / 16, x % 16, y / 4, y % 4;
    assert a == 4 * w + x1 && b == 16 * x0 + y1 && c == 64 * y0 + z;
  }

  lemma GroupFull(w: nat, x: nat, y: nat, z: nat, data: Octets)
    requires w < 64 && x < 64 && y < 64 && z < 64
    ensures Group([w * 4 + x / 16, x % 16 * 16 + y / 4, y % 4 * 64 + z] + data) == [w, x, y, z] + Group(data)
  {
    var a, b, c := w * 4 + x / 16, x % 16 * 16 + y / 4, y % 4 * 64 + z;
    SameBits(a, b, c, w, x, y, z);
    assert ([a, b, c] + data)[3..] == data;
  }

  lemma GroupShort(q: seq<Sextet>)
    requires |q| >= 4 && (q[2] == PAD || q[3] == PAD) && Ungroup(q).Some?
    ensures var data := Ungroup(q).value;
            && |q| == 4 && |Group(data)| == 4 && Group(data)[0] == q[0]
            && if q[2] == PAD then |data| == 1 && Group(data)[2] == q[2] && Group(data)[3] == q[3]
               else |data| == 2 && Group(data)[1] == q[1] && Group(data)[3] == q[3]
  {
  }

  lemma UngroupStarts(q: seq<Sextet>)
    requires q != [] && Ungroup(q).Some?
    ensures |q| >= 4 && q[0] < 64 && q[1] < 64
    ensures q[2] != PAD && q[3] != PAD ==>
      && Ungroup(q[4..]).Some?
      && var w: nat, x: nat, y: nat, z: nat := q[0], q[1], q[2], q[3];
         Ungroup(q).value == [w * 4 + x / 16, x % 16 * 16 + y / 4, y % 4 * 64 + z] + Ungroup(q[4..]).value
  {
  }

  /** The same but for the loose bits. */
  predicate Agrees(octets: nat, p: seq<Sextet>, q: seq<Sextet>) {
    |p| == |q| && forall i :: 0 <= i < |q| && i != Loose(octets, |q|) ==> p[i] == q[i]
  }

  lemma AgreesLonger(octets: nat, four: seq<Sextet>, p: seq<Sextet>, q: seq<Sextet>)
    requires |four| == 4 && Agrees(octets, p, q)
    ensures Agrees(octets + 3, four + p, four + q)
  {
    assert octets % 3 != 0 ==> Loose(octets + 3, |q| + 4) == Loose(octets, |q|) + 4;
  }

  lemma FirstFour(q: seq<Sextet>)
    requires |q| >= 4
    ensures q == [q[0], q[1], q[2], q[3]] + q[4..]
  {
  }

  lemma FullAgrees(w: nat, x: nat, y: nat, z: nat, q: seq<Sextet>)
    requires w < 64 && x < 64 && y < 64 && z < 64
    requires Ungroup(q).Some? && Agrees(|Ungroup(q).value|, Group(Ungroup(q).value), q)
    ensures var data := [w * 4 + x / 16, x % 16 * 16 + y / 4, y % 4 * 64 + z] + Ungroup(q).value;
            Agrees(|data|, Group(data), [w, x, y, z] + q)
  {
    hide Ungroup, Group, Agrees;
    var rest := Ungroup(q).value;
    GroupFull(w, x, y, z, rest);
    AgreesLonger(|rest|, [w, x, y, z], Group(rest), q);
  }

  lemma LongAgrees(q: seq<Sextet>)
    requires |q| >= 4 && q[2] != PAD && q[3] != PAD && Ungroup(q).Some? && Ungroup(q[4..]).Some?
    requires Agrees(|Ungroup(q[4..]).value|, Group(Ungroup(q[4..]).value), q[4..])
    ensures Agrees(|Ungroup(q).value|, Group(Ungroup(q).value), q)
  {
    hide Ungroup, Group, Agrees;
    UngroupStarts(q);
    FullAgrees(q[0], q[1], q[2], q[3], q[4..]);
    FirstFour(q);
  }

  lemma ShortAgrees(q: seq<Sextet>)
    requires |q| >= 4 && (q[2] == PAD || q[3] == PAD) && Ungroup(q).Some?
    ensures Agrees(|Ungroup(q).value|, Group(Ungroup(q).value), q)
  {
    hide Ungroup, Group;
    GroupShort(q);
  }

  lemma {:induction false} GroupUngroup(q: seq<Sextet>)
    requires Ungroup(q).Some?
    ensures Agrees(|Ungroup(q).value|, Group(Ungroup(q).value), q)
    decreases |q|
  {
    if q == [] {
      UngroupNothing();
    } else {
      hide Ungroup, Group, Agrees;
      UngroupStarts(q);
      if q[2] == PAD || q[3] == PAD {
        ShortAgrees(q);
      } else {
        GroupUngroup(q[4..]);
        LongAgrees(q);
      }
    }
  }

  lemma OneLetter(v: Sextet, q: seq<Sextet>)
    ensures Letters([v] + q) == [Letter(v)] + Letters(q)
  {
    assert ([v] + q)[1..] == q;
  }

  lemma {:induction false} LettersOfValues(s: string)
    requires Values(s).Some?
    ensures Letters(Values(s).value) == s
  {
    hide Letter, ValueOf;
    if s != "" {
      LettersOfValues(s[1..]);
      LetterOfValue(s[0]);
      OneLetter(ValueOf(s[0]).value, Values(s[1..]).value);
    }
  }

  lemma LetterOfValue(c: char)
    requires ValueOf(c).Some?
    ensures Letter(ValueOf(c).value) == c
  {
  }

  lemma {:induction false} LettersAt(q: seq<Sextet>, i: nat)
    requires i < |q|
    ensures Letters(q)[i] == Letter(q[i])
  {
    hide Letter;
    if i > 0 {
      LettersAt(q[1..], i - 1);
    }
  }

  /** Only text that is an encoding, but for line breaks and unused bits, is decoded: what
      it decodes to has an encoding of the same length that differs from it at most in the
      last letter before the padding. */
  lemma EncodeDecode(s: string)
    ensures var text := DropLineBreaks(s);
            Decode(s).Some? ==>
              var code := Encode(Decode(s).value);
              && |code| == |text|
              && forall i :: 0 <= i < |text| && i != Loose(|Decode(s).value|, |text|) ==> code[i] == text[i]
  {
    hide Values, Ungroup, Group, Letters, Letter;
    if Decode(s).Some? {
      var text := DropLineBreaks(s);
      var q, data := Values(text).value, Decode(s).value;
      LettersOfValues(text);
      GroupUngroup(q);
      forall i | 0 <= i < |text| && i != Loose(|data|, |text|)
        ensures Encode(data)[i] == text[i]
      {
        LettersAt(q, i);
        LettersAt(Group(data), i);
      }
    }
  }

  // ---- What the encoding is ----

  const UPPER := "ABCDEFGHIJKLMNOPQRSTUVWXYZ"
  const LOWER := "abcdefghijklmnopqrstuvwxyz"
  const DIGITS := "0123456789"

  /** Table 1 of RFC 4648. */
  function Alphabet(): (s: string)
    ensures |s| == 64
  {
    UPPER + LOWER + DIGITS + "+/"
  }

  lemma LetterIs(v: Sextet)
    ensures Letter(v) == if v == PAD then '=' else Alphabet()[v]
  {
    if v < 26 {
      assert Alphabet()[v] == UPPER[v];
    } else if v < 52 {
      assert Alphabet()[v] == LOWER[v - 26];
    } else if v < 62 {
      assert Alphabet()[v] == DIGITS[v - 52];
    }
  }

  /** Three octets, read as one 24-bit number with the first highest, are written as the
      letters of its four sextets (section 4 of RFC 4648). */
  lemma EncodeRfc4648(a: Octet, b: Octet, c: Octet, rest: Octets, w: nat, x: nat, y: nat, z: nat)
    requires w < 64 && x < 64 && y < 64 && z < 64
    requires a * 0x1_0000 + b * 0x100 + c == w * 0x4_0000 + x * 0x1000 + y * 0x40 + z
    ensures Encode([a, b, c] + rest) == [Alphabet()[w], Alphabet()[x], Alphabet()[y], Alphabet()[z]] + Encode(rest)
  {
    hide Letter, Alphabet, Letters;
    SameBits(a, b, c, w, x, y, z);
    assert ([a, b, c] + rest)[3..] == rest;
    FourLetters(w, x, y, z, Group(rest));
  }

  /** One or two octets at the end are filled up with zero bits, and the text with `=`. */
  lemma EncodeEndRfc4648(a: Octet, b: Octet, w: nat, x: nat, y: nat)
    requires w < 64 && x < 64 && y < 64
    requires a * 0x1_0000 + b * 0x100 == w * 0x4_0000 + x * 0x1000 + y * 0x40
    ensures Encode([a, b]) == [Alphabet()[w], Alphabet()[x], Alphabet()[y], '=']
    ensures b == 0 ==> Encode([a]) == [Alphabet()[w], Alphabet()[x], '=', '=']
    ensures Encode([]) == ""
  {
    hide Letter, Alphabet, Letters;
    SameBits(a, b, 0, w, x, y, 0);
    assert [w, x, y, PAD] + [] == [w, x, y, PAD] && [w, x, PAD, PAD] + [] == [w, x, PAD, PAD];
    FourLetters(w, x, y, PAD, []);
    FourLetters(w, x, PAD, PAD, []);
  }

  lemma FourLetters(w: Sextet, x: Sextet, y: Sextet, z: Sextet, q: seq<Sextet>)
    requires w < 64 && x < 64
    ensures Letters([w, x, y, z] + q)
         == [Alphabet()[w], Alphabet()[x], if y == PAD then '=' else Alphabet()[y], if z == PAD then '=' else Alphabet()[z]]
            + Letters(q)
    ensures Letters([]) == ""
  {
    hide Letter, Alphabet;
    LetterIs(w);
    LetterIs(x);
    LetterIs(y);
    LetterIs(z);
    OneLetter(w, [x, y, z] + q);
    OneLetter(x, [y, z] + q);
    OneLetter(y, [z] + q);
    OneLetter(z, q);
    assert [w, x, y, z] + q == [w] + ([x, y, z] + q);
    assert [x, y, z] + q == [x] + ([y, z] + q);
    assert [y, z] + q == [y] + ([z] + q);
  }
}
