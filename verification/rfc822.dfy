/** Attachment bodies: `writeMIMEBase64Lines` of internal/imapbackend/rfc822.go. */
module Rfc822 {
  import opened Text
  import opened Base64

  const LINE_LEN: nat := 76

  /** The io.Writer a message is assembled in. */
  class Buffer {
    var contents: string

    constructor ()
      ensures contents == ""
    {
      contents := "";
    }

    method Write(p: string)
      modifies this
      ensures contents == old(contents) + p
    {
      contents := contents + p;
    }
  }

  /** Text lines, each followed by CRLF. */
  function CrlfLines(lines: seq<string>): string {
    if lines == [] then "" else lines[0] + "\r\n" + CrlfLines(lines[1..])
  }

  /** `lines` is a wrapping of `s`: all but the last line are full, the last is not
      empty, and nothing is lost (section 6.8 of RFC 2045). */
  ghost predicate WrapsTo(s: string, lines: seq<string>) {
    && Concat(lines) == s
    && forall k :: 0 <= k < |lines| ==>
         && 1 <= |lines[k]| <= LINE_LEN
         && (k < |lines| - 1 ==> |lines[k]| == LINE_LEN)
  }

  /** The lines of at most 76 letters that `s` is cut into. */
  function Wrap(s: string): seq<string> {
    if s == "" then []
    else if |s| <= LINE_LEN then [s]
    else [s[..LINE_LEN]] + Wrap(s[LINE_LEN..])
  }

  lemma {:induction false} WrapWraps(s: string)
    ensures WrapsTo(s, Wrap(s))
  {
    if |s| > LINE_LEN {
      WrapWraps(s[LINE_LEN..]);
      var lines, rest := Wrap(s), Wrap(s[LINE_LEN..]);
      assert lines[1..] == rest;
      assert rest != [];
      assert s == s[..LINE_LEN] + s[LINE_LEN..];
    } else if s != "" {
      assert Wrap(s)[1..] == [];
    }
  }

  /** Encodes into `buf`, then writes it out 76 letters at a time. */
  method WriteMIMEBase64Lines(w: Buffer, data: Octets)
    modifies w
    ensures w.contents == old(w.contents) + CrlfLines(Wrap(Encode(data)))
  {
    hide Encode;
    var buf := Encode(data);
    ghost var goal := w.contents + Unwritten(buf, 0);
    assert buf[0..] == buf;
    var i := 0;
    while i < |buf|
      invariant 0 <= i
      invariant goal == w.contents + Unwritten(buf, i)
    {
      var j := i + LINE_LEN;
      if j > |buf| {
        j := |buf|;
      }
      WrapStep(buf, i, j);
      w.Write(buf[i..j]);
      w.Write("\r\n");
      i := i + LINE_LEN;
    }
  }

  function Unwritten(s: string, i: nat): string {
    if i < |s| then CrlfLines(Wrap(s[i..])) else ""
  }

  lemma WrapStep(s: string, i: nat, j: nat)
    requires i < |s| && j == if i + LINE_LEN > |s| then |s| else i + LINE_LEN
    ensures Unwritten(s, i) == s[i..j] + "\r\n" + Unwritten(s, i + LINE_LEN)
  {
    var t := s[i..];
    var rest := if |t| <= LINE_LEN then [] else Wrap(t[LINE_LEN..]);
    assert t[..j - i] == s[i..j];
    assert |t| <= LINE_LEN ==> t == s[i..j];
    assert Wrap(t) == [s[i..j]] + rest;
    assert Wrap(t)[1..] == rest;
    assert |t| > LINE_LEN ==> t[LINE_LEN..] == s[j..];
    assert CrlfLines(Wrap(t)) == s[i..j] + "\r\n" + CrlfLines(rest);
  }

  lemma {:induction false} DropCrlfLines(lines: seq<string>)
    ensures DropLineBreaks(CrlfLines(lines)) == DropLineBreaks(Concat(lines))
  {
    if lines != [] {
      DropCrlfLines(lines[1..]);
      DropConcat(lines[0] + "\r\n", CrlfLines(lines[1..]));
      DropConcat(lines[0], "\r\n");
      DropConcat(lines[0], Concat(lines[1..]));
      assert DropLineBreaks("\r\n") == DropLineBreaks("\n") == "";
    }
  }

  /** What the writer produces for `data` decodes to `data`, for all octets. */
  lemma WrappedRoundTrip(data: Octets)
    ensures WrapsTo(Encode(data), Wrap(Encode(data)))
    ensures Decode(CrlfLines(Wrap(Encode(data)))) == Some(data)
  {
    WrapWraps(Encode(data));
    DropCrlfLines(Wrap(Encode(data)));
    DecodeEncode(data);
    DropNothing(Encode(data));
  }
}
