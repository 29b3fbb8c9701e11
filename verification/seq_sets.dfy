/** Which messages a sequence set addresses, internal/imapbackend/mailbox.go. */
module SeqSets {

  const MAX_UID: nat := 0xFFFF_FFFF

  type Uid = n: nat | n <= MAX_UID

  /** A message as the mailbox list shows it. */
  datatype Summary = Summary(id: int, read: bool, important: bool)

  // ---- Section 9 of RFC 3501 ----

  /** A seq-number: a number, or `*` for the largest one in use. */
  datatype SeqNumber = Num(n: nat) | Star

  /** seq-number or seq-number ":" seq-number */
  datatype SeqRange = One(at: SeqNumber) | Between(from: SeqNumber, to: SeqNumber)

  function Meaning(n: SeqNumber, largest: nat): nat {
    if n.Star? then largest else n.n
  }

  /** The bounds of a range come in either order. */
  predicate RangeAddresses(r: SeqRange, id: nat, largest: nat) {
    match r
    case One(at) => id == Meaning(at, largest)
    case Between(from, to) =>
      var a, b := Meaning(from, largest), Meaning(to, largest);
      a <= id <= b || b <= id <= a
  }

  predicate Addresses(ranges: seq<SeqRange>, id: nat, largest: nat) {
    exists i :: 0 <= i < |ranges| && RangeAddresses(ranges[i], id, largest)
  }

  // ---- As go-imap keeps it ----

  /** First and last number; 0 stands for `*`, which is put last. */
  datatype Interval = Interval(start: nat, stop: nat)

  function Normal(r: SeqRange): Interval {
    match r
    case One(Num(n)) => Interval(n, n)
    case One(Star) => Interval(0, 0)
    case Between(Star, Star) => Interval(0, 0)
    case Between(Star, Num(n)) => Interval(n, 0)
    case Between(Num(n), Star) => Interval(n, 0)
    case Between(Num(a), Num(b)) => if a <= b then Interval(a, b) else Interval(b, a)
  }

  /** A number is in `n:*` from n on, but in `*` alone there is none. */
  predicate IntervalContains(v: Interval, q: nat) {
    v.start != 0 && v.start <= q && (q <= v.stop || v.stop == 0)
  }

  predicate Contains(ranges: seq<SeqRange>, q: nat) {
    exists i :: 0 <= i < |ranges| && IntervalContains(Normal(ranges[i]), q)
  }

  /** Mentions `*`. */
  predicate Dynamic(ranges: seq<SeqRange>) {
    exists i :: 0 <= i < |ranges| && Normal(ranges[i]).stop == 0
  }

  /** seqSetAddressesMessage */
  predicate SeqSetAddressesMessage(uid: bool, ranges: seq<SeqRange>, matchId: nat, maxSeq: nat, maxUid: nat) {
    if ranges == [] || matchId == 0 then false
    else if Contains(ranges, matchId) then true
    else if !Dynamic(ranges) then false
    else
      var limit := if uid then maxUid else maxSeq;
      limit != 0 && matchId == limit
  }

  /** Numbers in a set are never 0. */
  predicate WellFormed(ranges: seq<SeqRange>) {
    forall i :: 0 <= i < |ranges| ==>
      match ranges[i]
      case One(at) => at.Num? ==> at.n > 0
      case Between(from, to) => (from.Num? ==> from.n > 0) && (to.Num? ==> to.n > 0)
  }

  lemma RangeMatches(r: SeqRange, id: nat, largest: nat)
    requires WellFormed([r]) && 1 <= id <= largest
    ensures RangeAddresses(r, id, largest)
       <==> IntervalContains(Normal(r), id) || (Normal(r).stop == 0 && id == largest)
  {
    assert [r][0] == r;
  }

  /** For a message whose number is in use, the check decides exactly what section 9 of
      RFC 3501 says, for sequence numbers and for UIDs, with `*` and with `n:*` also
      where n is above the largest number. */
  lemma ChecksRfc3501(uid: bool, ranges: seq<SeqRange>, id: nat, maxSeq: nat, maxUid: nat)
    requires WellFormed(ranges) && 1 <= id <= if uid then maxUid else maxSeq
    ensures SeqSetAddressesMessage(uid, ranges, id, maxSeq, maxUid)
       <==> Addresses(ranges, id, if uid then maxUid else maxSeq)
  {
    var largest := if uid then maxUid else maxSeq;
    forall i | 0 <= i < |ranges|
      ensures RangeAddresses(ranges[i], id, largest)
         <==> IntervalContains(Normal(ranges[i]), id) || (Normal(ranges[i]).stop == 0 && id == largest)
    {
      assert WellFormed([ranges[i]]);
      RangeMatches(ranges[i], id, largest);
    }
  }

  // ---- Over a mailbox ----

  predicate Sorted(s: seq<Summary>) {
    forall i, j :: 0 <= i < j < |s| ==> s[i].id <= s[j].id
  }

  /** uint32(id) */
  function ToUid(id: int): Uid {
    id % (MAX_UID + 1)
  }

  function UidOf(s: Summary): Uid {
    ToUid(s.id)
  }

  /** Ids are distinct and fit an IMAP unique identifier. */
  predicate HasUids(s: seq<Summary>) {
    && (forall i :: 0 <= i < |s| ==> 1 <= s[i].id <= MAX_UID)
    && (forall i, j :: 0 <= i < j < |s| ==> s[i].id != s[j].id)
  }

  function MaxUid(s: seq<Summary>): (m: Uid)
    ensures forall i :: 0 <= i < |s| ==> UidOf(s[i]) <= m
    ensures m == 0 || exists i :: 0 <= i < |s| && UidOf(s[i]) == m
  {
    if s == [] then 0
    else
      var m := MaxUid(s[..|s| - 1]);
      var u := UidOf(s[|s| - 1]);
      if u > m then u else m
  }

  /** The loop of mailboxMaxSeqAndUID. */
  method MailboxMaxSeqAndUid(sums: seq<Summary>) returns (maxSeq: nat, maxUid: Uid)
    ensures maxSeq == |sums| && maxUid == MaxUid(sums)
  {
    maxSeq := |sums|;
    maxUid := 0;
    for i := 0 to |sums|
      invariant maxUid == MaxUid(sums[..i])
    {
      assert sums[..i + 1][..i] == sums[..i];
      if UidOf(sums[i]) > maxUid {
        maxUid := UidOf(sums[i]);
      }
    }
    assert sums[..|sums|] == sums;
  }

  /** Whether a command on `ranges` applies to the message at index `i`. */
  predicate Selected(uid: bool, ranges: seq<SeqRange>, sums: seq<Summary>, i: nat)
    requires i < |sums|
  {
    SeqSetAddressesMessage(uid, ranges, if uid then UidOf(sums[i]) else i + 1, |sums|, MaxUid(sums))
  }

  lemma LastIsLargest(sums: seq<Summary>)
    requires Sorted(sums) && HasUids(sums) && sums != []
    ensures MaxUid(sums) == sums[|sums| - 1].id
  {
    var last := |sums| - 1;
    assert UidOf(sums[last]) == sums[last].id;
    var m := MaxUid(sums);
    if m != 0 {
      var i :| 0 <= i < |sums| && UidOf(sums[i]) == m;
      assert sums[i].id <= sums[last].id;
    }
  }

  /** In a sorted mailbox a command reaches exactly the messages section 9 of RFC 3501
      names: by position, or by id. */
  lemma SelectedIsRfc3501(uid: bool, ranges: seq<SeqRange>, sums: seq<Summary>, i: nat)
    requires WellFormed(ranges) && Sorted(sums) && HasUids(sums) && i < |sums|
    ensures Selected(uid, ranges, sums, i)
       <==> if uid then Addresses(ranges, sums[i].id, sums[|sums| - 1].id) else Addresses(ranges, i + 1, |sums|)
  {
    hide SeqSetAddressesMessage, Addresses, MaxUid, WellFormed;
    LastIsLargest(sums);
    assert UidOf(sums[i]) == sums[i].id;
    assert sums[i].id <= sums[|sums| - 1].id;
    ChecksRfc3501(uid, ranges, if uid then sums[i].id else i + 1, |sums|, MaxUid(sums));
  }

  /** `*` selects one message, the last, whether numbers are positions or ids. */
  lemma StarIsLast(sums: seq<Summary>, i: nat)
    requires Sorted(sums) && HasUids(sums) && i < |sums|
    ensures Selected(true, [One(Star)], sums, i) <==> i == |sums| - 1
    ensures Selected(false, [One(Star)], sums, i) <==> i == |sums| - 1
  {
    SelectedIsRfc3501(true, [One(Star)], sums, i);
    SelectedIsRfc3501(false, [One(Star)], sums, i);
    assert [One(Star)][0] == One(Star);
    assert i < |sums| - 1 ==> sums[i].id != sums[|sums| - 1].id;
  }
}
