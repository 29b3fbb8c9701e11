/** LIST names and the index they are resolved with, internal/imapbackend/names.go and
    user.go. */
module NameIndex {
  import opened MailboxNames
  import opened Text

  // ---- Candidates for a unique name ----

  /** base, `base [param1 param2]`, base~2, base~3, ... */
  function Candidate(base: string, spec: MailboxSpec, i: nat): string {
    if i == 0 then base
    else if i == 1 then base + " [" + spec.param1 + " " + spec.param2 + "]"
    else base + "~" + Itoa(i)
  }

  lemma CandidatesDiffer(base: string, spec: MailboxSpec, i: nat, j: nat)
    requires i < j
    ensures Candidate(base, spec, i) != Candidate(base, spec, j)
  {
    var a, b := Candidate(base, spec, i), Candidate(base, spec, j);
    if i >= 2 {
      if a == b {
        assert a[|base| + 1..] == Itoa(i) && b[|base| + 1..] == Itoa(j);
        ItoaInjective(i, j);
      }
    } else if i == 1 {
      assert a[|base|] == ' ' && b[|base|] == '~';
    } else {
      assert |b| > |base|;
    }
  }

  function FirstCandidates(base: string, spec: MailboxSpec, n: nat): set<string> {
    if n == 0 then {}
    else FirstCandidates(base, spec, n - 1) + {Candidate(base, spec, n - 1)}
  }

  lemma {:induction false} IsFirstCandidate(base: string, spec: MailboxSpec, n: nat, name: string) returns (i: nat)
    requires name in FirstCandidates(base, spec, n)
    ensures i < n && name == Candidate(base, spec, i)
  {
    hide Candidate;
    if name == Candidate(base, spec, n - 1) {
      i := n - 1;
    } else {
      i := IsFirstCandidate(base, spec, n - 1, name);
    }
  }

  lemma {:induction false} CandidateCount(base: string, spec: MailboxSpec, n: nat)
    ensures |FirstCandidates(base, spec, n)| == n
  {
    hide Candidate;
    if n > 0 {
      CandidateCount(base, spec, n - 1);
      LastIsNew(base, spec, n - 1);
      OneMore(FirstCandidates(base, spec, n - 1), Candidate(base, spec, n - 1));
    }
  }

  lemma LastIsNew(base: string, spec: MailboxSpec, n: nat)
    ensures Candidate(base, spec, n) !in FirstCandidates(base, spec, n)
  {
    hide Candidate;
    if Candidate(base, spec, n) in FirstCandidates(base, spec, n) {
      var i := IsFirstCandidate(base, spec, n, Candidate(base, spec, n));
      CandidatesDiffer(base, spec, i, n);
    }
  }

  lemma OneMore<T>(s: set<T>, x: T)
    requires x !in s
    ensures |s + {x}| == |s| + 1
  {
  }

  lemma SubsetSize<T>(a: set<T>, b: set<T>)
    requires a <= b
    ensures |a| <= |b|
  {
    assert b == a + (b - a);
    assert |a + (b - a)| == |a| + |b - a|;
  }

  /** If the first n candidates are taken there are at least n names taken: so at most
      |occupied| + 1 candidates are ever tried. */
  lemma TakenBound(base: string, spec: MailboxSpec, occupied: set<string>, n: nat)
    requires forall i :: 0 <= i < n ==> Candidate(base, spec, i) in occupied
    ensures n <= |occupied|
  {
    hide Candidate;
    CandidateCount(base, spec, n);
    forall name | name in FirstCandidates(base, spec, n)
      ensures name in occupied
    {
      var i := IsFirstCandidate(base, spec, n, name);
    }
    SubsetSize(FirstCandidates(base, spec, n), occupied);
  }

  /** The number of the first candidate, from `i` on, that is not taken. */
  function FirstFree(base: string, spec: MailboxSpec, occupied: set<string>, i: nat): (r: nat)
    requires forall j :: 0 <= j < i ==> Candidate(base, spec, j) in occupied
    ensures i <= r <= |occupied|
    ensures Candidate(base, spec, r) !in occupied
    ensures forall j :: 0 <= j < r ==> Candidate(base, spec, j) in occupied
    decreases |occupied| - i
  {
    TakenBound(base, spec, occupied, i);
    if Candidate(base, spec, i) !in occupied then i
    else
      TakenBound(base, spec, occupied, i + 1);
      FirstFree(base, spec, occupied, i + 1)
  }

  /** The set of names in use, shared by everything listed in one rebuild. */
  class Occupied {
    var names: set<string>

    constructor (names: set<string>)
      ensures this.names == names
    {
      this.names := names;
    }

    /** The probing loop of uniqueDisplayName and uniqueTagDisplayName: takes the first
        candidate that is free, after at most |names| others. */
    method Unique(base: string, spec: MailboxSpec) returns (name: string, ghost tried: nat)
      modifies this
      ensures name !in old(names) && names == old(names) + {name}
      ensures tried <= |old(names)| && name == Candidate(base, spec, tried)
      ensures forall i :: 0 <= i < tried ==> Candidate(base, spec, i) in old(names)
    {
      name := base;
      tried := 0;
      var i := 0;
      while name in names
        invariant names == old(names) && i == tried
        invariant name == Candidate(base, spec, i)
        invariant forall j :: 0 <= j < i ==> Candidate(base, spec, j) in names
        invariant i <= |names|
        decreases |names| - i
      {
        TakenBound(base, spec, names, i + 1);
        if i == 0 {
          name := base + " [" + spec.param1 + " " + spec.param2 + "]";
        } else {
          name := base + "~" + Itoa(i + 1);
        }
        i := i + 1;
        tried := i;
      }
      names := names + {name};
    }
  }

  // ---- What the API lists ----

  datatype Kind = Folder | Tag

  /** A folder or a tag, with the title its owner gave it. */
  datatype Entry = Entry(kind: Kind, id: Id, title: string)

  function Spec(e: Entry): MailboxSpec {
    if e.kind.Folder? then FolderSpec(e.id) else TagSpec(e.id)
  }

  function Alias(e: Entry): string {
    CanonicalName(Spec(e))
  }

  predicate IsReserved(low: string) {
    low in {"inbox", "sent", "drafts", "junk", "spam", "trash", "important"}
  }

  /** The name tried first: the sanitised title, or the id where that is empty or
      reserved; tags get a prefix. */
  function Base(e: Entry): string {
    var clean := Sanitized(e.title);
    var plain := clean != "" && !IsReserved(Lower(clean));
    if e.kind.Folder? then if plain then clean else Alias(e)
    else "Tag-" + if plain then clean else Itoa(e.id)
  }

  type Index = map<string, MailboxSpec>

  const STANDARD_NAMES := ["INBOX", "Sent", "Drafts", "Junk", "Trash", "Important"]

  function StandardIndex(): Index {
    map["INBOX" := INBOX, "Sent" := SENT, "Drafts" := DRAFTS, "Junk" := JUNK, "Trash" := TRASH,
        "Important" := IMPORTANT]
  }

  /** The outcome of a rebuild: the names listed, in API order, the names in use and the
      index. */
  datatype Listing = Listing(names: seq<string>, occupied: set<string>, index: Index)

  /** Lists one more entry: it gets a unique name, and both that and its alias are
      entered, the alias without being marked as in use. */
  function Add(l: Listing, e: Entry): Listing {
    var name := Candidate(Base(e), Spec(e), FirstFree(Base(e), Spec(e), l.occupied, 0));
    Listing(l.names + [name], l.occupied + {name}, l.index[name := Spec(e)][Alias(e) := Spec(e)])
  }

  /** The first `n` entries listed. */
  function List(entries: seq<Entry>, n: nat): Listing
    requires n <= |entries|
  {
    if n == 0 then Listing([], StandardIndex().Keys, StandardIndex())
    else Add(List(entries, n - 1), entries[n - 1])
  }

  // ---- Names are unique ----

  predicate Distinct(names: seq<string>) {
    forall i, j :: 0 <= i < j < |names| ==> names[i] != names[j]
  }

  /** One name for each entry; all of them, and the standard names, in use. */
  predicate Orderly(l: Listing, n: nat) {
    && |l.names| == n
    && StandardIndex().Keys <= l.occupied
    && (forall i :: 0 <= i < n ==> l.names[i] in l.occupied && l.names[i] !in StandardIndex())
    && Distinct(l.names)
  }

  lemma AddOrderly(l: Listing, n: nat, name: string, index: Index)
    requires Orderly(l, n) && name !in l.occupied
    ensures Orderly(Listing(l.names + [name], l.occupied + {name}, index), n + 1)
  {
    hide StandardIndex;
    var names := l.names + [name];
    assert forall i :: 0 <= i < n ==> names[i] == l.names[i] && names[i] in l.occupied;
    assert names[n] == name;
  }

  lemma {:induction false} ListOrderly(entries: seq<Entry>, n: nat)
    requires n <= |entries|
    ensures Orderly(List(entries, n), n)
  {
    hide StandardIndex, Orderly, Candidate, Spec, Base, Alias;
    if n > 0 {
      ListOrderly(entries, n - 1);
      var l, e := List(entries, n - 1), entries[n - 1];
      AddOrderly(l, n - 1, Last(entries, n), l.index[Last(entries, n) := Spec(e)][Alias(e) := Spec(e)]);
    } else {
      ListNothing(entries);
      NothingOrderly();
    }
  }

  lemma NothingOrderly()
    ensures Orderly(Listing([], StandardIndex().Keys, StandardIndex()), 0)
  {
  }

  lemma ListNothing(entries: seq<Entry>)
    ensures List(entries, 0) == Listing([], StandardIndex().Keys, StandardIndex())
  {
  }

  function Last(entries: seq<Entry>, n: nat): string
    requires 0 < n <= |entries|
  {
    var l, e := List(entries, n - 1), entries[n - 1];
    Candidate(Base(e), Spec(e), FirstFree(Base(e), Spec(e), l.occupied, 0))
  }

  lemma OneMoreName(entries: seq<Entry>, n: nat)
    requires 0 < n <= |entries|
    ensures List(entries, n).names == List(entries, n - 1).names + [Last(entries, n)]
    ensures List(entries, n).index
         == List(entries, n - 1).index[Last(entries, n) := Spec(entries[n - 1])][Alias(entries[n - 1]) := Spec(entries[n - 1])]
  {
  }

  /** Over a whole rebuild the names listed for folders and tags are pairwise distinct
      and distinct from the standard names. */
  lemma NamesUnique(entries: seq<Entry>)
    ensures var names := List(entries, |entries|).names;
            && |names| == |entries| && Distinct(names)
            && forall i :: 0 <= i < |names| ==> names[i] !in STANDARD_NAMES
  {
    ListOrderly(entries, |entries|);
    assert forall name :: name in STANDARD_NAMES ==> name in StandardIndex();
  }

  // ---- What the index holds in the end ----

  predicate DistinctIds(entries: seq<Entry>) {
    forall i, j :: 0 <= i < j < |entries| && entries[i].kind == entries[j].kind ==> entries[i].id != entries[j].id
  }

  lemma SpecsDiffer(entries: seq<Entry>, i: nat, j: nat)
    requires DistinctIds(entries) && i < j < |entries|
    ensures Spec(entries[i]) != Spec(entries[j])
  {
    if entries[i].kind == entries[j].kind && Spec(entries[i]) == Spec(entries[j]) {
      ItoaInjective(entries[i].id, entries[j].id);
    }
  }

  lemma NoDashInStandard()
    ensures forall name :: name in StandardIndex() ==> '-' !in name
  {
  }

  lemma AliasNotStandard(e: Entry)
    ensures Alias(e) !in StandardIndex()
  {
    hide StandardIndex, Itoa;
    NoDashInStandard();
    assert Alias(e)[if e.kind.Folder? then 6 else 3] == '-';
  }

  /** No entry listed after `i` and before `n` has `name` as its alias. */
  predicate Unclaimed(entries: seq<Entry>, name: string, i: nat, n: nat)
    requires n <= |entries|
  {
    forall j :: i < j < n ==> Alias(entries[j]) != name
  }

  lemma {:induction false} IndexExactUpTo(entries: seq<Entry>, i: nat, n: nat)
    requires DistinctIds(entries) && i < n <= |entries|
    ensures i < |List(entries, n).names|
    ensures var l := List(entries, n); var name := l.names[i];
            name in l.index && (l.index[name] == Spec(entries[i]) <==> Unclaimed(entries, name, i, n))
    decreases n
  {
    hide Spec, Alias, Add, StandardIndex, List, Last;
    ListLength(entries, n);
    ListLength(entries, n - 1);
    OneMoreName(entries, n);
    if i < n - 1 {
      IndexExactUpTo(entries, i, n - 1);
      SpecsDiffer(entries, i, n - 1);
      NamesApart(entries, i, n);
    }
  }

  lemma ListLength(entries: seq<Entry>, n: nat)
    requires n <= |entries|
    ensures |List(entries, n).names| == n
  {
    ListOrderly(entries, n);
  }

  lemma NamesApart(entries: seq<Entry>, i: nat, n: nat)
    requires i < n - 1 && n <= |entries|
    ensures i < |List(entries, n).names|
    ensures List(entries, n).names[i] != Last(entries, n)
  {
    hide List, Last;
    ListOrderly(entries, n);
    ListLength(entries, n - 1);
    OneMoreName(entries, n);
    assert List(entries, n).names[n - 1] == Last(entries, n);
  }

  /** A name listed for an entry keeps that entry's mailbox in the finished index exactly
      when no later entry has it as its Folder-<id> or Tag-<id> alias. */
  lemma ListedNameKept(entries: seq<Entry>, i: nat)
    requires DistinctIds(entries) && i < |entries|
    ensures i < |List(entries, |entries|).names|
    ensures var l := List(entries, |entries|); var name := l.names[i];
            && name in l.index
            && (l.index[name] == Spec(entries[i]) <==> Unclaimed(entries, name, i, |entries|))
  {
    IndexExactUpTo(entries, i, |entries|);
  }

  // ---- What the aliases lead to ----

  /** No entry listed after `i` got the alias of `i` as its name. */
  predicate AliasKept(entries: seq<Entry>, i: nat, n: nat)
    requires i < n <= |entries|
  {
    forall j :: i + 1 < j <= n ==> Last(entries, j) != Alias(entries[i])
  }

  lemma AliasesDiffer(entries: seq<Entry>, i: nat, j: nat)
    requires DistinctIds(entries) && i < j < |entries|
    ensures Alias(entries[i]) != Alias(entries[j])
  {
    hide ParseMailboxName;
    SpecsDiffer(entries, i, j);
    ParseAlias(entries[i]);
    ParseAlias(entries[j]);
  }

  lemma ParseAlias(e: Entry)
    ensures ParseMailboxName(Alias(e)) == Some(Spec(e))
  {
    hide ParseMailboxName, CanonicalName;
    if e.kind.Folder? {
      ParseCanonicalFolder(e.id);
    } else {
      ParseCanonicalTag(e.id);
    }
  }

  /** An alias leads to its own mailbox exactly when no later entry was listed under it. */
  lemma {:induction false} AliasExact(entries: seq<Entry>, i: nat, n: nat)
    requires DistinctIds(entries) && i < n <= |entries|
    ensures var index := List(entries, n).index; var alias := Alias(entries[i]);
            alias in index && (index[alias] == Spec(entries[i]) <==> AliasKept(entries, i, n))
    decreases n
  {
    hide List, Last, Alias, Spec;
    OneMoreName(entries, n);
    if i < n - 1 {
      AliasExact(entries, i, n - 1);
      SpecsDiffer(entries, i, n - 1);
      AliasesDiffer(entries, i, n - 1);
      assert AliasKept(entries, i, n) <==> AliasKept(entries, i, n - 1) && Last(entries, n) != Alias(entries[i]);
    }
  }

  lemma {:induction false} NotYetIndexed(entries: seq<Entry>, i: nat, n: nat, key: string)
    requires DistinctIds(entries) && n <= i < |entries| && key in List(entries, n).index
    ensures List(entries, n).index[key] != Spec(entries[i])
    decreases n
  {
    hide List, Last, Alias, Spec, StandardIndex;
    if n > 0 {
      OneMoreName(entries, n);
      SpecsDiffer(entries, n - 1, i);
      if key != Last(entries, n) && key != Alias(entries[n - 1]) {
        NotYetIndexed(entries, i, n - 1, key);
      }
    } else {
      ListNothing(entries);
      StandardIsNoEntry(entries[i], key);
    }
  }

  lemma StandardIsNoEntry(e: Entry, key: string)
    requires key in StandardIndex()
    ensures StandardIndex()[key] != Spec(e)
  {
  }

  /** Only its listed name and its alias lead to an entry's mailbox. */
  lemma {:induction false} OwnKeys(entries: seq<Entry>, i: nat, n: nat, key: string)
    requires DistinctIds(entries) && i < n <= |entries|
    ensures i < |List(entries, n).names|
    ensures var l := List(entries, n);
            key in l.index && l.index[key] == Spec(entries[i]) ==> key == l.names[i] || key == Alias(entries[i])
    decreases n
  {
    hide List, Last, Alias, Spec;
    OneMoreName(entries, n);
    ListLength(entries, n);
    ListLength(entries, n - 1);
    if i < n - 1 {
      SpecsDiffer(entries, i, n - 1);
      OwnKeys(entries, i, n - 1, key);
    } else if key in List(entries, n).index && key != Last(entries, n) && key != Alias(entries[i]) {
      NotYetIndexed(entries, i, n - 1, key);
    }
  }

  /** The six standard names always keep theirs. */
  lemma {:induction false} StandardKept(entries: seq<Entry>, n: nat)
    requires n <= |entries|
    ensures var index := List(entries, n).index;
            forall name :: name in StandardIndex() ==> name in index && index[name] == StandardIndex()[name]
  {
    hide StandardIndex, Spec, Alias, Add, Last, List;
    if n > 0 {
      StandardKept(entries, n - 1);
      ListOrderly(entries, n);
      ListLength(entries, n - 1);
      OneMoreName(entries, n);
      AliasNotStandard(entries[n - 1]);
      assert List(entries, n).names[n - 1] == Last(entries, n);
    } else {
      ListNothing(entries);
    }
  }

  /** Two entries, of which the second takes the first one's name as its alias: the
      premise is needed. */
  lemma AliasCanTakeName()
    ensures var entries := [Entry(Folder, 1, "Folder-2"), Entry(Folder, 2, "Work")];
            var l := List(entries, 2);
            l.names[0] == "Folder-2" && l.index["Folder-2"] == FolderSpec(2)
  {
    hide Sanitized, Lower, Itoa, StandardIndex, Add;
    var entries := [Entry(Folder, 1, "Folder-2"), Entry(Folder, 2, "Work")];
    SanitizeExamples();
    OneMoreName(entries, 1);
    OneMoreName(entries, 2);
    FirstNameFree(entries);
    assert Alias(entries[1]) == "Folder-2";
  }

  lemma FirstNameFree(entries: seq<Entry>)
    requires entries != [] && entries[0] == Entry(Folder, 1, "Folder-2")
    ensures List(entries, 0).names == [] && Last(entries, 1) == "Folder-2"
  {
    hide Base, StandardIndex;
    BaseExample(entries[0]);
    ListNothing(entries);
    NoDashInStandard();
    assert "Folder-2"[6] == '-';
  }

  lemma BaseExample(e: Entry)
    requires e == Entry(Folder, 1, "Folder-2")
    ensures Base(e) == "Folder-2"
  {
    hide Sanitized, Lower, Itoa;
    SanitizeExamples();
  }

  lemma SanitizeExamples()
    ensures Sanitized("Folder-2") == "Folder-2"
    ensures Lower("Folder-2") == "folder-2"
    ensures Itoa(2) == "2"
  {
    hide Sanitized, Itoa, Lower;
    SanitizedExample();
    LowerExample();
    ItoaExample();
  }

  lemma SanitizedExample()
    ensures Sanitized("Folder-2") == "Folder-2"
  {
    hide Trim, Clean;
    TrimTrims("Folder-2");
    FlatIsClean("Folder-2");
  }

  lemma LowerExample()
    ensures Lower("Folder-2") == "folder-2"
  {
  }

  lemma ItoaExample()
    ensures Itoa(2) == "2"
  {
  }
}
