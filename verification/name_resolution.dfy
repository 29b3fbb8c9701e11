/** Resolving LIST names, internal/imapbackend/user.go. */
module NameResolution {
  import opened MailboxNames
  import opened NameIndex
  import opened Text

  predicate IsTagName(name: string) {
    HasPrefix(Lower(name), "tag-")
  }

  /** What resolveMailboxSpecOnce finds for a name that is in the index: names starting
      with "tag-" are looked up first, others only when they do not parse. */
  function Hit(index: Index, name: string): MailboxSpec
    requires name in index
  {
    if IsTagName(name) || ParseMailboxName(name).None? then index[name] else ParseMailboxName(name).value
  }

  /** A `folder-<integer>` spelling, in any case. */
  predicate IsFolderNumber(name: string) {
    HasPrefix(Lower(name), "folder-") && Atoi(Lower(name)[|"folder-"|..]).Some?
  }

  // ---- Shape of a listed name ----

  lemma ReservedWords(low: string)
    requires IsReserved(low)
    ensures |low| >= 4 && forall c :: c in low ==> 'a' <= c <= 'z'
  {
  }

  lemma NonLetter(low: string, i: nat)
    requires i < |low| && !('a' <= low[i] <= 'z')
    ensures !IsReserved(low)
  {
    assert low[i] in low;
    if IsReserved(low) {
      ReservedWords(low);
    }
  }

  lemma ParseStandardIsReserved(low: string)
    ensures ParseStandard(low).Some? <==> IsReserved(low)
  {
  }

  lemma BaseShape(e: Entry)
    ensures Base(e) != ""
    ensures !IsReserved(Lower(Base(e)))
    ensures e.kind.Tag? ==> IsTagName(Base(e))
  {
    hide Sanitized, Itoa;
    var base := Base(e);
    if e.kind.Tag? {
      TagPrefix(base);
    } else if base == Alias(e) {
      NonLetter(Lower(base), 6);
    }
  }

  lemma TagPrefix(name: string)
    requires HasPrefix(name, "Tag-")
    ensures IsTagName(name) && !IsReserved(Lower(name))
  {
    LowerFixed();
    assert forall i :: 0 <= i < 4 ==> name[i] == name[..4][i];
    assert Lower(name)[..4] == Lower("Tag-");
    assert Lower(name)[3] == '-';
    NonLetter(Lower(name), 3);
  }

  /** Neither is any further candidate. */
  lemma CandidateShape(e: Entry, k: nat)
    ensures var name := Candidate(Base(e), Spec(e), k);
            && name != "" && !IsReserved(Lower(name))
            && (e.kind.Tag? ==> IsTagName(name))
  {
    hide Base, Itoa, Spec, Lower, IsReserved;
    var base, name := Base(e), Candidate(Base(e), Spec(e), k);
    BaseShape(e);
    if k > 0 {
      Longer(base, name, if k == 1 then ' ' else '~');
    }
  }

  /** A longer name is no reserved word if the first added character is not a letter,
      and it keeps its prefix. */
  lemma Longer(base: string, name: string, c: char)
    requires base + [c] <= name && (c == ' ' || c == '~')
    ensures !IsReserved(Lower(name)) && (IsTagName(base) ==> IsTagName(name))
  {
    assert name[|base|] == c && Lower(name)[|base|] == c;
    NonLetter(Lower(name), |base|);
    assert Lower(name)[..|base|] == Lower(base);
    if IsTagName(base) {
      assert Lower(name)[..4] == Lower(base)[..4];
    }
  }

  /** Every listed name is a candidate of its entry. */
  lemma {:induction false} ListedIsCandidate(entries: seq<Entry>, i: nat, n: nat) returns (k: nat)
    requires i < n <= |entries|
    ensures i < |List(entries, n).names|
    ensures List(entries, n).names[i] == Candidate(Base(entries[i]), Spec(entries[i]), k)
    decreases n
  {
    hide List, Last, Candidate, Base, Spec;
    ListLength(entries, n);
    ListLength(entries, n - 1);
    OneMoreName(entries, n);
    if i < n - 1 {
      k := ListedIsCandidate(entries, i, n - 1);
    } else {
      k := LastIsCandidate(entries, n);
    }
  }

  lemma LastIsCandidate(entries: seq<Entry>, n: nat) returns (k: nat)
    requires 0 < n <= |entries|
    ensures Last(entries, n) == Candidate(Base(entries[n - 1]), Spec(entries[n - 1]), k)
  {
    var l, e := List(entries, n - 1), entries[n - 1];
    k := FirstFree(Base(e), Spec(e), l.occupied, 0);
  }

  // ---- What a title is listed as ----

  /** A title, trimmed, that is listed as it is. */
  predicate PlainTitle(title: string) {
    title != "" && Trimmed(title) && IsFlat(title) && |title| <= MAX_LABEL && !IsReserved(Lower(title))
  }

  /** One that makes no name: the id is used instead. */
  predicate NoTitle(title: string) {
    title == "" || IsReserved(Lower(title))
  }

  /** The name begins with the wanted one, and is that unless an earlier name is. */
  predicate NamedAfter(name: string, earlier: seq<string>, wanted: string) {
    wanted <= name && (wanted !in earlier ==> name == wanted)
  }

  lemma ReservedIsPlain(title: string)
    requires IsReserved(Lower(title))
    ensures title != "" && Trimmed(title) && IsFlat(title) && |title| <= MAX_LABEL
  {
    var low := Lower(title);
    ReservedWords(low);
    ReservedShort(low);
    forall j | 0 <= j < |title|
      ensures 'a' <= title[j] <= 'z' || 'A' <= title[j] <= 'Z'
    {
      assert low[j] in low;
    }
  }

  lemma ReservedShort(low: string)
    requires IsReserved(low)
    ensures |low| <= 9
  {
  }

  lemma PlainIsKept(title: string)
    requires title != "" && Trimmed(title) && IsFlat(title) && |title| <= MAX_LABEL
    ensures Sanitized(title) == title
  {
    hide Trim, Clean;
    TrimTrims(title);
    FlatIsClean(title);
  }

  lemma TrimmedFirst(title: string)
    ensures Sanitized(title) == Sanitized(Trim(title)) && (Trim(title) == "" ==> Sanitized(title) == "")
  {
    TrimTrims(title);
    TrimTrims(Trim(title));
    assert Clean("") == "" && Trim("") == "";
  }

  lemma TitleBase(e: Entry)
    ensures var title := Trim(e.title);
            && (PlainTitle(title) ==> Base(e) == if e.kind.Folder? then title else "Tag-" + title)
            && (NoTitle(title) ==> Base(e) == (if e.kind.Folder? then "Folder-" else "Tag-") + Itoa(e.id))
            && (e.kind.Tag? ==> HasPrefix(Base(e), "Tag-"))
  {
    hide Sanitized, Lower, IsReserved, Trim, Trimmed, IsFlat, Itoa;
    var title := Trim(e.title);
    TrimmedFirst(e.title);
    if IsReserved(Lower(title)) {
      ReservedIsPlain(title);
    }
    if title != "" && Trimmed(title) && IsFlat(title) && |title| <= MAX_LABEL {
      PlainIsKept(title);
    }
  }

  lemma {:induction false} OccupiedFrom(entries: seq<Entry>, n: nat, name: string)
    requires n <= |entries| && name in List(entries, n).occupied
    ensures name in StandardIndex() || name in List(entries, n).names
    decreases n
  {
    hide StandardIndex, Base, Spec, Alias, Candidate, FirstFree;
    if n > 0 {
      OneMoreName(entries, n);
      if name in List(entries, n - 1).occupied {
        OccupiedFrom(entries, n - 1, name);
      }
    }
  }

  lemma {:induction false} NamesGrow(entries: seq<Entry>, i: nat, n: nat)
    requires i < n <= |entries|
    ensures var names := List(entries, n).names;
            i < |names| && names[i] == Last(entries, i + 1) && names[..i] == List(entries, i).names
    decreases n
  {
    hide List, Last;
    ListLength(entries, n);
    ListLength(entries, n - 1);
    OneMoreName(entries, n);
    if i < n - 1 {
      NamesGrow(entries, i, n - 1);
    }
  }

  lemma BaseNotStandard(e: Entry)
    ensures Base(e) !in StandardIndex()
  {
    hide Base;
    BaseShape(e);
    LowerFixed();
  }

  lemma LastNamedAfter(entries: seq<Entry>, n: nat)
    requires 0 < n <= |entries|
    ensures NamedAfter(Last(entries, n), List(entries, n - 1).names, Base(entries[n - 1]))
  {
    hide StandardIndex, Base, Spec, List;
    var l, e := List(entries, n - 1), entries[n - 1];
    BaseNotStandard(e);
    if Base(e) in l.occupied {
      OccupiedFrom(entries, n - 1, Base(e));
    }
  }

  /** Every listed name is named after what is tried first. */
  lemma ListedNamedAfter(entries: seq<Entry>, i: nat)
    requires i < |entries|
    ensures var names := List(entries, |entries|).names;
            i < |names| && NamedAfter(names[i], names[..i], Base(entries[i]))
  {
    hide List, Base, Last, NamedAfter;
    NamesGrow(entries, i, |entries|);
    LastNamedAfter(entries, i + 1);
  }

  // ---- Which listed names resolve to their own mailbox ----

  /** The alias of a folder is the only numbered spelling that parses to it. */
  lemma NumberedParse(e: Entry, name: string)
    requires IsFolderNumber(name) && Trim(name) == name
    ensures ParseMailboxName(name).Some?
    ensures ParseMailboxName(name).value == Spec(e) <==> Lower(name) == Lower(Alias(e))
  {
    hide Atoi, Trim, Itoa;
    var low := Lower(name);
    NumberedNotStandard(low);
    assert low == "folder-" + low[|"folder-"|..];
    LowerFixed();
    if e.kind.Folder? {
      NumberedLower("Folder-", e.id);
      assert Lower(Alias(e)) == "folder-" + Itoa(e.id);
      assert low == "folder-" + Itoa(e.id) <==> low[|"folder-"|..] == Itoa(e.id);
    } else {
      NumberedLower("Tag-", e.id);
      assert Lower(Alias(e))[0] == 't' && low[0] == low[..7][0] == 'f';
    }
  }

  lemma PlainDoesNotParse(name: string)
    requires Trim(name) == name && !IsReserved(Lower(name)) && !IsFolderNumber(name) && !IsTagName(name)
    ensures ParseMailboxName(name) == None
  {
    ParseStandardIsReserved(Lower(name));
  }

  lemma TagNameIsNoFolder(name: string)
    requires IsTagName(name)
    ensures !IsFolderNumber(name)
  {
    TagIsNoFolder(Lower(name));
  }

  /** A listed name, as long as trimming leaves it alone, resolves to its own mailbox if
      and only if: a `folder-<integer>` spelling is a spelling of its own alias, and any
      other name was not taken by the alias of a later entry. */
  lemma ListedResolves(entries: seq<Entry>, i: nat)
    requires DistinctIds(entries) && i < |entries|
    ensures i < |List(entries, |entries|).names|
    ensures var l := List(entries, |entries|); var name := l.names[i];
            && name in l.index
            && (Trim(name) == name ==>
                  (Hit(l.index, name) == Spec(entries[i])
                   <==> if IsFolderNumber(name) then Lower(name) == Lower(Alias(entries[i]))
                        else Unclaimed(entries, name, i, |entries|)))
  {
    hide List, Candidate, Base, Spec, Alias, Unclaimed, ParseMailboxName, IsReserved, IsFolderNumber, IsTagName;
    ListedNameKept(entries, i);
    var name := List(entries, |entries|).names[i];
    var k := ListedIsCandidate(entries, i, |entries|);
    CandidateShape(entries[i], k);
    if Trim(name) == name {
      if IsTagName(name) {
        TagNameIsNoFolder(name);
      } else if IsFolderNumber(name) {
        NumberedParse(entries[i], name);
      } else {
        PlainDoesNotParse(name);
      }
    }
  }

  /** Trimming leaves a listed name alone whenever its title did not have to be cut to
      200 bytes. */
  lemma ListedTrimmed(e: Entry, k: nat)
    requires |Trim(Clean(Trim(e.title)))| <= MAX_LABEL
    ensures var name := Candidate(Base(e), Spec(e), k); Trim(name) == name
  {
    hide Sanitized, Itoa, Trim, Clean;
    SanitizedIsLabel(e.title);
    LowerItoa(e.id);
    LowerItoa(k);
    var base, name := Base(e), Candidate(Base(e), Spec(e), k);
    BaseShape(e);
    assert Trimmed(base) by { BaseTrimmed(e); }
    if k == 1 {
      assert name[|name| - 1] == ']' && name[0] == base[0];
    } else if k >= 2 {
      assert name[|name| - 1] == Itoa(k)[|Itoa(k)| - 1] && name[0] == base[0];
    }
    TrimTrims(name);
  }

  lemma BaseTrimmed(e: Entry)
    requires Trimmed(Sanitized(e.title))
    ensures Trimmed(Base(e))
  {
    hide Sanitized, Itoa;
    LowerItoa(e.id);
    var base := Base(e);
    var clean := Sanitized(e.title);
    if base == Alias(e) || base == "Tag-" + Itoa(e.id) {
      assert base[|base| - 1] == Itoa(e.id)[|Itoa(e.id)| - 1];
    } else if e.kind.Tag? {
      assert base[|base| - 1] == clean[|clean| - 1];
    }
  }

  // ---- A title that has to be cut ----

  function LongTitle(): string {
    seq(199, i => 'a') + " b"
  }

  /** A title whose 200th byte is a space: the folder is listed under a name that ends in
      a space, and trimmed, as the resolver reads it, that name matches nothing in the
      index, not even ignoring case. */
  lemma CutTitleIsLost(id: Id)
    ensures var e := Entry(Folder, id, LongTitle()); var l := List([e], 1);
            && |l.names| == 1
            && Trim(l.names[0]) != l.names[0]
            && forall name :: name in l.index ==> Lower(name) != Lower(Trim(l.names[0]))
  {
    var e := Entry(Folder, id, LongTitle());
    var cut := seq(199, i => 'a') + " ";
    LongTitleCut();
    assert Base(e) == cut by { NonLetter(Lower(cut), 199); }
    LongNameFree([e], cut);
    OneMoreName([e], 1);
    hide Sanitized, Base, Trim, StandardIndex, List, Add;
    ListNothing([e]);
    CutIndex(id, cut);
  }

  lemma LongTitleCut()
    ensures var cut := seq(199, i => 'a') + " ";
            Sanitized(LongTitle()) == cut && Trim(cut) == cut[..199] && Trim(cut) != cut
  {
    var s, cut := LongTitle(), seq(199, i => 'a') + " ";
    TrimTrims(s);
    FlatIsClean(s);
    assert s[..200] == cut;
    TrimTrims(cut[..199]);
    assert TrimLeft(cut) == cut && cut[..|cut| - 1] == cut[..199];
    assert TrimLeft(cut[..199]) == cut[..199];
  }

  lemma LongNameFree(entries: seq<Entry>, name: string)
    requires entries != [] && Base(entries[0]) == name && |name| == 200
    ensures Last(entries, 1) == name
  {
    hide Base;
    ListNothing(entries);
    assert forall n :: n in StandardIndex() ==> |n| < 200;
  }

  lemma CutIndex(id: Id, cut: string)
    requires |cut| == 200 && Trim(cut) == cut[..199] && cut[..199] == seq(199, i => 'a')
    ensures var index := StandardIndex()[cut := FolderSpec(id)][CanonicalName(FolderSpec(id)) := FolderSpec(id)];
            forall name :: name in index ==> Lower(name) != Lower(Trim(cut))
  {
    hide Trim, Itoa;
    var low := Lower(cut[..199]);
    var own := CanonicalName(FolderSpec(id));
    assert low[0] == 'a';
    assert Lower(own)[0] == 'f';
    assert forall name :: name in StandardIndex() ==> |name| < 199;
  }

  // ---- Hierarchical names ----

  function ReplaceBackslashes(s: string): (r: string)
    ensures |r| == |s|
  {
    seq(|s|, i requires 0 <= i < |s| => if s[i] == '\\' then '/' else s[i])
  }

  /** The last part that is not blank, trimmed; None when all are. */
  function LastPart(parts: seq<string>): Option<string> {
    if parts == [] then None
    else if Trim(parts[|parts| - 1]) != "" then Some(Trim(parts[|parts| - 1]))
    else LastPart(parts[..|parts| - 1])
  }

  function Leaf(name: string): string {
    var s := ReplaceBackslashes(Trim(name));
    if s == "" then ""
    else
      match LastPart(Split(s, '/'))
      case Some(part) => part
      case None => s
  }

  predicate IsSeparator(c: char) {
    c == '/' || c == '\\'
  }

  /** What can stand alone as the last segment of a name. */
  predicate IsSegment(s: string) {
    s != "" && Trimmed(s) && forall c :: c in s ==> !IsSeparator(c)
  }

  lemma TrimPath(parent: string, sep: char, leaf: string)
    requires IsSeparator(sep) && IsSegment(leaf)
    ensures var front := TrimLeft(parent + [sep]);
            && front != "" && front[|front| - 1] == sep
            && Trim(parent + [sep] + leaf) == front + leaf && Trim(front + leaf) == front + leaf
  {
    var path := parent + [sep];
    TrimLeftStops(path, leaf);
    var whole := TrimLeft(path) + leaf;
    assert whole[|whole| - 1] == leaf[|leaf| - 1];
    TrimTrims(whole);
    assert TrimRight(whole) == whole;
  }

  /** The last segment after a slash or backslash is what names the mailbox. */
  lemma PathLeaf(parent: string, sep: char, leaf: string)
    requires IsSeparator(sep) && IsSegment(leaf)
    ensures Leaf(parent + [sep] + leaf) == leaf
  {
    TrimPath(parent, sep, leaf);
    var front := TrimLeft(parent + [sep]);
    hide Trim, TrimLeft, Split;
    var a := ReplaceBackslashes(front[..|front| - 1]);
    assert forall i :: 0 <= i < |leaf| ==> leaf[i] in leaf;
    assert ReplaceBackslashes(front + leaf) == a + ['/'] + leaf;
    SplitLast(a, '/', leaf);
    TrimTrims(leaf);
  }

  /** The downward loop of imapMailboxLeaf. */
  method ImapMailboxLeaf(name: string) returns (leaf: string)
    ensures leaf == Leaf(name)
  {
    var s := Trim(name);
    if s == "" {
      return "";
    }
    s := ReplaceBackslashes(s);
    var parts := Split(s, '/');
    var i := |parts|;
    assert parts[..i] == parts;
    while i > 0
      invariant 0 <= i <= |parts|
      invariant LastPart(parts) == LastPart(parts[..i])
    {
      i := i - 1;
      assert parts[..i + 1][..i] == parts[..i];
      var t := Trim(parts[i]);
      if t != "" {
        return t;
      }
    }
    return s;
  }
}
