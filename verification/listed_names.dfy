/** What becomes of the names LIST shows when a client uses them, through the whole of
    ResolveMailboxSpec in internal/imapbackend/user.go. */
module ListedNames {
  import opened ImapUser
  import opened MailboxNames
  import opened NameIndex
  import opened NameResolution
  import opened Text

  // ---- The shape of listed names ----

  lemma CleanStarts(s: string)
    ensures Sanitized(s) != "" ==> !IsSpace(Sanitized(s)[0])
  {
    TrimTrims(Clean(Trim(s)));
    hide Trim, Clean;
  }

  lemma BaseStarts(e: Entry)
    ensures Base(e) != "" && !IsSpace(Base(e)[0])
    ensures e.kind.Tag? ==> |Base(e)| > 4 && Base(e)[..4] == "Tag-" && !IsSpace(Base(e)[4])
  {
    hide Sanitized, Itoa, Lower;
    CleanStarts(e.title);
    LowerItoa(e.id);
  }

  /** A listed name starts with no space, and a tag's with its prefix and no space. */
  lemma ListedStarts(entries: seq<Entry>, i: nat)
    requires i < |entries|
    ensures i < |List(entries, |entries|).names|
    ensures var name := List(entries, |entries|).names[i];
            && name != "" && !IsSpace(name[0]) && IsFlat(name)
            && (entries[i].kind.Tag? ==> |name| > 4 && name[..4] == "Tag-" && !IsSpace(name[4]))
  {
    hide *;
    var k := ListedIsCandidate(entries, i, |entries|);
    CandidateStarts(entries[i], k);
  }

  lemma CandidateStarts(e: Entry, k: nat)
    ensures var name := Candidate(Base(e), Spec(e), k);
            && name != "" && !IsSpace(name[0]) && IsFlat(name)
            && (e.kind.Tag? ==> |name| > 4 && name[..4] == "Tag-" && !IsSpace(name[4]))
  {
    hide Base, Itoa, Spec, IsFlat;
    BaseStarts(e);
    var name := Candidate(Base(e), Spec(e), k);
    assert Base(e) <= name;
    CandidateFlat(e, k);
  }

  lemma FlatConcat(s: string, t: string)
    requires IsFlat(s) && IsFlat(t)
    ensures IsFlat(s + t)
  {
  }

  lemma NumberFlat(n: int)
    ensures IsFlat(Itoa(n))
  {
    var d := Digits(if n < 0 then -n else n);
    forall c | c in Itoa(n)
      ensures c == '-' || IsDigit(c)
    {
      assert c == '-' || c in d;
    }
  }

  lemma WordsFlat()
    ensures IsFlat("Folder-") && IsFlat("Tag-") && IsFlat(" [") && IsFlat(" ") && IsFlat("]") && IsFlat("~")
    ensures IsFlat("folders") && IsFlat("tags")
  {
  }

  lemma CandidateFlat(e: Entry, k: nat)
    ensures IsFlat(Candidate(Base(e), Spec(e), k))
  {
    hide Sanitized, Itoa, IsFlat, Lower, IsReserved;
    WordsFlat();
    NumberFlat(e.id);
    NumberFlat(k);
    SanitizedIsLabel(e.title);
    FlatConcat("Folder-", Itoa(e.id));
    FlatConcat("Tag-", Itoa(e.id));
    FlatConcat("Tag-", Sanitized(e.title));
    var base, spec := Base(e), Spec(e);
    assert IsFlat(base);
    if k == 1 {
      FlatConcat(base, " [");
      FlatConcat(base + " [", spec.param1);
      FlatConcat(base + " [" + spec.param1, " ");
      FlatConcat(base + " [" + spec.param1 + " ", spec.param2);
      FlatConcat(base + " [" + spec.param1 + " " + spec.param2, "]");
    } else if k > 1 {
      FlatConcat(base, "~");
      FlatConcat(base + "~", Itoa(k));
    }
  }

  /** A name without separators is its own last segment, so it is tried only once. */
  lemma FlatLeaf(w: string)
    requires IsFlat(w) && Trim(w) == w
    ensures Leaf(w) == w
  {
    hide Trim;
    assert forall i :: 0 <= i < |w| ==> w[i] in w;
    assert ReplaceBackslashes(w) == w;
    FindNone(w, '/');
    if w != "" {
      assert Split(w, '/') == [w];
      assert [w][|[w]| - 1] == w;
    }
  }

  lemma PrefixFlat(w: string, name: string)
    requires w <= name && IsFlat(name)
    ensures IsFlat(w)
  {
    assert forall c :: c in w ==> c in name;
  }

  // ---- Spellings of aliases ----

  lemma FolderSpelling(e: Entry, w: string)
    requires e.kind.Folder? && Trim(w) == w
    ensures Lower(w) == Lower(Alias(e)) ==> !IsTagName(w) && ParseMailboxName(w) == Some(Spec(e))
    ensures ParseMailboxName(w) == Some(Spec(e)) ==> Lower(w) == Lower(Alias(e))
  {
    hide Atoi, Trim, Itoa;
    NumberedLower("Folder-", e.id);
    LowerFixed();
    AtoiItoa(e.id);
    assert Lower(Alias(e)) == "folder-" + Itoa(e.id);
    if Lower(w) == Lower(Alias(e)) {
      assert Lower(w)[|"folder-"|..] == Itoa(e.id);
      NumberedParse(e, w);
      assert Lower(w)[0] == 'f';
    }
    if ParseMailboxName(w) == Some(Spec(e)) {
      var low := Lower(w);
      assert HasPrefix(low, "folder-");
      assert low == "folder-" + low[|"folder-"|..];
    }
  }

  /** Only one spelling of a tag's alias begins with `Tag-`. */
  lemma TagSpelling(e: Entry, w: string)
    requires e.kind.Tag? && |w| >= 4 && w[..4] == "Tag-" && Lower(w) == Lower(Alias(e))
    ensures w == Alias(e)
  {
    var alias := Alias(e);
    LowerItoa(e.id);
    assert alias == "Tag-" + Itoa(e.id);
    forall j | 4 <= j < |w|
      ensures w[j] == alias[j]
    {
      assert Lower(w)[j] == Lower(alias)[j];
      assert alias[j] == Itoa(e.id)[j - 4];
      NumberChar(e.id, j - 4);
    }
    assert w == w[..4] + w[4..];
    assert w[4..] == alias[4..];
  }

  lemma NumberChar(n: int, j: nat)
    requires j < |Itoa(n)|
    ensures Itoa(n)[j] == '-' || IsDigit(Itoa(n)[j])
  {
    var d := Digits(if n < 0 then -n else n);
    assert Itoa(n)[j] == '-' || Itoa(n)[j] in d;
  }

  lemma TagParse(e: Entry, w: string)
    requires e.kind.Tag? && Trim(w) == w && ParseMailboxName(w) == Some(Spec(e))
    ensures Lower(w) == Lower(Alias(e))
  {
    hide Atoi, Trim, Itoa;
    NumberedLower("Tag-", e.id);
    LowerFixed();
    var low := Lower(w);
    assert HasPrefix(low, "tag-");
    assert low == "tag-" + low[|"tag-"|..];
  }

  // ---- Names that trimming changes ----

  /** Trimmed, such a name can only lead to its own mailbox by being its alias. */
  predicate TrimmedToAlias(entries: seq<Entry>, i: nat, w: string)
    requires i < |entries|
  {
    if entries[i].kind.Folder? then Lower(w) == Lower(Alias(entries[i]))
    else w == Alias(entries[i]) && AliasKept(entries, i, |entries|)
  }

  /** In the index, a shorter name than the listed one leads there only as the alias. */
  lemma ShorterKey(entries: seq<Entry>, i: nat, key: string, w: string)
    requires DistinctIds(entries) && i < |entries|
    ensures i < |List(entries, |entries|).names|
    ensures var l := List(entries, |entries|);
            |w| < |l.names[i]| && key in l.index && l.index[key] == Spec(entries[i]) && Lower(key) == Lower(w)
            ==> key == Alias(entries[i])
  {
    hide List, Alias, Spec;
    OwnKeys(entries, i, |entries|, key);
    assert Lower(key) == Lower(w) ==> |key| == |Lower(key)| == |w|;
  }

  /** What a lookup finds, possibly ignoring case. */
  lemma FoundAlias(entries: seq<Entry>, i: nat, w: string, r: Option<MailboxSpec>)
    requires DistinctIds(entries) && i < |entries|
    ensures i < |List(entries, |entries|).names|
    ensures var l := List(entries, |entries|);
            |w| < |l.names[i]| && Found(l.index, w, r) && r == Some(Spec(entries[i])) ==>
              Lower(w) == Lower(Alias(entries[i])) && (w in l.index ==> w == Alias(entries[i]))
  {
    hide List, Alias, Spec, Lower;
    var index := List(entries, |entries|).index;
    ShorterKey(entries, i, w, w);
    if w !in index && Found(index, w, r) && r == Some(Spec(entries[i])) {
      var k :| k in index && Lower(k) == Lower(w) && index[k] == r.value;
      ShorterKey(entries, i, k, w);
    }
  }

  lemma FolderTrimmed(entries: seq<Entry>, i: nat, answer: Option<FoldersTags>, w: string, r: Option<MailboxSpec>)
    requires DistinctIds(entries) && i < |entries| && entries[i].kind.Folder? && w != "" && Trim(w) == w
    ensures i < |List(entries, |entries|).names|
    ensures var l := List(entries, |entries|);
            |w| < |l.names[i]| && Refreshed(l.index, answer) == l.index && Once(l.index, answer, w, r, l.index) ==>
              (r == Some(Spec(entries[i])) <==> Lower(w) == Lower(Alias(entries[i])))
  {
    hide List, Alias, Spec, Lower, ParseMailboxName, IsTagName, Refreshed, Found, DistinctIds;
    var e := entries[i];
    var index := List(entries, |entries|).index;
    FolderSpelling(e, w);
    InIndexFound(index, w, r);
    FoundAlias(entries, i, w, r);
  }

  lemma InIndexFound(index: Index, w: string, r: Option<MailboxSpec>)
    ensures w in index && r == Some(index[w]) ==> Found(index, w, r)
  {
  }

  lemma TagTrimmed(entries: seq<Entry>, i: nat, answer: Option<FoldersTags>, w: string, r: Option<MailboxSpec>)
    requires DistinctIds(entries) && i < |entries| && entries[i].kind.Tag? && Trim(w) == w
    requires |w| > 4 && w[..4] == "Tag-"
    ensures i < |List(entries, |entries|).names|
    ensures var l := List(entries, |entries|);
            |w| < |l.names[i]| && Refreshed(l.index, answer) == l.index && Once(l.index, answer, w, r, l.index) ==>
              (r == Some(Spec(entries[i])) <==> w == Alias(entries[i]) && AliasKept(entries, i, |entries|))
  {
    hide List, Alias, Spec, Lower, ParseMailboxName, IsTagName, Refreshed, Found, DistinctIds, AliasKept;
    var e := entries[i];
    var index := List(entries, |entries|).index;
    TagPrefix(w);
    AliasExact(entries, i, |entries|);
    if ParseMailboxName(w) == Some(Spec(e)) {
      TagParse(e, w);
    }
    InIndexFound(index, w, r);
    FoundAlias(entries, i, w, r);
    if Lower(w) == Lower(Alias(e)) {
      TagSpelling(e, w);
    }
  }

  // ---- Every listed name ----

  /** When a listed name resolves to its own mailbox. */
  predicate ResolvesToOwn(entries: seq<Entry>, i: nat)
    requires i < |entries| && i < |List(entries, |entries|).names|
  {
    var name := List(entries, |entries|).names[i];
    if Trim(name) != name then TrimmedToAlias(entries, i, Trim(name))
    else if IsFolderNumber(name) then Lower(name) == Lower(Alias(entries[i]))
    else Unclaimed(entries, name, i, |entries|)
  }

  /** As long as the API lists the same folders and tags, or does not answer, a listed
      name given to the resolver leads to its own mailbox if and only if: it is left alone
      by trimming and, if spelled `folder-<integer>`, is a spelling of its own alias, and
      otherwise was taken by no later alias; or trimming turns it into a spelling of its
      own folder alias, or into its own tag alias, if no later tag or folder was listed
      under that. */
  lemma ListedNamesResolve(ft: FoldersTags, answers: nat -> Option<FoldersTags>, calls: nat, i: nat,
                           first: Option<MailboxSpec>, middle: Index, r: Option<MailboxSpec>, next: Index)
    requires DistinctIds(EntriesOf(ft)) && i < |EntriesOf(ft)| && answers(calls) in {None, Some(ft)}
    ensures var entries := EntriesOf(ft); var l := List(entries, |entries|);
      && i < |l.names|
      && (Resolved(l.index, answers, calls, l.names[i], first, middle, r, next) ==>
            (r == Some(Spec(entries[i])) <==> ResolvesToOwn(entries, i)))
  {
    hide EntriesOf, List, DistinctIds, Spec, Once, IsFlat, Leaf, Resolved, Unclaimed, IsFolderNumber, Alias, Lower, TrimmedToAlias;
    var entries := EntriesOf(ft);
    var l := List(entries, |entries|);
    ListedStarts(entries, i);
    var name := l.names[i];
    if Resolved(l.index, answers, calls, name, first, middle, r, next) {
      OnlyOnce(l.index, answers, calls, name, first, middle, r, next);
      if Trim(name) == name {
        ListedResolvesOnce(entries, i, answers(calls), r, next);
      } else {
        SameListing(ft, answers(calls));
        Untrimmed(entries, i, answers(calls), r, next);
      }
    }
  }

  lemma SameListing(ft: FoldersTags, answer: Option<FoldersTags>)
    requires answer in {None, Some(ft)}
    ensures var entries := EntriesOf(ft); var index := List(entries, |entries|).index; Refreshed(index, answer) == index
  {
    hide EntriesOf, List;
  }

  /** The last segment of a name without separators is no second candidate. */
  lemma OnlyOnce(index: Index, answers: nat -> Option<FoldersTags>, calls: nat, name: string,
                 first: Option<MailboxSpec>, middle: Index, r: Option<MailboxSpec>, next: Index)
    requires name != "" && !IsSpace(name[0]) && IsFlat(name)
    requires Resolved(index, answers, calls, name, first, middle, r, next)
    ensures Once(index, answers(calls), Trim(name), r, next)
  {
    hide Once, Leaf, Trim, IsFlat;
    TrimTwice(name);
    TrimKeeps(name, 0);
    PrefixFlat(Trim(name), name);
    FlatLeaf(Trim(name));
  }

  lemma Untrimmed(entries: seq<Entry>, i: nat, answer: Option<FoldersTags>, r: Option<MailboxSpec>, next: Index)
    requires DistinctIds(entries) && i < |entries| && i < |List(entries, |entries|).names|
    requires Trim(List(entries, |entries|).names[i]) != List(entries, |entries|).names[i]
    requires var index := List(entries, |entries|).index;
             Refreshed(index, answer) == index && Once(index, answer, Trim(List(entries, |entries|).names[i]), r, next)
    ensures r == Some(Spec(entries[i])) <==> TrimmedToAlias(entries, i, Trim(List(entries, |entries|).names[i]))
  {
    hide List, DistinctIds, Spec, Alias, Trim, Lower, AliasKept, IsFlat, Found, Matches, ParseMailboxName, IsTagName, Refreshed;
    ListedStarts(entries, i);
    var name := List(entries, |entries|).names[i];
    var w := Trim(name);
    TrimTwice(name);
    TrimShorter(name);
    TrimKeeps(name, 0);
    assert next == List(entries, |entries|).index;
    if entries[i].kind.Folder? {
      FolderTrimmed(entries, i, answer, w, r);
    } else {
      TrimKeeps(name, 4);
      assert w[..4] == name[..4];
      TagTrimmed(entries, i, answer, w, r);
    }
  }

  /** As all listed names do. */
  predicate StartsFlat(name: string) {
    name != "" && !IsSpace(name[0]) && IsFlat(name)
  }

  /** A listed name that trimming leaves alone has one outcome, whatever the API answers. */
  lemma ListedOutcome(entries: seq<Entry>, j: nat, answers: nat -> Option<FoldersTags>, calls: nat, name: string,
                      first: Option<MailboxSpec>, middle: Index, r: Option<MailboxSpec>, next: Index)
    requires DistinctIds(entries) && j < |entries|
    ensures j < |List(entries, |entries|).names|
    ensures var l := List(entries, |entries|);
      && l.names[j] in l.index
      && (StartsFlat(name) && Trim(name) == l.names[j] && Resolved(l.index, answers, calls, name, first, middle, r, next)
          ==> r == Some(Hit(l.index, l.names[j])))
  {
    hide List, DistinctIds, Spec, Once, IsFlat, Leaf, Resolved, Trim, Hit;
    ListedNameKept(entries, j);
    ListedStarts(entries, j);
    var l := List(entries, |entries|);
    if StartsFlat(name) && Trim(name) == l.names[j] && Resolved(l.index, answers, calls, name, first, middle, r, next) {
      OnlyOnce(l.index, answers, calls, name, first, middle, r, next);
      IndexedHits(l.index, answers(calls), l.names[j], r, next);
    }
  }

  /** A listed name that trimming turns into another one leads where that one leads,
      wherever that is. */
  lemma TrimmedOpensAnother(entries: seq<Entry>, i: nat, j: nat, answers: nat -> Option<FoldersTags>, calls: nat,
                            first: Option<MailboxSpec>, middle: Index, r: Option<MailboxSpec>, next: Index,
                            first': Option<MailboxSpec>, middle': Index, r': Option<MailboxSpec>, next': Index)
    requires DistinctIds(entries) && i < |entries| && j < |entries|
    ensures i < |List(entries, |entries|).names| && j < |List(entries, |entries|).names|
    ensures var l := List(entries, |entries|);
      Trim(l.names[i]) == l.names[j]
      && Resolved(l.index, answers, calls, l.names[i], first, middle, r, next)
      && Resolved(l.index, answers, calls, l.names[j], first', middle', r', next')
      ==> r == r' && r.Some?
  {
    hide List, DistinctIds, Spec, IsFlat, Resolved, Trim, Hit;
    var l := List(entries, |entries|);
    ListedStarts(entries, i);
    ListedStarts(entries, j);
    TrimTwice(l.names[i]);
    ListedOutcome(entries, j, answers, calls, l.names[i], first, middle, r, next);
    ListedOutcome(entries, j, answers, calls, l.names[j], first', middle', r', next');
  }

  // ---- Names with a parent ----

  predicate AllFlat(index: Index) {
    forall key :: key in index ==> IsFlat(key)
  }

  lemma AliasFlat(e: Entry)
    ensures IsFlat(Alias(e))
  {
    hide IsFlat, Itoa;
    WordsFlat();
    NumberFlat(e.id);
    FlatConcat("Folder-", Itoa(e.id));
    FlatConcat("Tag-", Itoa(e.id));
  }

  lemma {:induction false} IndexFlat(entries: seq<Entry>, n: nat)
    requires n <= |entries|
    ensures AllFlat(List(entries, n).index)
  {
    hide List, Last, Alias, Spec, IsFlat, Base;
    if n > 0 {
      IndexFlat(entries, n - 1);
      OneMoreName(entries, n);
      AliasFlat(entries[n - 1]);
      var k := LastIsCandidate(entries, n);
      CandidateFlat(entries[n - 1], k);
    } else {
      ListNothing(entries);
      StandardFlat();
    }
  }

  lemma StandardFlat()
    ensures AllFlat(StandardIndex())
  {
  }

  lemma SeparatedDoesNotParse(w: string, j: nat)
    requires j < |w| && IsSeparator(w[j]) && Trim(w) == w
    ensures ParseMailboxName(w) == None
  {
    hide Trim, Value;
    var low := Lower(w);
    assert low[j] == w[j];
    NonLetter(low, j);
    ParseStandardIsReserved(low);
    NoNumber(low, "folder-", j);
    NoNumber(low, "tag-", j);
  }

  lemma NoNumber(low: string, prefix: string, j: nat)
    requires j < |low| && IsSeparator(low[j])
    requires forall i :: 0 <= i < |prefix| ==> !IsSeparator(prefix[i])
    ensures HasPrefix(low, prefix) ==> Atoi(low[|prefix|..]) == None
  {
    hide Atoi;
    if HasPrefix(low, prefix) {
      assert forall i :: 0 <= i < |prefix| ==> low[i] == prefix[i];
      assert low[|prefix|..][j - |prefix|] == low[j];
      NotANumber(low[|prefix|..], j - |prefix|);
    }
  }

  lemma NotANumber(s: string, k: nat)
    requires k < |s| && IsSeparator(s[k])
    ensures Atoi(s) == None
  {
    var signed := s != "" && (s[0] == '-' || s[0] == '+');
    var digits := if signed then s[1..] else s;
    var i := if signed then k - 1 else k;
    assert digits[i] in digits && !IsDigit(digits[i]);
  }

  lemma SeparatedMatchesNothing(index: Index, w: string, j: nat)
    requires j < |w| && IsSeparator(w[j]) && AllFlat(index)
    ensures !Matches(index, w)
  {
    hide Lower;
    forall k | k in index
      ensures k != w && Lower(k) != Lower(w)
    {
      SameSeparator(k, w, j);
    }
  }

  lemma SameSeparator(k: string, w: string, j: nat)
    requires j < |w| && IsSeparator(w[j]) && IsFlat(k)
    ensures Lower(k) != Lower(w)
  {
    if |k| == |w| {
      assert k[j] in k;
      assert Lower(k)[j] != Lower(w)[j];
    }
  }

  /** A whole name with a separator is neither read nor found. */
  lemma WholeFails(index: Index, answer: Option<FoldersTags>, w: string, j: nat, r: Option<MailboxSpec>, next: Index)
    requires j < |w| && IsSeparator(w[j]) && Trim(w) == w && AllFlat(index) && AllFlat(Refreshed(index, answer))
    requires Once(index, answer, w, r, next)
    ensures r == None && next == Refreshed(index, answer) && Asks(index, w)
  {
    hide Trim, Lower, ParseMailboxName, IsTagName, AllFlat, Refreshed;
    SeparatedDoesNotParse(w, j);
    SeparatedMatchesNothing(index, w, j);
    SeparatedMatchesNothing(Refreshed(index, answer), w, j);
  }

  /** After a slash or backslash a segment resolves as it does alone, after one more
      request for the folders and tags, whatever is before. */
  lemma PathResolves(ft: FoldersTags, answers: nat -> Option<FoldersTags>, calls: nat, parent: string, sep: char, leaf: string,
                     first: Option<MailboxSpec>, middle: Index, r: Option<MailboxSpec>, next: Index)
    requires IsSeparator(sep) && IsSegment(leaf) && answers(calls) in {None, Some(ft)}
    ensures var entries := EntriesOf(ft); var index := List(entries, |entries|).index;
            Resolved(index, answers, calls, parent + [sep] + leaf, first, middle, r, next) ==>
              && first == None && middle == index && Once(index, answers(calls + 1), leaf, r, next)
              && Questions(index, middle, parent + [sep] + leaf, first) == 1 + if Asks(index, leaf) then 1 else 0
  {
    hide EntriesOf, List, Once, Leaf, Trim, TrimLeft, AllFlat, Refreshed, Asks;
    var entries := EntriesOf(ft);
    var index := List(entries, |entries|).index;
    var name := parent + [sep] + leaf;
    var front := TrimLeft(parent + [sep]);
    var whole := front + leaf;
    TrimPath(parent, sep, leaf);
    assert front == front[..|front| - 1] + [sep];
    PathLeaf(front[..|front| - 1], sep, leaf);
    TrimTrims(leaf);
    IndexFlat(entries, |entries|);
    SameListing(ft, answers(calls));
    if Resolved(index, answers, calls, name, first, middle, r, next) {
      WholeFails(index, answers(calls), whole, |front| - 1, first, middle);
    }
  }

  lemma FlatIsSegment(s: string)
    requires s != "" && IsFlat(s) && Trim(s) == s
    ensures IsSegment(s)
  {
    TrimTrims(s);
  }

  /** So a listed name that trimming leaves alone leads to its own mailbox under any parent
      exactly if it does alone. */
  lemma ListedPathResolves(ft: FoldersTags, answers: nat -> Option<FoldersTags>, calls: nat, parent: string, sep: char, i: nat,
                           first: Option<MailboxSpec>, middle: Index, r: Option<MailboxSpec>, next: Index)
    requires DistinctIds(EntriesOf(ft)) && i < |EntriesOf(ft)| && answers(calls) in {None, Some(ft)} && IsSeparator(sep)
    ensures var entries := EntriesOf(ft); var l := List(entries, |entries|);
      && i < |l.names| && l.names[i] in l.index
      && (Trim(l.names[i]) == l.names[i]
          && Resolved(l.index, answers, calls, parent + [sep] + l.names[i], first, middle, r, next)
          ==> r == Some(Hit(l.index, l.names[i])) && (r == Some(Spec(entries[i])) <==> ResolvesToOwn(entries, i)))
  {
    hide EntriesOf, List, DistinctIds, Spec, Once, IsFlat, Resolved, Unclaimed, IsFolderNumber, Alias, Lower, Hit, IsSegment, IsSeparator, Questions;
    var entries := EntriesOf(ft);
    var l := List(entries, |entries|);
    ListedNameKept(entries, i);
    ListedStarts(entries, i);
    var name := l.names[i];
    if Trim(name) == name && Resolved(l.index, answers, calls, parent + [sep] + name, first, middle, r, next) {
      FlatIsSegment(name);
      PathResolves(ft, answers, calls, parent, sep, name, first, middle, r, next);
      IndexedHits(l.index, answers(calls + 1), name, r, next);
      ListedResolvesOnce(entries, i, answers(calls + 1), r, next);
    }
  }

  const A199 := seq(199, i => 'a')

  /** Which can be another mailbox altogether: the title of the first folder has to be cut
      after its 199th letter and a space, and the second one's has just these letters. */
  lemma CutTitleOpensAnother(f: Id, g: Id, answers: nat -> Option<FoldersTags>, calls: nat,
                             first: Option<MailboxSpec>, middle: Index, r: Option<MailboxSpec>, next: Index)
    requires f != g
    ensures var ft := FoldersTags([Named(f, LongTitle()), Named(g, A199)], []);
            var l := List(EntriesOf(ft), 2);
            && l.names == [A199 + " ", A199]
            && (Resolved(l.index, answers, calls, l.names[0], first, middle, r, next) ==> r == Some(FolderSpec(g)))
  {
    var ft := FoldersTags([Named(f, LongTitle()), Named(g, A199)], []);
    var entries := EntriesOf(ft);
    assert entries == [Entry(Folder, f, LongTitle()), Entry(Folder, g, A199)];
    TwoNames(f, g);
    PlainName(entries);
    hide List, Resolved, EntriesOf, Trim, IsFlat, Unclaimed, IsFolderNumber, Hit;
    ListedStarts(entries, 0);
    ListedOutcome(entries, 1, answers, calls, A199 + " ", first, middle, r, next);
    ListedResolves(entries, 1);
  }

  lemma TwoNames(f: Id, g: Id)
    requires f != g
    ensures var entries := [Entry(Folder, f, LongTitle()), Entry(Folder, g, A199)];
            && DistinctIds(entries) && List(entries, 2).names == [A199 + " ", A199]
            && Trim(A199 + " ") == A199 && Trim(A199) == A199
  {
    hide Base, Sanitized, Trim, StandardIndex, Lower, List, Last;
    var entries := [Entry(Folder, f, LongTitle()), Entry(Folder, g, A199)];
    var cut := A199 + " ";
    LongTitleCut();
    CutBase(entries[0]);
    LongNameFree(entries, cut);
    TrimTwice(cut);
    assert cut[..199] == A199;
    PlainBase(entries[1]);
    ListNothing(entries);
    OneMoreName(entries, 1);
    OneMoreName(entries, 2);
    SecondFree(entries, cut);
  }

  lemma CutBase(e: Entry)
    requires e.title == LongTitle() && e.kind.Folder?
    ensures Base(e) == A199 + " "
  {
    hide Sanitized, Trim;
    LongTitleCut();
    NonLetter(Lower(A199 + " "), 199);
  }

  lemma PlainBase(e: Entry)
    requires e.title == A199 && e.kind.Folder? && Trim(A199) == A199
    ensures Base(e) == A199
  {
    FlatIsClean(A199);
    assert Sanitized(A199) == A199;
    assert Lower(A199)[0] == 'a';
    assert |Lower(A199)| == 199;
  }

  lemma SecondFree(entries: seq<Entry>, cut: string)
    requires |entries| == 2 && |cut| == 200 && Base(entries[1]) == A199
    ensures Last(entries, 1) == cut ==> Last(entries, 2) == A199
  {
    hide Base, Alias, Spec;
    ListNothing(entries);
    ShortNames();
    hide StandardIndex;
    assert List(entries, 1).occupied == StandardIndex().Keys + {Last(entries, 1)};
  }

  lemma ShortNames()
    ensures forall n :: n in StandardIndex() ==> |n| < 199
  {
  }

  lemma PlainName(entries: seq<Entry>)
    requires |entries| == 2 && List(entries, 2).names == [A199 + " ", A199] && Trim(A199) == A199
    ensures ResolvesToOwn(entries, 1)
  {
    assert Lower(A199)[..7][0] == 'a';
  }

  function Spaces(n: nat): (s: string)
    ensures |s| == n && forall c :: c in s ==> c == ' '
  {
    seq(n, i => ' ')
  }

  lemma {:induction false} TrimRightSpaces(s: string, n: nat)
    requires s != "" && !IsSpace(s[|s| - 1])
    ensures TrimRight(s + Spaces(n)) == s
  {
    if n > 0 {
      assert (s + Spaces(n))[..|s| + n - 1] == s + Spaces(n - 1);
      TrimRightSpaces(s, n - 1);
    } else {
      assert s + Spaces(0) == s;
    }
  }

  /** Or its own after all: the title of folder 1 is cut after its alias and spaces. */
  lemma CutTitleOpensOwn()
    ensures var entries := [Entry(Folder, 1, "Folder-1" + Spaces(192) + "x")];
            && List(entries, 1).names == ["Folder-1" + Spaces(192)]
            && Trim(List(entries, 1).names[0]) != List(entries, 1).names[0] && ResolvesToOwn(entries, 0)
  {
    hide Base, Sanitized, Trim, StandardIndex, Lower, List, Last, Itoa;
    var cut := "Folder-1" + Spaces(192);
    var entries := [Entry(Folder, 1, cut + "x")];
    SpacedBase(entries[0]);
    LongNameFree(entries, cut);
    OneMoreName(entries, 1);
    ListNothing(entries);
    SpacedTrim();
    One();
    assert Alias(entries[0]) == "Folder-" + "1" == "Folder-1";
  }

  lemma One()
    ensures Itoa(1) == "1"
  {
  }

  lemma SpacedTrim()
    ensures Trim("Folder-1" + Spaces(192)) == "Folder-1"
  {
    TrimRightSpaces("Folder-1", 192);
    assert TrimLeft("Folder-1" + Spaces(192)) == "Folder-1" + Spaces(192);
  }

  lemma SpacedBase(e: Entry)
    requires e.kind.Folder? && e.title == "Folder-1" + Spaces(192) + "x"
    ensures Base(e) == "Folder-1" + Spaces(192)
  {
    var cut := "Folder-1" + Spaces(192);
    TrimTrims(e.title);
    FlatIsClean(e.title);
    hide Trim, Clean;
    assert Sanitized(e.title) == e.title[..200] == cut;
    NonLetter(Lower(cut), 6);
  }
}
