/** The account object behind IMAP, internal/imapbackend/user.go and the list loading of
    mailbox.go: the name index and the list cache. */
module ImapUser {
  import opened MailboxNames
  import opened NameIndex
  import opened NameResolution
  import opened Pager
  import opened SeqSets
  import opened Text

  const SUMMARY_CACHE_TTL: nat := 45_000_000_000

  // ---- The remote API ----

  datatype Named = Named(id: Id, title: string)

  datatype FoldersTags = FoldersTags(folders: seq<Named>, tags: seq<Named>)

  /** A mail-action request. */
  datatype Action = Action(id: int, verb: string, value: string, page: string)

  datatype Attempt = Attempt(action: Action, accepted: bool)

  /** Every answer is a function of the number of requests before it. */
  datatype Api = Api(
    foldersTags: nat -> Option<FoldersTags>,
    pages: (nat, MailboxSpec) -> (nat -> PageAnswer),  // to one load, page by page
    accepts: nat -> bool)

  class Remote {
    const api: Api
    var calls: nat
    ghost var attempts: seq<Attempt>

    constructor (api: Api)
      ensures this.api == api && attempts == []
    {
      this.api, calls, attempts := api, 0, [];
    }

    method ListFoldersTags() returns (r: Option<FoldersTags>)
      modifies this`calls
      ensures calls == old(calls) + 1 && r == api.foldersTags(old(calls))
    {
      r := api.foldersTags(calls);
      calls := calls + 1;
    }

    /** `load` is the number of requests before this load began. */
    method ListPage(load: nat, spec: MailboxSpec, page: nat) returns (p: PageAnswer)
      modifies this`calls
      ensures calls == old(calls) + 1 && p == api.pages(load, spec)(page)
    {
      p := api.pages(load, spec)(page);
      calls := calls + 1;
    }

    method MailAction(a: Action) returns (ok: bool)
      modifies this
      ensures calls == old(calls) + 1 && ok == api.accepts(old(calls))
      ensures attempts == old(attempts) + [Attempt(a, ok)]
    {
      ok := api.accepts(calls);
      calls := calls + 1;
      attempts := attempts + [Attempt(a, ok)];
    }
  }

  // ---- Mailboxes there can be ----

  /** The six standard mailboxes, and folders and tags with an id. */
  predicate Known(spec: MailboxSpec) {
    spec in STANDARD || ((spec.param1 == "folders" || spec.param1 == "tags") && spec.param2 != "")
  }

  predicate AllKnown(index: Index) {
    forall name :: name in index ==> Known(index[name])
  }

  lemma KnownHasNoSlash(spec: MailboxSpec)
    requires Known(spec)
    ensures '/' !in spec.param1
  {
  }

  lemma ParsedIsKnown(name: string)
    requires ParseMailboxName(name).Some?
    ensures Known(ParseMailboxName(name).value)
  {
    var low := Lower(Trim(name));
    assert Atoi("") == None;
  }

  lemma {:induction false} ListKnown(entries: seq<Entry>, n: nat)
    requires n <= |entries|
    ensures AllKnown(List(entries, n).index)
  {
    hide Last, Alias, Add, List, StandardIndex;
    if n > 0 {
      ListKnown(entries, n - 1);
      OneMoreName(entries, n);
      assert Known(Spec(entries[n - 1]));
    } else {
      ListNothing(entries);
      StandardKnown();
    }
  }

  lemma StandardKnown()
    ensures AllKnown(StandardIndex())
  {
  }

  /** Folders first, then tags, as LIST shows them. */
  function EntriesOf(ft: FoldersTags): (entries: seq<Entry>)
    ensures |entries| == |ft.folders| + |ft.tags|
  {
    seq(|ft.folders|, i requires 0 <= i < |ft.folders| => Entry(Folder, ft.folders[i].id, ft.folders[i].title))
    + seq(|ft.tags|, i requires 0 <= i < |ft.tags| => Entry(Tag, ft.tags[i].id, ft.tags[i].title))
  }

  /** How a folder or tag is shown: under its title if that is plain, under its id if
      there is none, and in any case under a name that begins so; `own` begins the name
      made of the id, and `prefix` all names. */
  predicate ShownAs(name: string, earlier: seq<string>, title: string, prefix: string, own: string, id: Id) {
    && HasPrefix(name, prefix)
    && (PlainTitle(Trim(title)) ==> NamedAfter(name, earlier, prefix + Trim(title)))
    && (NoTitle(Trim(title)) ==> NamedAfter(name, earlier, own + Itoa(id)))
  }

  /** LIST shows the folders and then the tags, in the order of the API, each under a
      name of its kind and for its own mailbox. */
  predicate Shows(ft: FoldersTags, names: seq<string>, specs: seq<MailboxSpec>) {
    && |names| == |specs| == |ft.folders| + |ft.tags|
    && (forall i :: 0 <= i < |ft.folders| ==>
          && specs[i] == FolderSpec(ft.folders[i].id)
          && ShownAs(names[i], names[..i], ft.folders[i].title, "", "Folder-", ft.folders[i].id))
    && (forall j :: 0 <= j < |ft.tags| ==>
          && specs[|ft.folders| + j] == TagSpec(ft.tags[j].id)
          && ShownAs(names[|ft.folders| + j], names[..|ft.folders| + j], ft.tags[j].title, "Tag-", "Tag-", ft.tags[j].id))
  }

  function NamesOf(extras: seq<(string, MailboxSpec)>): (names: seq<string>)
    ensures |names| == |extras|
  {
    seq(|extras|, i requires 0 <= i < |extras| => extras[i].0)
  }

  function SpecsOf(extras: seq<(string, MailboxSpec)>): (specs: seq<MailboxSpec>)
    ensures |specs| == |extras|
  {
    seq(|extras|, i requires 0 <= i < |extras| => extras[i].1)
  }

  lemma EntryShown(entries: seq<Entry>, i: nat)
    requires i < |entries|
    ensures var names := List(entries, |entries|).names; var e := entries[i];
            i < |names|
            && (if e.kind.Folder? then ShownAs(names[i], names[..i], e.title, "", "Folder-", e.id)
                else ShownAs(names[i], names[..i], e.title, "Tag-", "Tag-", e.id))
  {
    hide List, Base, PlainTitle, NoTitle, Itoa, Trim;
    ListedNamedAfter(entries, i);
    TitleBase(entries[i]);
    assert "" + Trim(entries[i].title) == Trim(entries[i].title);
    var name := List(entries, |entries|).names[i];
    assert |Base(entries[i])| >= 4 ==> name[..4] == Base(entries[i])[..4];
  }

  /** What a rebuild lists. */
  lemma ListingShows(ft: FoldersTags)
    ensures var entries := EntriesOf(ft);
            Shows(ft, List(entries, |entries|).names, seq(|entries|, i requires 0 <= i < |entries| => Spec(entries[i])))
  {
    hide List, ShownAs;
    var entries := EntriesOf(ft);
    ListLength(entries, |entries|);
    forall i | 0 <= i < |entries|
      ensures var names := List(entries, |entries|).names; var e := entries[i];
            i < |names|
            && (if e.kind.Folder? then ShownAs(names[i], names[..i], e.title, "", "Folder-", e.id)
                else ShownAs(names[i], names[..i], e.title, "Tag-", "Tag-", e.id))
    {
      EntryShown(entries, i);
    }
  }

  lemma ExtrasShow(ft: FoldersTags, extras: seq<(string, MailboxSpec)>)
    requires var entries := EntriesOf(ft); var names := List(entries, |entries|).names;
             |extras| == |names| == |entries| && forall i :: 0 <= i < |entries| ==> extras[i] == (names[i], Spec(entries[i]))
    ensures Shows(ft, NamesOf(extras), SpecsOf(extras))
  {
    hide Shows, List, Spec, EntriesOf;
    ListingShows(ft);
    var entries := EntriesOf(ft);
    assert NamesOf(extras) == List(entries, |entries|).names;
    assert SpecsOf(extras) == seq(|entries|, i requires 0 <= i < |entries| => Spec(entries[i]));
  }

  /** The index after a refresh: rebuilt, or left alone when the API did not answer. */
  function Refreshed(index: Index, answer: Option<FoldersTags>): Index {
    match answer
    case None => index
    case Some(ft) => List(EntriesOf(ft), |EntriesOf(ft)|).index
  }

  /** What the lookup after a refresh may find: the name itself, or else any name equal
      to it but for case. */
  predicate Found(index: Index, name: string, r: Option<MailboxSpec>) {
    if name in index then r == Some(index[name])
    else if r.Some? then exists k :: k in index && Lower(k) == Lower(name) && index[k] == r.value
    else forall k :: k in index ==> Lower(k) != Lower(name)
  }

  /** The name is in the index, or would be but for case. */
  predicate Matches(index: Index, name: string) {
    name in index || exists k :: k in index && Lower(k) == Lower(name)
  }

  /** One candidate, when the index may have to be refreshed with `answer`: `r` is what it
      resolves to and `next` the index afterwards. */
  predicate Once(index: Index, answer: Option<FoldersTags>, candidate: string, r: Option<MailboxSpec>, next: Index) {
    if candidate == "" then r == None && next == index
    else if !IsTagName(candidate) && ParseMailboxName(candidate).Some? then r == ParseMailboxName(candidate) && next == index
    else if candidate in index then r == Some(index[candidate]) && next == index
    else
      && next == Refreshed(index, answer)
      && if IsTagName(candidate) && !Matches(next, candidate) then r == ParseMailboxName(candidate)
         else Found(next, candidate, r)
  }

  /** Whether it takes a request to the API. */
  predicate Asks(index: Index, candidate: string) {
    candidate != "" && candidate !in index && (IsTagName(candidate) || ParseMailboxName(candidate).None?)
  }

  /** The whole name and, if it fails, its last segment: `first` and `middle` are what the
      whole name came to, `r` and `next` the outcome. */
  predicate Resolved(index: Index, answers: nat -> Option<FoldersTags>, calls: nat, name: string,
                     first: Option<MailboxSpec>, middle: Index, r: Option<MailboxSpec>, next: Index)
  {
    var whole := Trim(name);
    var leaf := Trim(Leaf(whole));
    && Once(index, answers(calls), whole, first, middle)
    && if first.Some? || whole == "" || leaf == "" || leaf == whole then r == first && next == middle
       else Once(middle, answers(calls + if Asks(index, whole) then 1 else 0), leaf, r, next)
  }

  /** How many requests that takes. */
  function Questions(index: Index, middle: Index, name: string, first: Option<MailboxSpec>): nat {
    var whole := Trim(name);
    var leaf := Trim(Leaf(whole));
    (if Asks(index, whole) then 1 else 0)
    + if first.None? && whole != "" && leaf != whole && Asks(middle, leaf) then 1 else 0
  }

  /** A name that can be read, and does not start with "tag-", needs neither index nor
      request: Trash in any case, or folder-12. */
  lemma ReadResolves(index: Index, answers: nat -> Option<FoldersTags>, calls: nat, name: string,
                     first: Option<MailboxSpec>, middle: Index, r: Option<MailboxSpec>, next: Index)
    requires Trim(name) != "" && !IsTagName(Trim(name)) && ParseMailboxName(Trim(name)).Some?
    ensures Resolved(index, answers, calls, name, first, middle, r, next) ==>
      r == ParseMailboxName(Trim(name)) && next == index && Questions(index, middle, name, first) == 0
  {
    hide Trim, ParseMailboxName, Leaf, IsTagName;
  }

  /** The alias of a tag that the index has nothing for, before and after a refresh, is
      still read as that tag. */
  lemma UnlistedTagResolves(index: Index, answers: nat -> Option<FoldersTags>, calls: nat, tag: Id,
                            first: Option<MailboxSpec>, middle: Index, r: Option<MailboxSpec>, next: Index)
    requires var name := "Tag-" + Itoa(tag); name !in index && !Matches(Refreshed(index, answers(calls)), name)
    ensures var name := "Tag-" + Itoa(tag);
            Resolved(index, answers, calls, name, first, middle, r, next) ==>
              r == Some(TagSpec(tag)) && Questions(index, middle, name, first) == 1
  {
    hide Itoa, Trim, Lower, ParseMailboxName, Leaf, Matches, Refreshed;
    NumberedLower("Tag-", tag);
    LowerFixed();
    ParseCanonicalTag(tag);
    assert HasPrefix(Lower("Tag-" + Itoa(tag)), "tag-");
  }

  lemma TrimTwice(s: string)
    ensures Trim(Trim(s)) == Trim(s)
  {
    TrimTrims(s);
    TrimTrims(Trim(s));
  }

  /** A name in the index resolves to what `Hit` says, without a request. */
  lemma IndexedHits(index: Index, answer: Option<FoldersTags>, candidate: string, r: Option<MailboxSpec>, next: Index)
    requires candidate in index && candidate != "" && Once(index, answer, candidate, r, next)
    ensures r == Some(Hit(index, candidate)) && next == index && !Asks(index, candidate)
  {
  }

  /** After a listing, the resolver takes a listed name that trimming leaves alone to its
      own mailbox exactly under the condition of ListedResolves. */
  lemma ListedResolvesOnce(entries: seq<Entry>, i: nat, answer: Option<FoldersTags>, r: Option<MailboxSpec>,
                           next: Index)
    requires DistinctIds(entries) && i < |entries|
    ensures i < |List(entries, |entries|).names|
    ensures var l := List(entries, |entries|); var name := l.names[i];
            Trim(name) == name && Once(l.index, answer, name, r, next) ==>
              (r == Some(Spec(entries[i]))
               <==> if IsFolderNumber(name) then Lower(name) == Lower(Alias(entries[i]))
                    else Unclaimed(entries, name, i, |entries|))
  {
    hide *;
    ListedResolves(entries, i);
    ListedNotEmpty(entries, i);
    var l := List(entries, |entries|);
    if Trim(l.names[i]) == l.names[i] && Once(l.index, answer, l.names[i], r, next) {
      IndexedHits(l.index, answer, l.names[i], r, next);
    }
  }

  lemma ListedNotEmpty(entries: seq<Entry>, i: nat)
    requires i < |entries| && i < |List(entries, |entries|).names|
    ensures List(entries, |entries|).names[i] != ""
  {
    hide *;
    var k := ListedIsCandidate(entries, i, |entries|);
    CandidateShape(entries[i], k);
  }

  // ---- The list cache ----

  /** A mailbox list as it was fetched. */
  datatype Fetch = Fetch(spec: MailboxSpec, at: Time, mails: seq<Summary>)

  datatype CacheEntry = CacheEntry(at: Time, summaries: array<Summary>, spec: MailboxSpec)

  predicate IsFresh(f: Fetch, now: Time) {
    now - f.at < SUMMARY_CACHE_TTL
  }

  /** A cached list that may still be used. */
  predicate Usable(cached: map<string, Fetch>, spec: MailboxSpec, now: Time) {
    SpecCacheKey(spec) in cached && IsFresh(cached[SpecCacheKey(spec)], now)
  }

  /** The list a load gives: the cached one, or what the API's pages add up to. */
  function Loaded(cached: map<string, Fetch>, api: Api, calls: nat, maxList: int, spec: MailboxSpec, checkedAt: Time)
    : Option<seq<Summary>>
  {
    if Usable(cached, spec, checkedAt) then Some(cached[SpecCacheKey(spec)].mails)
    else Load(api.pages(calls, spec), maxList, 1, [])
  }

  /** How many requests it takes. */
  function LoadRequests(cached: map<string, Fetch>, api: Api, calls: nat, maxList: int, spec: MailboxSpec, checkedAt: Time): nat {
    if Usable(cached, spec, checkedAt) then 0 else Requests(api.pages(calls, spec), maxList, 1, [])
  }

  /** The cache after it: a fetched list is kept, with the time it was stored. */
  function CachedNext(cached: map<string, Fetch>, api: Api, calls: nat, maxList: int, spec: MailboxSpec,
                      checkedAt: Time, storedAt: Time): map<string, Fetch>
  {
    if Usable(cached, spec, checkedAt) then cached
    else
      match Load(api.pages(calls, spec), maxList, 1, [])
      case None => cached
      case Some(mails) => cached[SpecCacheKey(spec) := Fetch(spec, storedAt, mails)]
  }

  // ---- What the loops of RebuildMailboxNameIndex build ----

  function StandardUpTo(n: nat): Index
    requires n <= |STANDARD_NAMES|
  {
    if n == 0 then map[] else StandardUpTo(n - 1)[STANDARD_NAMES[n - 1] := StandardIndex()[STANDARD_NAMES[n - 1]]]
  }

  lemma StandardStep(n: nat)
    requires n < |STANDARD_NAMES|
    ensures ParseMailboxName(STANDARD_NAMES[n]) == Some(StandardIndex()[STANDARD_NAMES[n]])
    ensures CanonicalName(StandardIndex()[STANDARD_NAMES[n]]) == STANDARD_NAMES[n]
  {
    LowerFixed();
    TrimTrims(STANDARD_NAMES[n]);
    hide Trim, Lower;
  }

  lemma StandardAll()
    ensures StandardUpTo(|STANDARD_NAMES|) == StandardIndex()
  {
    assert StandardUpTo(1) == map["INBOX" := INBOX];
    assert StandardUpTo(2) == StandardUpTo(1)["Sent" := SENT];
    assert StandardUpTo(3) == StandardUpTo(2)["Drafts" := DRAFTS];
    assert StandardUpTo(4) == StandardUpTo(3)["Junk" := JUNK];
    assert StandardUpTo(5) == StandardUpTo(4)["Trash" := TRASH];
    assert StandardUpTo(6) == StandardUpTo(5)["Important" := IMPORTANT];
  }

  lemma ListAdds(entries: seq<Entry>, n: nat)
    requires n < |entries|
    ensures var l, e := List(entries, n), entries[n];
            var name := Candidate(Base(e), Spec(e), FirstFree(Base(e), Spec(e), l.occupied, 0));
            && List(entries, n + 1).names == l.names + [name]
            && List(entries, n + 1).occupied == l.occupied + {name}
            && List(entries, n + 1).index == l.index[name := Spec(e)][Alias(e) := Spec(e)]
  {
    hide Candidate, Base, Spec, Alias, FirstFree;
  }

  /** The first free candidate is unique. */
  lemma {:induction false} FreeIsFirst(base: string, spec: MailboxSpec, occupied: set<string>, i: nat, k: nat)
    requires i <= k && Candidate(base, spec, k) !in occupied
    requires forall j :: 0 <= j < k ==> Candidate(base, spec, j) in occupied
    ensures FirstFree(base, spec, occupied, i) == k
    decreases k - i
  {
    if i < k {
      FreeIsFirst(base, spec, occupied, i + 1, k);
    }
  }

  // ---- Cache keys ----

  predicate IsFolderOrTagKey(key: string) {
    HasPrefix(key, "folders/") || HasPrefix(key, "tags/")
  }

  lemma SameMailbox(s: MailboxSpec, t: MailboxSpec)
    requires Known(s) && Known(t) && SpecCacheKey(s) == SpecCacheKey(t)
    ensures s == t
  {
    KnownHasNoSlash(s);
    KnownHasNoSlash(t);
    SpecCacheKeyInjective(s, t);
  }

  /** A key starts like a folder's or a tag's exactly when it is one's. */
  lemma KeyTellsKind(spec: MailboxSpec)
    requires Known(spec)
    ensures IsFolderOrTagKey(SpecCacheKey(spec)) <==> spec.param1 == "folders" || spec.param1 == "tags"
  {
    var key := SpecCacheKey(spec);
    if spec.param2 != "" {
      assert key == spec.param1 + "/" + spec.param2;
      assert HasPrefix(key, spec.param1 + "/");
    } else {
      assert '/' !in key;
      assert "folders/"[7] == '/' && "tags/"[4] == '/';
      assert HasPrefix(key, "folders/") ==> '/' in key;
      assert HasPrefix(key, "tags/") ==> '/' in key;
    }
  }

  /** After a page that is not answered, among those asked for, the load fails and what is
      cached stays as it was. */
  lemma UnansweredCachesNothing(cached: map<string, Fetch>, api: Api, calls: nat, maxList: int, spec: MailboxSpec,
                                checkedAt: Time, storedAt: Time, page: nat)
    requires !Usable(cached, spec, checkedAt) && api.pages(calls, spec)(page).NoAnswer?
    requires 1 <= page <= LoadRequests(cached, api, calls, maxList, spec, checkedAt)
    ensures Loaded(cached, api, calls, maxList, spec, checkedAt) == None
    ensures CachedNext(cached, api, calls, maxList, spec, checkedAt, storedAt) == cached
  {
    hide Load, Requests;
    LoadFailsExactly(api.pages(calls, spec), maxList);
    BreaksHere(api.pages(calls, spec), page);
  }

  /** A list is used for 45 seconds from when it was stored, and is then asked for again; a
      load changes no other mailbox's list. */
  lemma CachedFor45Seconds(cached: map<string, Fetch>, api: Api, calls: nat, maxList: int, spec: MailboxSpec,
                           checkedAt: Time, storedAt: Time, later: Time, calls': nat)
    requires !Usable(cached, spec, checkedAt) && Load(api.pages(calls, spec), maxList, 1, []).Some?
    ensures var next := CachedNext(cached, api, calls, maxList, spec, checkedAt, storedAt);
      && Loaded(next, api, calls', maxList, spec, later)
         == (if later < storedAt + 45 * 1_000_000_000 then Load(api.pages(calls, spec), maxList, 1, [])
             else Load(api.pages(calls', spec), maxList, 1, []))
      && (forall key :: key in cached && key != SpecCacheKey(spec) ==> key in next && next[key] == cached[key])
      && (forall key :: key in next ==> key in cached || key == SpecCacheKey(spec))
  {
    hide Load;
  }

  // ---- The account object ----

  class User {
    const remote: Remote
    const maxList: int
    var specByListName: Index
    var listCache: map<string, CacheEntry>
    ghost var fetched: seq<Fetch>       // every list ever fetched
    ghost var origin: map<string, nat>  // where in `fetched` a cached list comes from

    ghost function Arrays(): set<array<Summary>>
      reads this
    {
      set key | key in listCache :: listCache[key].summaries
    }

    /** What the cache holds, by value. */
    ghost function Cached(): map<string, Fetch>
      reads this, Arrays()
    {
      map key | key in listCache ::
        Fetch(listCache[key].spec, listCache[key].at, listCache[key].summaries[..])
    }

    /** Every cached list is the list some fetch returned for the mailbox of its key. */
    ghost predicate Valid()
      reads this, Arrays()
    {
      && AllKnown(specByListName)
      && forall key :: key in listCache ==>
           && Known(Cached()[key].spec) && key == SpecCacheKey(Cached()[key].spec)
           && key in origin && origin[key] < |fetched| && fetched[origin[key]] == Cached()[key]
    }

    constructor (remote: Remote, maxList: int)
      ensures Valid() && Cached() == map[] && fetched == [] && specByListName == map[]
      ensures this.remote == remote && this.maxList == maxList
    {
      this.remote, this.maxList := remote, maxList;
      specByListName, listCache := map[], map[];
      fetched, origin := [], map[];
    }

    // ---- Names ----

    /** Resets the index and lists folders and tags in API order. */
    method RebuildMailboxNameIndex(answer: Option<FoldersTags>) returns (extras: seq<(string, MailboxSpec)>)
      modifies this`specByListName
      ensures AllKnown(specByListName)
      ensures answer.None? ==> specByListName == StandardIndex() && extras == []
      ensures answer.Some? ==>
        var entries := EntriesOf(answer.value); var l := List(entries, |entries|);
        && specByListName == l.index
        && |extras| == |l.names| == |entries|
        && forall i :: 0 <= i < |entries| ==> extras[i] == (l.names[i], Spec(entries[i]))
      ensures answer.Some? ==> Shows(answer.value, NamesOf(extras), SpecsOf(extras))
    {
      hide Shows, List, EntriesOf, NamesOf, SpecsOf;
      specByListName := map[];
      extras := [];
      for n := 0 to |STANDARD_NAMES|
        invariant specByListName == StandardUpTo(n)
      {
        var spec := ParseMailboxName(STANDARD_NAMES[n]);
        StandardStep(n);
        if spec.Some? {
          specByListName := specByListName[STANDARD_NAMES[n] := spec.value];
          specByListName := specByListName[CanonicalName(spec.value) := spec.value];
        }
      }
      StandardAll();
      StandardKnown();
      if answer.None? {
        return;
      }
      extras := ListEntries(EntriesOf(answer.value));
      ExtrasShow(answer.value, extras);
    }

    method ListEntries(entries: seq<Entry>) returns (extras: seq<(string, MailboxSpec)>)
      requires specByListName == StandardIndex()
      modifies this`specByListName
      ensures AllKnown(specByListName)
      ensures var l := List(entries, |entries|);
        && specByListName == l.index
        && |extras| == |l.names| == |entries|
        && forall i :: 0 <= i < |entries| ==> extras[i] == (l.names[i], Spec(entries[i]))
    {
      hide StandardIndex, Base, Spec, Alias, Candidate, FirstFree, List;
      extras := [];
      ListNothing(entries);
      var occupied := new Occupied(specByListName.Keys);
      for i := 0 to |entries|
        invariant fresh(occupied)
        invariant specByListName == List(entries, i).index && occupied.names == List(entries, i).occupied
        invariant |extras| == i && |List(entries, i).names| == i
        invariant forall j :: 0 <= j < i ==> extras[j] == (List(entries, i).names[j], Spec(entries[j]))
      {
        var e := entries[i];
        ListAdds(entries, i);
        var disp := UniqueName(occupied, e);
        specByListName := specByListName[disp := Spec(e)];
        specByListName := specByListName[Alias(e) := Spec(e)];
        extras := extras + [(disp, Spec(e))];
      }
      ListKnown(entries, |entries|);
    }

    static method UniqueName(occupied: Occupied, e: Entry) returns (name: string)
      modifies occupied
      ensures name == Candidate(Base(e), Spec(e), FirstFree(Base(e), Spec(e), old(occupied.names), 0))
      ensures occupied.names == old(occupied.names) + {name}
    {
      ghost var tried;
      name, tried := occupied.Unique(Base(e), Spec(e));
      FreeIsFirst(Base(e), Spec(e), old(occupied.names), 0, tried);
    }

    method RefreshFolderTagNameIndex()
      modifies this`specByListName, remote`calls
      ensures specByListName == Refreshed(old(specByListName), remote.api.foldersTags(old(remote.calls)))
      ensures AllKnown(old(specByListName)) ==> AllKnown(specByListName)
      ensures remote.calls == old(remote.calls) + 1
    {
      var answer := remote.ListFoldersTags();
      if answer.Some? {
        var _ := RebuildMailboxNameIndex(answer);
      }
    }

    method ResolveFromIndex(name: string) returns (r: Option<MailboxSpec>)
      requires AllKnown(specByListName)
      modifies this`specByListName, remote`calls
      ensures AllKnown(specByListName)
      ensures name in old(specByListName) ==>
        r == Some(old(specByListName)[name]) && specByListName == old(specByListName) && remote.calls == old(remote.calls)
      ensures name !in old(specByListName) ==>
        && remote.calls == old(remote.calls) + 1
        && specByListName == Refreshed(old(specByListName), remote.api.foldersTags(old(remote.calls)))
        && Found(specByListName, name, r)
      ensures r.Some? ==> Known(r.value)
    {
      if name in specByListName {
        return Some(specByListName[name]);
      }
      RefreshFolderTagNameIndex();
      if name in specByListName {
        return Some(specByListName[name]);
      }
      if k :| k in specByListName && Lower(k) == Lower(name) {
        return Some(specByListName[k]);
      }
      return None;
    }

    method ResolveMailboxSpecOnce(name: string) returns (r: Option<MailboxSpec>)
      requires AllKnown(specByListName)
      modifies this`specByListName, remote`calls
      ensures AllKnown(specByListName) && (r.Some? ==> Known(r.value))
      ensures Once(old(specByListName), remote.api.foldersTags(old(remote.calls)), Trim(name), r, specByListName)
      ensures remote.calls == old(remote.calls) + if Asks(old(specByListName), Trim(name)) then 1 else 0
    {
      hide Known, AllKnown, Refreshed, Trim, ParseMailboxName;
      var candidate := Trim(name);
      if candidate == "" {
        return None;
      }
      var tryTagFirst := HasPrefix(Lower(candidate), "tag-");
      if tryTagFirst {
        r := ResolveFromIndex(candidate);
        if r.Some? {
          return;
        }
      }
      r := ParseMailboxName(candidate);
      if r.Some? {
        ParsedIsKnown(candidate);
        return;
      }
      if !tryTagFirst {
        r := ResolveFromIndex(candidate);
      }
    }

    /** Tries the name and then, if that fails, its last segment; `first` and `middle` are
        what the name itself came to. */
    method ResolveMailboxSpec(name: string) returns (r: Option<MailboxSpec>, ghost first: Option<MailboxSpec>, ghost middle: Index)
      requires AllKnown(specByListName)
      modifies this`specByListName, remote`calls
      ensures AllKnown(specByListName) && (r.Some? ==> Known(r.value))
      ensures Resolved(old(specByListName), remote.api.foldersTags, old(remote.calls), name, first, middle, r, specByListName)
      ensures remote.calls == old(remote.calls) + Questions(old(specByListName), middle, name, first)
    {
      hide Known, AllKnown, Refreshed, Trim, ParseMailboxName, Found, Matches, Leaf;
      var whole := Trim(name);
      first, middle := None, specByListName;
      if whole == "" {
        return None, first, middle;
      }
      var leaf := ImapMailboxLeaf(whole);
      TrimTwice(name);
      TrimTwice(leaf);
      r := ResolveMailboxSpecOnce(whole);
      first, middle := r, specByListName;
      if r.Some? {
        return;
      }
      if Trim(leaf) != "" && Trim(leaf) != whole {
        r := ResolveMailboxSpecOnce(Trim(leaf));
      }
    }

    // ---- Lists ----

    /** Removes one mailbox's list from the cache. */
    method InvalidateSpec(spec: MailboxSpec)
      requires Valid()
      modifies this`listCache
      ensures Valid() && Arrays() <= old(Arrays())
      ensures Cached() == old(Cached()) - {SpecCacheKey(spec)}
    {
      listCache := listCache - {SpecCacheKey(spec)};
    }

    /** Removes the lists of all folders and tags, and no other, from the cache. */
    method InvalidateFolderTagListCaches()
      requires Valid()
      modifies this`listCache
      ensures Valid() && Arrays() <= old(Arrays())
      ensures Cached() == map key | key in old(Cached())
                && old(Cached())[key].spec.param1 != "folders" && old(Cached())[key].spec.param1 != "tags"
                :: old(Cached())[key]
    {
      hide SpecCacheKey, Known, AllKnown, IsFolderOrTagKey;
      DropFolderTagKeys();
      forall k | k in old(listCache)
        ensures IsFolderOrTagKey(k) <==> old(Cached())[k].spec.param1 == "folders" || old(Cached())[k].spec.param1 == "tags"
      {
        KeyTellsKind(old(Cached())[k].spec);
      }
    }

    method DropFolderTagKeys()
      modifies this`listCache
      ensures listCache == map k | k in old(listCache) && !IsFolderOrTagKey(k) :: old(listCache)[k]
    {
      hide HasPrefix;
      var keys := listCache.Keys;
      while keys != {}
        invariant keys <= old(listCache).Keys
        invariant forall k :: k in listCache <==> k in old(listCache) && (k in keys || !IsFolderOrTagKey(k))
        invariant forall k :: k in listCache ==> listCache[k] == old(listCache)[k]
        decreases keys
      {
        var k :| k in keys;
        keys := keys - {k};
        if HasPrefix(k, "folders/") || HasPrefix(k, "tags/") {
          listCache := listCache - {k};
        }
      }
    }

    /** Requests pages until one says there is no more. */
    method FetchPages(spec: MailboxSpec) returns (r: Option<seq<Summary>>)
      modifies remote`calls
      ensures r == Load(remote.api.pages(old(remote.calls), spec), maxList, 1, [])
      ensures remote.calls == old(remote.calls) + Requests(remote.api.pages(old(remote.calls), spec), maxList, 1, [])
      ensures r.None? <==> SomeBreaks(remote.api.pages(old(remote.calls), spec), 1, remote.calls - old(remote.calls))
    {
      LoadFailsExactly(remote.api.pages(remote.calls, spec), maxList);
      hide SomeBreaks;
      var load := remote.calls;
      var all: seq<Summary> := [];
      var page := 1;
      ghost var answers := remote.api.pages(load, spec);
      ghost var goal := Load(answers, maxList, 1, []);
      while true
        invariant 1 <= page <= MAX_PAGES && remote.calls == load + page - 1
        invariant Load(answers, maxList, page, all) == goal
        invariant page - 1 + Requests(answers, maxList, page, all) == Requests(answers, maxList, 1, [])
        decreases MAX_PAGES - page
      {
        var resp := remote.ListPage(load, spec, page);
        if resp.NoAnswer? {
          return None;
        }
        if !IsList(resp) {
          if page > 1 && |all| > 0 {
            break;
          }
          return None;
        }
        all := all + resp.mails;
        if |resp.mails| == 0 {
          break;
        }
        if |all| >= maxList {
          break;
        }
        if resp.total.Some? && resp.total.value > 0 && |all| >= resp.total.value {
          break;
        }
        if page + 1 > MAX_PAGES {
          break;
        }
        page := page + 1;
      }
      return Some(all);
    }

    /** A copy of the cached list while that is under 45 seconds old. */
    method FromCache(spec: MailboxSpec, now: Time) returns (r: Option<array<Summary>>)
      requires Valid() && Known(spec)
      ensures r.Some? == Usable(Cached(), spec, now)
      ensures r.Some? ==> fresh(r.value) && r.value !in Arrays()
      ensures r.Some? ==> var f := Cached()[SpecCacheKey(spec)]; f.spec == spec && r.value[..] == f.mails
    {
      var key := SpecCacheKey(spec);
      if key in listCache && now - listCache[key].at < SUMMARY_CACHE_TTL {
        SameMailbox(spec, listCache[key].spec);
        var copy := Copy(listCache[key].summaries[..]);
        return Some(copy);
      }
      return None;
    }

    /** Puts a copy of a fetched list into the cache. */
    method Remember(spec: MailboxSpec, now: Time, mails: seq<Summary>)
      requires Valid() && Known(spec)
      modifies this`listCache, this`fetched, this`origin
      ensures Valid()
      ensures forall a :: a in Arrays() ==> a in old(Arrays()) || fresh(a)
      ensures Cached() == old(Cached())[SpecCacheKey(spec) := Fetch(spec, now, mails)]
      ensures fetched == old(fetched) + [Fetch(spec, now, mails)]
    {
      hide SpecCacheKey, Known, Cached, Valid;
      var key := SpecCacheKey(spec);
      var kept := Copy(mails);
      listCache := listCache[key := CacheEntry(now, kept, spec)];
      fetched := fetched + [Fetch(spec, now, mails)];
      origin := origin[key := |fetched| - 1];
      CachedAfter(key, listCache[key]);
      ValidAfter(key, listCache[key]);
    }

    twostate lemma CachedAfter(key: string, new e: CacheEntry)
      requires forall a :: a in old(Arrays()) ==> a[..] == old(a[..])
      requires listCache == old(listCache)[key := e]
      ensures Cached() == old(Cached())[key := Fetch(e.spec, e.at, e.summaries[..])]
    {
      forall k | k in old(listCache)
        ensures old(listCache)[k].summaries in old(Arrays())
      {
      }
      assert Cached().Keys == old(Cached()).Keys + {key};
    }

    twostate lemma ValidAfter(key: string, new e: CacheEntry)
      requires old(Valid())
      requires Known(e.spec) && key == SpecCacheKey(e.spec) && specByListName == old(specByListName)
      requires listCache == old(listCache)[key := e]
      requires Cached() == old(Cached())[key := Fetch(e.spec, e.at, e.summaries[..])]
      requires fetched == old(fetched) + [Fetch(e.spec, e.at, e.summaries[..])] && origin == old(origin)[key := |old(fetched)|]
      ensures Valid()
    {
      hide Cached, Known, AllKnown, SpecCacheKey;
    }

    /** Nothing that leaves these fields and the cached arrays alone changes the cache; the
        name index may be another one. */
    twostate lemma Undisturbed()
      requires old(Valid())
      requires (specByListName == old(specByListName) || AllKnown(specByListName)) && listCache == old(listCache)
      requires fetched == old(fetched) && origin == old(origin)
      requires forall a :: a in old(Arrays()) ==> a[..] == old(a[..])
      ensures Valid() && Cached() == old(Cached()) && Arrays() == old(Arrays())
    {
      hide SpecCacheKey, Known, AllKnown;
    }

    /** The summaries of a mailbox in an array of the caller's own, from the cache or else
        fetched and cached. */
    method LoadSummaries(spec: MailboxSpec, checkedAt: Time, storedAt: Time) returns (r: Option<array<Summary>>)
      requires Valid() && Known(spec)
      modifies this`listCache, this`fetched, this`origin, remote`calls
      ensures Valid()
      ensures r.Some? ==> fresh(r.value) && r.value !in Arrays()
      ensures forall a :: a in Arrays() ==> a in old(Arrays()) || fresh(a)
      ensures var loaded := Loaded(old(Cached()), remote.api, old(remote.calls), maxList, spec, checkedAt);
        if loaded.None? then r == None else r.Some? && r.value[..] == loaded.value
      ensures Cached() == CachedNext(old(Cached()), remote.api, old(remote.calls), maxList, spec, checkedAt, storedAt)
      ensures remote.calls == old(remote.calls) + LoadRequests(old(Cached()), remote.api, old(remote.calls), maxList, spec, checkedAt)
      ensures old(fetched) <= fetched
      ensures r.None? <==> !Usable(old(Cached()), spec, checkedAt)
                           && SomeBreaks(remote.api.pages(old(remote.calls), spec), 1, remote.calls - old(remote.calls))
      ensures r.None? ==> Cached() == old(Cached())
    {
      hide SomeBreaks, Load, Requests, SpecCacheKey, IsFresh, Known, Cached, Valid;
      r := FromCache(spec, checkedAt);
      Undisturbed();
      if r.Some? {
        return;
      }
      var all := FetchPages(spec);
      Undisturbed();
      if all.None? {
        return None;
      }
      Remember(spec, storedAt, all.value);
      label remembered:
      var out := Copy(all.value);
      Undisturbed@remembered();
      return Some(out);
    }

    static method Copy(s: seq<Summary>) returns (a: array<Summary>)
      ensures fresh(a) && a[..] == s
    {
      a := new Summary[|s|](i requires 0 <= i < |s| => s[i]);
    }
  }
}
