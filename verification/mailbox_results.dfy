/** What the requests of STORE, COPY and MOVE are, and what is deleted and what waits for
    EXPUNGE after them; internal/imapbackend/mailbox.go and names.go. */
module MailboxResults {
  import opened ImapUser
  import opened MailboxNames
  import opened MailboxPlans
  import opened SeqSets
  import opened Text

  // ---- Pages ----

  /** The page each mailbox is on. */
  lemma PageOf(id: Id)
    ensures PageId(INBOX) == "/inbox/" && PageId(SENT) == "/sent/" && PageId(DRAFTS) == "/draft/"
    ensures PageId(JUNK) == "/spam/" && PageId(TRASH) == "/trash/" && PageId(IMPORTANT) == "/important/"
    ensures PageId(FolderSpec(id)) == "/inbox/folders/" + Itoa(id) + "/"
    ensures PageId(TagSpec(id)) == "/inbox/tags/" + Itoa(id) + "/"
  {
  }

  /** Requests made in different mailboxes name different pages. */
  lemma PageIdInjective(s: MailboxSpec, t: MailboxSpec)
    requires Known(s) && Known(t) && PageId(s) == PageId(t)
    ensures s == t
  {
    hide AtPage, PageId;
    PageShape(s);
    PageShape(t);
  }

  /** The mailbox whose page it is. */
  function AtPage(p: string): MailboxSpec
    requires |p| >= 6
  {
    if |p| > 11 then
      if p[7] == 'f' then MailboxSpec("folders", p[if |p| < 16 then |p| - 1 else 15..|p| - 1])
      else MailboxSpec("tags", p[if |p| < 13 then |p| - 1 else 12..|p| - 1])
    else if p[2] == 'e' then SENT
    else if p[1] == 'd' then DRAFTS
    else if p[1] == 't' then TRASH
    else if p[2] == 'p' then JUNK
    else if p[2] == 'm' then IMPORTANT
    else INBOX
  }

  lemma PageShape(s: MailboxSpec)
    requires Known(s)
    ensures |PageId(s)| >= 6 && s == AtPage(PageId(s))
  {
    hide AtPage, PageId;
    if s in STANDARD {
      StandardPage(s);
    } else if s.param1 == "folders" {
      FolderPage(s.param2);
    } else {
      TagPage(s.param2);
    }
  }

  lemma StandardPage(s: MailboxSpec)
    requires s in STANDARD
    ensures |PageId(s)| >= 6 && s == AtPage(PageId(s))
  {
  }

  lemma FolderPage(id: string)
    requires id != ""
    ensures var p := PageId(MailboxSpec("folders", id)); |p| >= 6 && AtPage(p) == MailboxSpec("folders", id)
  {
    var p := "/inbox/folders/" + id + "/";
    assert p[7] == "/inbox/folders/"[7];
    assert p[15..|p| - 1] == id;
  }

  lemma TagPage(id: string)
    requires id != ""
    ensures var p := PageId(MailboxSpec("tags", id)); |p| >= 6 && AtPage(p) == MailboxSpec("tags", id)
  {
    var p := "/inbox/tags/" + id + "/";
    assert p[7] == "/inbox/tags/"[7];
    assert p[12..|p| - 1] == id;
  }

  // ---- Requests ----

  /** A request is in the plan if and only if it is one of an addressed message. */
  lemma {:induction false} InPlan(order: Order, page: string, uid: bool, ranges: seq<SeqRange>, sums: seq<Summary>,
                                  i: nat, a: Action)
    requires i <= |sums|
    ensures a in Plan(order, page, uid, ranges, sums, i)
       <==> exists j :: i <= j < |sums| && Selected(uid, ranges, sums, j) && a in PerMessage(order, page, sums[j])
    decreases |sums| - i
  {
    hide Selected, PerMessage;
    if i < |sums| {
      InPlan(order, page, uid, ranges, sums, i + 1, a);
    }
  }

  /** What is asked of one message is `a`. */
  predicate Only(order: Order, page: string, s: Summary, a: Action) {
    PerMessage(order, page, s) == [a]
  }

  lemma OneEach(order: Order, page: string, uid: bool, ranges: seq<SeqRange>, sums: seq<Summary>,
                a: Action, verb: string, value: string)
    requires forall s: Summary :: Only(order, page, s, Action(s.id, verb, value, page))
    ensures a in Plan(order, page, uid, ranges, sums, 0)
       <==> a == Action(a.id, verb, value, page) && Addressed(uid, ranges, sums, 0, a.id)
  {
    hide Selected, PerMessage;
    InPlan(order, page, uid, ranges, sums, 0, a);
    forall s: Summary
      ensures a in PerMessage(order, page, s) <==> a == Action(s.id, verb, value, page)
    {
      assert Only(order, page, s, Action(s.id, verb, value, page));
    }
  }

  /** COPY and MOVE to a tag ask for each addressed message, and no other, to be put there
      by its id. */
  lemma ToTag(order: Order, page: string, uid: bool, ranges: seq<SeqRange>, sums: seq<Summary>, tag: Id, a: Action)
    requires order == Copy(TagSpec(tag)) || order == Move(TagSpec(tag))
    ensures a in Plan(order, page, uid, ranges, sums, 0)
       <==> a == Action(a.id, "move-to-tag", Itoa(tag), page) && Addressed(uid, ranges, sums, 0, a.id)
  {
    hide Plan, Addressed, Itoa;
    OneEach(order, page, uid, ranges, sums, a, "move-to-tag", Itoa(tag));
  }

  /** To a folder likewise. */
  lemma ToFolder(order: Order, page: string, uid: bool, ranges: seq<SeqRange>, sums: seq<Summary>, folder: Id, a: Action)
    requires order == Copy(FolderSpec(folder)) || order == Move(FolderSpec(folder))
    ensures a in Plan(order, page, uid, ranges, sums, 0)
       <==> a == Action(a.id, "move-to-folder", Itoa(folder), page) && Addressed(uid, ranges, sums, 0, a.id)
  {
    hide Plan, Addressed, Itoa;
    OneEach(order, page, uid, ranges, sums, a, "move-to-folder", Itoa(folder));
  }

  /** MOVE to the trash asks for their deletion. */
  lemma ToTrash(page: string, uid: bool, ranges: seq<SeqRange>, sums: seq<Summary>, a: Action)
    ensures a in Plan(Move(TRASH), page, uid, ranges, sums, 0)
       <==> a == Action(a.id, "delete", "", page) && Addressed(uid, ranges, sums, 0, a.id)
  {
    hide Plan, Addressed;
    OneEach(Move(TRASH), page, uid, ranges, sums, a, "delete", "");
  }

  /** The request a flag stands for. */
  predicate SetBy(flags: seq<Flag>, a: Action) {
    (a.verb == "read" && Seen in flags) || (a.verb == "delete" && Deleted in flags) || (a.verb == "important" && Flagged in flags)
  }

  lemma {:induction false} FlagRequests(id: int, op: FlagsOp, flags: seq<Flag>, page: string, k: nat, a: Action)
    requires k <= |flags|
    ensures a in FlagActions(id, op, flags, page, k)
       <==> !op.RemoveFlags? && a == Action(id, a.verb, "", page) && SetBy(flags[k..], a)
    decreases |flags| - k
  {
    if k < |flags| {
      FlagRequests(id, op, flags, page, k + 1, a);
      assert flags[k..] == [flags[k]] + flags[k + 1..];
    }
  }

  /** STORE asks for each addressed message to be marked read, deleted or important as the
      flags added or set say, and for nothing else; taking flags off asks for nothing. */
  lemma StoreRequests(op: FlagsOp, flags: seq<Flag>, page: string, uid: bool, ranges: seq<SeqRange>, sums: seq<Summary>,
                      a: Action)
    ensures a in Plan(Store(op, flags), page, uid, ranges, sums, 0)
       <==> && !op.RemoveFlags? && Addressed(uid, ranges, sums, 0, a.id)
            && a == Action(a.id, a.verb, "", page) && SetBy(flags, a)
  {
    hide Selected, Plan, FlagActions, SetBy;
    InPlan(Store(op, flags), page, uid, ranges, sums, 0, a);
    assert flags[0..] == flags;
    forall s: Summary
      ensures a in PerMessage(Store(op, flags), page, s)
         <==> !op.RemoveFlags? && a == Action(s.id, a.verb, "", page) && SetBy(flags, a)
    {
      FlagRequests(s.id, op, flags, page, 0, a);
    }
  }

  // ---- Outcomes ----

  /** In a mailbox with proper ids the addressed messages are those section 9 of RFC 3501
      names. */
  lemma AddressedRfc3501(uid: bool, ranges: seq<SeqRange>, sums: seq<Summary>, id: int)
    requires Sorted(sums) && HasUids(sums) && WellFormed(ranges)
    ensures Addressed(uid, ranges, sums, 0, id) <==> Names(uid, ranges, sums, id)
  {
    hide Selected, NamesAt, Sorted, WellFormed;
    forall j | 0 <= j < |sums|
      ensures Selected(uid, ranges, sums, j) <==> NamesAt(uid, ranges, sums, j)
    {
      NamedIsSelected(uid, ranges, sums, j);
    }
  }

  lemma AddressedFits(uid: bool, ranges: seq<SeqRange>, sums: seq<Summary>, id: int)
    requires HasUids(sums) && Addressed(uid, ranges, sums, 0, id)
    ensures ToUid(id) == id
  {
    hide Selected;
    var j :| 0 <= j < |sums| && Selected(uid, ranges, sums, j) && sums[j].id == id;
  }

  predicate Deletes(plan: seq<Action>, id: Uid) {
    exists a :: a in plan && a.verb == "delete" && ToUid(a.id) == id
  }

  /** Deleted are messages whose deletion is in the plan; all of them, if it succeeds. */
  lemma DeletedIsPlanned(plan: seq<Action>, accepts: nat -> bool, calls: nat, id: Uid)
    ensures id in DeletedUids(Tried(plan, accepts, calls)) ==> Deletes(plan, id)
    ensures Succeeds(plan, accepts, calls) && Deletes(plan, id) ==> id in DeletedUids(Tried(plan, accepts, calls))
  {
    hide Tried, Succeeds, ToUid;
    TriedIsPrefix(plan, accepts, calls);
    var t := Tried(plan, accepts, calls);
    if id in DeletedUids(t) {
      var x :| x in t && x.accepted && x.action.verb == "delete" && id == ToUid(x.action.id);
      var k :| 0 <= k < |t| && t[k] == x;
      assert ActionsOf(t)[k] == x.action && plan[k] == x.action;
    }
    if Succeeds(plan, accepts, calls) && Deletes(plan, id) {
      var a :| a in plan && a.verb == "delete" && ToUid(a.id) == id;
      var k :| 0 <= k < |plan| && plan[k] == a;
      assert t[k] in t && t[k].action == ActionsOf(t)[k];
    }
  }

  lemma TrashDeletes(page: string, uid: bool, ranges: seq<SeqRange>, sums: seq<Summary>, id: Uid)
    requires Sorted(sums) && HasUids(sums) && WellFormed(ranges)
    ensures Deletes(Plan(Move(TRASH), page, uid, ranges, sums, 0), id) <==> Names(uid, ranges, sums, id)
  {
    hide Plan, Addressed, Names, ToUid, Sorted, HasUids, WellFormed;
    var plan := Plan(Move(TRASH), page, uid, ranges, sums, 0);
    AddressedRfc3501(uid, ranges, sums, id);
    if Deletes(plan, id) {
      var a :| a in plan && a.verb == "delete" && ToUid(a.id) == id;
      ToTrash(page, uid, ranges, sums, a);
      AddressedFits(uid, ranges, sums, a.id);
    }
    if Names(uid, ranges, sums, id) {
      ToTrash(page, uid, ranges, sums, Action(id, "delete", "", page));
      AddressedFits(uid, ranges, sums, id);
    }
  }

  /** A MOVE to the trash that succeeds has had deleted exactly the messages section 9 of
      RFC 3501 names; one that fails, none but those. */
  lemma TrashRfc3501(page: string, uid: bool, ranges: seq<SeqRange>, sums: seq<Summary>, accepts: nat -> bool, calls: nat,
                     id: Uid)
    requires Sorted(sums) && HasUids(sums) && WellFormed(ranges)
    ensures var plan := Plan(Move(TRASH), page, uid, ranges, sums, 0);
      && (Succeeds(plan, accepts, calls) ==>
            (id in DeletedUids(Tried(plan, accepts, calls)) <==> Names(uid, ranges, sums, id)))
      && (id in DeletedUids(Tried(plan, accepts, calls)) ==> Names(uid, ranges, sums, id))
  {
    hide *;
    DeletedIsPlanned(Plan(Move(TRASH), page, uid, ranges, sums, 0), accepts, calls, id);
    TrashDeletes(page, uid, ranges, sums, id);
  }

  /** No other transfer deletes anything. */
  lemma TransferDeletesNothing(order: Order, page: string, uid: bool, ranges: seq<SeqRange>, sums: seq<Summary>,
                               accepts: nat -> bool, calls: nat)
    requires !order.Store? && (order.Move? ==> order.dest != TRASH) && Known(order.dest)
    ensures DeletedUids(Tried(Plan(order, page, uid, ranges, sums, 0), accepts, calls)) == {}
  {
    hide Plan, Tried, DeletedUids, Selected, ToUid;
    var plan := Plan(order, page, uid, ranges, sums, 0);
    forall id: Uid
      ensures id !in DeletedUids(Tried(plan, accepts, calls))
    {
      DeletedIsPlanned(plan, accepts, calls, id);
      if Deletes(plan, id) {
        var a :| a in plan && a.verb == "delete" && ToUid(a.id) == id;
        InPlan(order, page, uid, ranges, sums, 0, a);
      }
    }
  }

  /** What the requests made have had deleted is what section 9 of RFC 3501 names. */
  ghost predicate DeletedNamed(made: seq<Attempt>, uid: bool, ranges: seq<SeqRange>, sums: seq<Summary>) {
    Sorted(sums) && HasUids(sums) && WellFormed(ranges) ==>
      forall id: Uid :: id in DeletedUids(made) <==> Names(uid, ranges, sums, id)
  }

  lemma TrashDeletesNamed(page: string, uid: bool, ranges: seq<SeqRange>, sums: seq<Summary>, accepts: nat -> bool, calls: nat)
    requires Succeeds(Plan(Move(TRASH), page, uid, ranges, sums, 0), accepts, calls)
    ensures DeletedNamed(Tried(Plan(Move(TRASH), page, uid, ranges, sums, 0), accepts, calls), uid, ranges, sums)
  {
    hide Succeeds, Plan, Tried, DeletedUids, Names, Sorted, HasUids, WellFormed;
    if Sorted(sums) && HasUids(sums) && WellFormed(ranges) {
      forall id: Uid
        ensures id in DeletedUids(Tried(Plan(Move(TRASH), page, uid, ranges, sums, 0), accepts, calls)) <==> Names(uid, ranges, sums, id)
      {
        TrashRfc3501(page, uid, ranges, sums, accepts, calls, id);
      }
    }
  }
}

/** Of the commands as a whole. */
module MailboxOutcomes {
  import opened ImapUser
  import opened MailboxCommands
  import opened MailboxNames
  import opened MailboxPlans
  import opened MailboxResults
  import opened SeqSets

  /** Any other standard mailbox is no destination: nothing is asked, and the command fails
      if it addresses a message. COPY has the trash among these. */
  lemma Nowhere(order: Order, page: string, uid: bool, ranges: seq<SeqRange>, sums: seq<Summary>)
    requires !order.Store? && order.dest in STANDARD && (order.Move? ==> order.dest != TRASH)
    ensures Plan(order, page, uid, ranges, sums, 0) == []
    ensures Blocked(order, uid, ranges, sums) <==> exists id :: Addressed(uid, ranges, sums, 0, id)
  {
    hide Plan, Selected;
    ImpossiblePlan(order, page, uid, ranges, sums, 0);
    if AnySelected(uid, ranges, sums) {
      var j :| 0 <= j < |sums| && Selected(uid, ranges, sums, j);
      assert Addressed(uid, ranges, sums, 0, sums[j].id);
    }
  }

  /** After a STORE that succeeds, what waited for EXPUNGE still waits, and so do the
      messages named if \Deleted was added or set; if it was taken off, they do not. */
  lemma WaitsAfterStore(before: set<Uid>, op: FlagsOp, flags: seq<Flag>, page: string, uid: bool, ranges: seq<SeqRange>,
                        sums: seq<Summary>, accepts: nat -> bool, calls: nat, id: Uid)
    requires Sorted(sums) && HasUids(sums) && WellFormed(ranges)
    ensures var order := Store(op, flags);
      var plan := Plan(order, page, uid, ranges, sums, 0);
      Succeeds(plan, accepts, calls) ==>
        (id in Waiting(order, before, SelectedUids(uid, ranges, sums, |sums|), Tried(plan, accepts, calls))
         <==> if Deleted !in flags then id in before
              else if op.RemoveFlags? then id in before && !Names(uid, ranges, sums, id)
              else id in before || Names(uid, ranges, sums, id))
  {
    hide Plan, Tried, Succeeds, DeletedUids, Selected, Sorted, WellFormed, Names, SelectedUids, SelectedFrom;
    var plan := Plan(Store(op, flags), page, uid, ranges, sums, 0);
    SelectedAreNamed(uid, ranges, sums, id);
    if Succeeds(plan, accepts, calls) {
      StoreDeletes(op, flags, page, uid, ranges, sums, 0, accepts, calls);
    }
  }

  lemma SelectedAreNamed(uid: bool, ranges: seq<SeqRange>, sums: seq<Summary>, id: Uid)
    requires Sorted(sums) && HasUids(sums) && WellFormed(ranges)
    ensures id in SelectedUids(uid, ranges, sums, |sums|) <==> Names(uid, ranges, sums, id)
    ensures id in SelectedFrom(uid, ranges, sums, 0) <==> Names(uid, ranges, sums, id)
  {
    hide Selected, NamesAt, Sorted, WellFormed;
    forall j | 0 <= j < |sums|
      ensures Selected(uid, ranges, sums, j) <==> NamesAt(uid, ranges, sums, j)
      ensures UidOf(sums[j]) == sums[j].id
    {
      NamedIsSelected(uid, ranges, sums, j);
    }
  }

  lemma {:induction false} PlanOnPage(order: Order, page: string, uid: bool, ranges: seq<SeqRange>, sums: seq<Summary>, a: Action)
    requires a in Plan(order, page, uid, ranges, sums, 0)
    ensures a.page == page
  {
    hide Plan, Selected;
    InPlan(order, page, uid, ranges, sums, 0, a);
    if order.Store? {
      var j :| 0 <= j < |sums| && Selected(uid, ranges, sums, j) && a in PerMessage(order, page, sums[j]);
      FlagRequests(sums[j].id, order.op, order.flags, page, 0, a);
    }
  }

  /** Whatever STORE, COPY or MOVE does, and however it ends, its requests name the page of
      the mailbox it is given in. */
  twostate lemma RequestsHere(mailbox: Mailbox, order: Order, uid: bool, ranges: seq<SeqRange>, list: seq<Summary>, begun: nat,
                              ok: bool, k: nat)
    requires mailbox.Performed(order, uid, ranges, list, begun, ok)
    requires |old(mailbox.user.remote.attempts)| <= k < |mailbox.user.remote.attempts|
    ensures mailbox.user.remote.attempts[k].action.page == PageId(mailbox.spec)
  {
    hide Plan, Tried, Succeeds, Blocked, Waiting, SelectedUids, PageId;
    var plan := Plan(order, PageId(mailbox.spec), uid, ranges, list, 0);
    var accepts := mailbox.user.remote.api.accepts;
    TriedIsPrefix(plan, accepts, begun);
    var i := k - |old(mailbox.user.remote.attempts)|;
    var t := Tried(plan, accepts, begun);
    assert mailbox.user.remote.attempts[k] == t[i];
    assert ActionsOf(t)[i] == t[i].action && plan[i] == t[i].action;
    PlanOnPage(order, PageId(mailbox.spec), uid, ranges, list, t[i].action);
  }
}
