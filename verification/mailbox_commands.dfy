/** What STORE, COPY, MOVE and EXPUNGE ask of the API, internal/imapbackend/mailbox.go. */
module MailboxPlans {
  import opened ImapUser
  import opened MailboxNames
  import opened SeqSets
  import opened Seqs
  import opened Text

  datatype Flag = Seen | Deleted | Flagged | OtherFlag
  datatype FlagsOp = SetFlags | AddFlags | RemoveFlags

  /** PageIDForMailboxSpec */
  function PageId(spec: MailboxSpec): string {
    if spec.param1 == "sent" then "/sent/"
    else if spec.param1 == "draft" then "/draft/"
    else if spec.param1 == "trash" then "/trash/"
    else if spec.param1 == "spam" then "/spam/"
    else if spec.param1 == "important" then "/important/"
    else if spec.param1 == "folders" && spec.param2 != "" then "/inbox/folders/" + spec.param2 + "/"
    else if spec.param1 == "tags" && spec.param2 != "" then "/inbox/tags/" + spec.param2 + "/"
    else "/inbox/"
  }

  // ---- Requests made until one fails ----

  /** The requests made out of `actions`, in order, up to and including the first that
      is not accepted; `calls` requests were made before. */
  function Tried(actions: seq<Action>, accepts: nat -> bool, calls: nat): seq<Attempt> {
    if actions == [] then []
    else
      [Attempt(actions[0], accepts(calls))]
      + if accepts(calls) then Tried(actions[1..], accepts, calls + 1) else []
  }

  /** All of them are accepted. */
  predicate Succeeds(actions: seq<Action>, accepts: nat -> bool, calls: nat) {
    actions == [] || (accepts(calls) && Succeeds(actions[1..], accepts, calls + 1))
  }

  lemma {:induction false} TriedConcat(a: seq<Action>, b: seq<Action>, accepts: nat -> bool, calls: nat)
    ensures Succeeds(a + b, accepts, calls) <==> Succeeds(a, accepts, calls) && Succeeds(b, accepts, calls + |a|)
    ensures Tried(a + b, accepts, calls)
         == Tried(a, accepts, calls) + if Succeeds(a, accepts, calls) then Tried(b, accepts, calls + |a|) else []
    decreases |a|
  {
    if a == [] {
      assert a + b == b;
    } else {
      ConcatTail(a, b);
      TriedConcat(a[1..], b, accepts, calls + 1);
    }
  }

  function ActionsOf(attempts: seq<Attempt>): (actions: seq<Action>)
    ensures |actions| == |attempts|
  {
    seq(|attempts|, i requires 0 <= i < |attempts| => attempts[i].action)
  }

  /** The requests made are a prefix of the plan, all accepted but possibly the last; all
      of the plan exactly when none was refused. */
  lemma {:induction false} TriedIsPrefix(actions: seq<Action>, accepts: nat -> bool, calls: nat)
    ensures var t := Tried(actions, accepts, calls);
            && ActionsOf(t) <= actions
            && (forall i :: 0 <= i < |t| - 1 ==> t[i].accepted)
            && (Succeeds(actions, accepts, calls) <==> ActionsOf(t) == actions && forall i :: 0 <= i < |t| ==> t[i].accepted)
            && (!Succeeds(actions, accepts, calls) ==> t != [] && !t[|t| - 1].accepted)
    decreases |actions|
  {
    if actions != [] {
      TriedIsPrefix(actions[1..], accepts, calls + 1);
      var t, u := Tried(actions, accepts, calls), Tried(actions[1..], accepts, calls + 1);
      if accepts(calls) {
        assert t[1..] == u;
        assert ActionsOf(t) == [actions[0]] + ActionsOf(u);
        assert forall i :: 0 < i < |t| ==> t[i] == u[i - 1];
      } else {
        assert ActionsOf(t) == [actions[0]];
      }
    }
  }

  /** Of `plan`, begun after `calls` requests, `made` has been requested and accepted and
      `left` remains. */
  predicate Progress(accepts: nat -> bool, calls: nat, plan: seq<Action>, made: seq<Attempt>, left: seq<Action>) {
    && Tried(plan, accepts, calls) == made + Tried(left, accepts, calls + |made|)
    && (Succeeds(plan, accepts, calls) <==> Succeeds(left, accepts, calls + |made|))
  }

  lemma ProgressStarts(accepts: nat -> bool, calls: nat, plan: seq<Action>)
    ensures Progress(accepts, calls, plan, [], plan)
  {
  }

  /** Requesting the next actions either moves the plan on or ends it. */
  lemma ProgressStep(accepts: nat -> bool, calls: nat, plan: seq<Action>, made: seq<Attempt>,
                     own: seq<Action>, rest: seq<Action>)
    requires Progress(accepts, calls, plan, made, own + rest)
    ensures var t := Tried(own, accepts, calls + |made|);
            if Succeeds(own, accepts, calls + |made|) then Progress(accepts, calls, plan, made + t, rest)
            else Tried(plan, accepts, calls) == made + t && !Succeeds(plan, accepts, calls)
  {
    hide Tried, Succeeds;
    var now := calls + |made|;
    var t := Tried(own, accepts, now);
    TriedConcat(own, rest, accepts, now);
    if Succeeds(own, accepts, now) {
      TriedLength(own, accepts, now);
      Assoc(made, t, Tried(rest, accepts, now + |own|));
    } else {
      assert t + [] == t;
    }
  }

  lemma {:induction false} TriedLength(actions: seq<Action>, accepts: nat -> bool, calls: nat)
    requires Succeeds(actions, accepts, calls)
    ensures |Tried(actions, accepts, calls)| == |actions|
    decreases |actions|
  {
    if actions != [] {
      TriedLength(actions[1..], accepts, calls + 1);
    }
  }

  lemma ProgressEnds(accepts: nat -> bool, calls: nat, plan: seq<Action>, made: seq<Attempt>)
    requires Progress(accepts, calls, plan, made, [])
    ensures Tried(plan, accepts, calls) == made && Succeeds(plan, accepts, calls)
  {
    assert made + [] == made;
  }

  // ---- Plans ----

  /** What one flag asks for. */
  function FlagAction(id: int, op: FlagsOp, flag: Flag, page: string): seq<Action> {
    if op.RemoveFlags? then []
    else
      match flag
      case Seen => [Action(id, "read", "", page)]
      case Deleted => [Action(id, "delete", "", page)]
      case Flagged => [Action(id, "important", "", page)]
      case OtherFlag => []
  }

  /** Those of the flags from `k` on. */
  function FlagActions(id: int, op: FlagsOp, flags: seq<Flag>, page: string, k: nat): seq<Action>
    requires k <= |flags|
    decreases |flags| - k
  {
    if k == |flags| then [] else FlagAction(id, op, flags[k], page) + FlagActions(id, op, flags, page, k + 1)
  }

  /** What one message takes to be copied; nothing is possible but tags and folders. */
  function CopyAction(dest: MailboxSpec, page: string, s: Summary): Option<Action> {
    if dest.param1 == "tags" then Some(Action(s.id, "move-to-tag", dest.param2, page))
    else if dest.param1 == "folders" then Some(Action(s.id, "move-to-folder", dest.param2, page))
    else None
  }

  /** Moving to the trash deletes. */
  function MoveAction(dest: MailboxSpec, page: string, s: Summary): Option<Action> {
    if dest.param1 == "trash" then Some(Action(s.id, "delete", "", page)) else CopyAction(dest, page, s)
  }

  /** What a command asks for each message, in the order of the list. */
  datatype Order =
    | Store(op: FlagsOp, flags: seq<Flag>)
    | Copy(dest: MailboxSpec)
    | Move(dest: MailboxSpec)

  predicate Possible(order: Order) {
    match order
    case Store(_, _) => true
    case Copy(dest) => dest.param1 == "tags" || dest.param1 == "folders"
    case Move(dest) => dest.param1 == "tags" || dest.param1 == "folders" || dest.param1 == "trash"
  }

  function PerMessage(order: Order, page: string, s: Summary): seq<Action> {
    match order
    case Store(op, flags) => FlagActions(s.id, op, flags, page, 0)
    case Copy(dest) => if CopyAction(dest, page, s).Some? then [CopyAction(dest, page, s).value] else []
    case Move(dest) => if MoveAction(dest, page, s).Some? then [MoveAction(dest, page, s).value] else []
  }

  /** The actions of the messages addressed, from index `i` on. */
  function Plan(order: Order, page: string, uid: bool, ranges: seq<SeqRange>, sums: seq<Summary>, i: nat): seq<Action>
    requires i <= |sums|
    decreases |sums| - i
  {
    if i == |sums| then []
    else
      (if Selected(uid, ranges, sums, i) then PerMessage(order, page, sums[i]) else [])
      + Plan(order, page, uid, ranges, sums, i + 1)
  }

  predicate AnySelected(uid: bool, ranges: seq<SeqRange>, sums: seq<Summary>) {
    exists i :: 0 <= i < |sums| && Selected(uid, ranges, sums, i)
  }

  /** `id` is that of an addressed message at index `i` or later. */
  predicate Addressed(uid: bool, ranges: seq<SeqRange>, sums: seq<Summary>, i: nat, id: int) {
    exists j :: i <= j < |sums| && Selected(uid, ranges, sums, j) && sums[j].id == id
  }

  predicate AllAddressed(uid: bool, ranges: seq<SeqRange>, sums: seq<Summary>, i: nat, plan: seq<Action>) {
    forall k :: 0 <= k < |plan| ==> Addressed(uid, ranges, sums, i, plan[k].id)
  }

  predicate Ascending(plan: seq<Action>) {
    forall k, l :: 0 <= k < l < |plan| ==> plan[k].id <= plan[l].id
  }

  /** A plan goes through the ids of addressed messages only, in ascending order. */
  lemma {:induction false} PlanAscends(order: Order, page: string, uid: bool, ranges: seq<SeqRange>,
                                       sums: seq<Summary>, i: nat)
    requires i <= |sums| && Sorted(sums)
    ensures var plan := Plan(order, page, uid, ranges, sums, i);
            AllAddressed(uid, ranges, sums, i, plan) && Ascending(plan)
    decreases |sums| - i
  {
    hide Selected, PerMessage, AllAddressed, Ascending;
    if i < |sums| {
      PlanAscends(order, page, uid, ranges, sums, i + 1);
      OneId(order, page, sums[i]);
      var own := if Selected(uid, ranges, sums, i) then PerMessage(order, page, sums[i]) else [];
      OwnFirst(uid, ranges, sums, i, own, Plan(order, page, uid, ranges, sums, i + 1));
    } else {
      NoneAscends(uid, ranges, sums, i);
    }
  }

  lemma NoneAscends(uid: bool, ranges: seq<SeqRange>, sums: seq<Summary>, i: nat)
    ensures AllAddressed(uid, ranges, sums, i, []) && Ascending([])
  {
  }

  lemma OwnFirst(uid: bool, ranges: seq<SeqRange>, sums: seq<Summary>, i: nat, own: seq<Action>, more: seq<Action>)
    requires i < |sums| && Sorted(sums)
    requires own == [] || Selected(uid, ranges, sums, i)
    requires AllFor(own, sums[i].id)
    requires AllAddressed(uid, ranges, sums, i + 1, more) && Ascending(more)
    ensures AllAddressed(uid, ranges, sums, i, own + more) && Ascending(own + more)
  {
    hide Selected;
    forall k | 0 <= k < |more|
      ensures Addressed(uid, ranges, sums, i, more[k].id) && sums[i].id <= more[k].id
    {
      var j :| i + 1 <= j < |sums| && Selected(uid, ranges, sums, j) && sums[j].id == more[k].id;
    }
  }

  predicate AllFor(actions: seq<Action>, id: int) {
    forall k :: 0 <= k < |actions| ==> actions[k].id == id
  }

  lemma OneId(order: Order, page: string, s: Summary)
    ensures AllFor(PerMessage(order, page, s), s.id)
  {
    if order.Store? {
      FlagIds(s.id, order.op, order.flags, page, 0);
    }
  }

  lemma {:induction false} FlagIds(id: int, op: FlagsOp, flags: seq<Flag>, page: string, k: nat)
    requires k <= |flags|
    ensures AllFor(FlagActions(id, op, flags, page, k), id)
    decreases |flags| - k
  {
    if k < |flags| {
      FlagIds(id, op, flags, page, k + 1);
      assert AllFor(FlagAction(id, op, flags[k], page), id);
    }
  }

  predicate StrictlyAscending(plan: seq<Action>) {
    forall k, l :: 0 <= k < l < |plan| ==> plan[k].id < plan[l].id
  }

  predicate HasId(plan: seq<Action>, id: int) {
    exists k :: 0 <= k < |plan| && plan[k].id == id
  }

  predicate Reaches(uid: bool, ranges: seq<SeqRange>, sums: seq<Summary>, i: nat, plan: seq<Action>) {
    forall j :: i <= j < |sums| && Selected(uid, ranges, sums, j) ==> HasId(plan, sums[j].id)
  }

  /** Copying and moving take one request for each addressed message. */
  lemma {:induction false} TransferPlan(order: Order, page: string, uid: bool, ranges: seq<SeqRange>,
                                        sums: seq<Summary>, i: nat)
    requires i <= |sums| && Sorted(sums) && HasUids(sums) && !order.Store? && Possible(order)
    ensures var plan := Plan(order, page, uid, ranges, sums, i);
            AllAddressed(uid, ranges, sums, i, plan) && StrictlyAscending(plan) && Reaches(uid, ranges, sums, i, plan)
    decreases |sums| - i
  {
    hide Selected, PerMessage, AllAddressed, StrictlyAscending, Reaches, Sorted, HasUids;
    if i < |sums| {
      TransferPlan(order, page, uid, ranges, sums, i + 1);
      var own := if Selected(uid, ranges, sums, i) then PerMessage(order, page, sums[i]) else [];
      OneRequest(order, page, sums[i]);
      TransferStep(uid, ranges, sums, i, own, Plan(order, page, uid, ranges, sums, i + 1));
    } else {
      NoTransfer(uid, ranges, sums, i);
    }
  }

  lemma NoTransfer(uid: bool, ranges: seq<SeqRange>, sums: seq<Summary>, i: nat)
    requires i == |sums|
    ensures AllAddressed(uid, ranges, sums, i, []) && StrictlyAscending([]) && Reaches(uid, ranges, sums, i, [])
  {
  }

  lemma OneRequest(order: Order, page: string, s: Summary)
    requires !order.Store? && Possible(order)
    ensures |PerMessage(order, page, s)| == 1 && PerMessage(order, page, s)[0].id == s.id
  {
  }

  lemma LaterIsGreater(uid: bool, ranges: seq<SeqRange>, sums: seq<Summary>, i: nat, id: int)
    requires i < |sums| && Sorted(sums) && HasUids(sums) && Addressed(uid, ranges, sums, i + 1, id)
    ensures Addressed(uid, ranges, sums, i, id) && sums[i].id < id
  {
    hide Selected;
    var j :| i + 1 <= j < |sums| && Selected(uid, ranges, sums, j) && sums[j].id == id;
  }

  lemma HasIdAppended(own: seq<Action>, more: seq<Action>, id: int)
    requires HasId(own, id) || HasId(more, id)
    ensures HasId(own + more, id)
  {
    if HasId(own, id) {
      var k :| 0 <= k < |own| && own[k].id == id;
      assert (own + more)[k].id == id;
    } else {
      var k :| 0 <= k < |more| && more[k].id == id;
      assert (own + more)[|own| + k].id == id;
    }
  }

  lemma TransferStep(uid: bool, ranges: seq<SeqRange>, sums: seq<Summary>, i: nat, own: seq<Action>, more: seq<Action>)
    requires i < |sums| && Sorted(sums) && HasUids(sums)
    requires if Selected(uid, ranges, sums, i) then |own| == 1 && own[0].id == sums[i].id else own == []
    requires AllAddressed(uid, ranges, sums, i + 1, more) && StrictlyAscending(more) && Reaches(uid, ranges, sums, i + 1, more)
    ensures AllAddressed(uid, ranges, sums, i, own + more) && StrictlyAscending(own + more)
    ensures Reaches(uid, ranges, sums, i, own + more)
  {
    hide Selected, Sorted, HasUids, Addressed, HasId;
    forall k | 0 <= k < |more|
      ensures Addressed(uid, ranges, sums, i, more[k].id) && sums[i].id < more[k].id
    {
      LaterIsGreater(uid, ranges, sums, i, more[k].id);
    }
    OwnIsAddressed(uid, ranges, sums, i);
    forall j | i <= j < |sums| && Selected(uid, ranges, sums, j)
      ensures HasId(own + more, sums[j].id)
    {
      if j == i {
        OwnHasId(own[0]);
        assert own == [own[0]];
      }
      HasIdAppended(own, more, sums[j].id);
    }
  }

  lemma OwnIsAddressed(uid: bool, ranges: seq<SeqRange>, sums: seq<Summary>, i: nat)
    requires i < |sums|
    ensures Selected(uid, ranges, sums, i) ==> Addressed(uid, ranges, sums, i, sums[i].id)
  {
  }

  lemma OwnHasId(a: Action)
    ensures HasId([a], a.id)
  {
    assert [a][0] == a;
  }

  /** Section 9 of RFC 3501 names the message with this id. */
  predicate Names(uid: bool, ranges: seq<SeqRange>, sums: seq<Summary>, id: int) {
    exists j :: 0 <= j < |sums| && NamesAt(uid, ranges, sums, j) && sums[j].id == id
  }

  predicate NamesAt(uid: bool, ranges: seq<SeqRange>, sums: seq<Summary>, j: nat)
    requires j < |sums|
  {
    if uid then sums[j].id >= 0 && sums[|sums| - 1].id >= 0 && Addresses(ranges, sums[j].id, sums[|sums| - 1].id)
    else Addresses(ranges, j + 1, |sums|)
  }

  lemma NamedIsSelected(uid: bool, ranges: seq<SeqRange>, sums: seq<Summary>, j: nat)
    requires j < |sums| && Sorted(sums) && HasUids(sums) && WellFormed(ranges)
    ensures Selected(uid, ranges, sums, j) <==> NamesAt(uid, ranges, sums, j)
  {
    hide Selected, Addresses, WellFormed, Sorted;
    SelectedIsRfc3501(uid, ranges, sums, j);
  }

  /** In a mailbox with proper ids COPY and MOVE ask once for each message section 9 of
      RFC 3501 names, for no other, and in ascending order. */
  lemma TransfersRfc3501(order: Order, page: string, uid: bool, ranges: seq<SeqRange>, sums: seq<Summary>, id: int)
    requires Sorted(sums) && HasUids(sums) && WellFormed(ranges) && !order.Store? && Possible(order)
    ensures var plan := Plan(order, page, uid, ranges, sums, 0);
            StrictlyAscending(plan) && (HasId(plan, id) <==> Names(uid, ranges, sums, id))
  {
    hide Selected, Plan, Possible, Sorted, WellFormed, Addresses;
    TransferPlan(order, page, uid, ranges, sums, 0);
    forall j | 0 <= j < |sums|
      ensures Selected(uid, ranges, sums, j) <==> NamesAt(uid, ranges, sums, j)
    {
      NamedIsSelected(uid, ranges, sums, j);
    }
    var plan := Plan(order, page, uid, ranges, sums, 0);
    if HasId(plan, id) {
      var k :| 0 <= k < |plan| && plan[k].id == id;
      assert Addressed(uid, ranges, sums, 0, plan[k].id);
    }
  }

  // ---- Messages waiting for EXPUNGE ----

  /** The messages whose deletion was accepted. */
  function DeletedUids(attempts: seq<Attempt>): set<Uid> {
    set a | a in attempts && a.accepted && a.action.verb == "delete" :: ToUid(a.action.id)
  }

  lemma DeletedConcat(a: seq<Attempt>, b: seq<Attempt>)
    ensures DeletedUids(a + b) == DeletedUids(a) + DeletedUids(b)
  {
    forall u | u in DeletedUids(a) + DeletedUids(b)
      ensures u in DeletedUids(a + b)
    {
      if u in DeletedUids(a) {
        var x :| x in a && x.accepted && x.action.verb == "delete" && u == ToUid(x.action.id);
        assert x in a + b;
      } else {
        var x :| x in b && x.accepted && x.action.verb == "delete" && u == ToUid(x.action.id);
        assert x in a + b;
      }
    }
  }
}

/** The mailbox object and its commands. */
module MailboxCommands {
  import opened ImapUser
  import opened MailboxNames
  import opened MailboxPlans
  import opened MailboxResults
  import opened NameIndex
  import opened SeqSets
  import opened Seqs
  import opened Text

  // ---- Sorting by id ----

  function Insert(x: Summary, s: seq<Summary>): seq<Summary> {
    if s == [] || x.id <= s[0].id then [x] + s else [s[0]] + Insert(x, s[1..])
  }

  function SortedById(s: seq<Summary>): seq<Summary> {
    if s == [] then [] else Insert(s[0], SortedById(s[1..]))
  }

  lemma {:induction false} InsertSorts(x: Summary, s: seq<Summary>)
    requires Sorted(s)
    ensures Sorted(Insert(x, s))
    ensures Insert(x, s)[0] == x || (s != [] && Insert(x, s)[0] == s[0])
  {
    if s != [] && x.id > s[0].id {
      InsertSorts(x, s[1..]);
      HeadSorts(s[0], Insert(x, s[1..]));
    } else if s != [] {
      HeadSorts(x, s);
    }
  }

  lemma HeadSorts(x: Summary, s: seq<Summary>)
    requires Sorted(s) && s != [] && x.id <= s[0].id
    ensures Sorted([x] + s)
  {
    assert forall i :: 0 <= i < |s| ==> s[0].id <= s[i].id;
  }

  lemma {:induction false} InsertKeeps(x: Summary, s: seq<Summary>)
    ensures multiset(Insert(x, s)) == multiset{x} + multiset(s)
  {
    if s != [] {
      InsertKeeps(x, s[1..]);
      assert s == [s[0]] + s[1..];
    }
  }

  lemma {:induction false} SortSorts(s: seq<Summary>)
    ensures Sorted(SortedById(s)) && multiset(SortedById(s)) == multiset(s)
  {
    hide Insert, Sorted;
    if s != [] {
      SortSorts(s[1..]);
      InsertSorts(s[0], SortedById(s[1..]));
      InsertKeeps(s[0], SortedById(s[1..]));
      assert s == [s[0]] + s[1..];
    } else {
      assert Sorted(s) by { NothingSorted(); }
    }
  }

  lemma NothingSorted()
    ensures Sorted([])
  {
  }

  /** sort.Slice by id, in place. */
  method SortById(a: array<Summary>)
    modifies a
    ensures Sorted(a[..]) && multiset(a[..]) == multiset(old(a[..]))
  {
    hide SortedById, Sorted;
    var s := SortedById(a[..]);
    SortSorts(a[..]);
    assert |s| == |multiset(s)| == |multiset(a[..])| == a.Length;
    for i := 0 to a.Length
      invariant a[..i] == s[..i]
    {
      a[i] := s[i];
    }
    assert a[..] == s;
  }

  /** A request to delete one of `uids`. */
  predicate AsksFor(uids: set<Uid>, page: string, a: Action) {
    0 <= a.id <= MAX_UID && a.id in uids && a == Action(a.id, "delete", "", page)
  }

  /** Distinct messages of `uids`; only the last deletion may have been refused. */
  predicate AskedOnce(uids: set<Uid>, page: string, made: seq<Attempt>) {
    && (forall i :: 0 <= i < |made| ==> AsksFor(uids, page, made[i].action))
    && (forall i :: 0 <= i < |made| - 1 ==> made[i].accepted)
    && (forall i, j :: 0 <= i < j < |made| ==> made[i].action.id != made[j].action.id)
  }

  /** All deletions accepted so far, `left` still to be asked for. */
  predicate Deleting(uids: set<Uid>, page: string, made: seq<Attempt>, left: set<Uid>) {
    && AskedOnce(uids, page, made)
    && (forall i :: 0 <= i < |made| ==> made[i].accepted)
    && left == uids - DeletedUids(made) && |made| + |left| == |uids|
  }

  lemma DeletingStarts(uids: set<Uid>, page: string)
    ensures Deleting(uids, page, [], uids)
  {
    DeletedNothing();
  }

  lemma DeletingEnds(uids: set<Uid>, page: string, made: seq<Attempt>)
    ensures Deleting(uids, page, made, {}) ==>
      AskedOnce(uids, page, made) && uids - DeletedUids(made) == {} && |made| == |uids|
  {
  }

  lemma DeletedOne(page: string, id: Uid, accepted: bool)
    ensures DeletedUids([Attempt(Action(id, "delete", "", page), accepted)]) == if accepted then {id} else {}
  {
    var a := Attempt(Action(id, "delete", "", page), accepted);
    assert a in [a] && ToUid(id) == id;
  }

  lemma AskedFor(uids: set<Uid>, page: string, made: seq<Attempt>, i: nat)
    requires AskedOnce(uids, page, made) && i < |made|
    ensures AsksFor(uids, page, made[i].action)
  {
  }

  lemma Fits(id: int)
    requires 0 <= id <= MAX_UID
    ensures ToUid(id) == id
  {
  }

  lemma NotAskedYet(uids: set<Uid>, page: string, made: seq<Attempt>, left: set<Uid>, id: Uid)
    ensures Deleting(uids, page, made, left) && id in left ==> forall i :: 0 <= i < |made| ==> made[i].action.id != id
  {
    hide AskedOnce, ToUid;
    forall i | 0 <= i < |made| && Deleting(uids, page, made, left) && id in left
      ensures made[i].action.id != id
    {
      var id' := made[i].action.id;
      assert AsksFor(uids, page, made[i].action) by { AskedFor(uids, page, made, i); }
      assert made[i] in made && ToUid(id') in DeletedUids(made);
      Fits(id');
    }
  }

  lemma DeletingStep(uids: set<Uid>, page: string, made: seq<Attempt>, left: set<Uid>, id: Uid)
    ensures Deleting(uids, page, made, left) && id in left ==>
      Deleting(uids, page, made + [Attempt(Action(id, "delete", "", page), true)], left - {id})
    ensures var refused := made + [Attempt(Action(id, "delete", "", page), false)];
      Deleting(uids, page, made, left) && id in left ==>
        AskedOnce(uids, page, refused) && left == uids - DeletedUids(refused)
  {
    hide DeletedUids;
    NotAskedYet(uids, page, made, left, id);
    DeletedOne(page, id, true);
    DeletedOne(page, id, false);
    DeletedConcat(made, [Attempt(Action(id, "delete", "", page), true)]);
    DeletedConcat(made, [Attempt(Action(id, "delete", "", page), false)]);
  }

  /** What the message at index `i` takes. */
  function Own(order: Order, page: string, uid: bool, ranges: seq<SeqRange>, sums: seq<Summary>, i: nat): seq<Action>
    requires i < |sums|
  {
    if Selected(uid, ranges, sums, i) then PerMessage(order, page, sums[i]) else []
  }

  predicate TakesOff(order: Order) {
    order.Store? && order.op.RemoveFlags?
  }

  lemma {:induction false} ImpossiblePlan(order: Order, page: string, uid: bool, ranges: seq<SeqRange>,
                                          sums: seq<Summary>, i: nat)
    requires i <= |sums|
    ensures !Possible(order) ==> Plan(order, page, uid, ranges, sums, i) == []
    decreases |sums| - i
  {
    hide Selected;
    if i < |sums| {
      ImpossiblePlan(order, page, uid, ranges, sums, i + 1);
    }
  }

  /** The loop ends with a refused request, or with an impossible destination and no
      request at all. */
  lemma Stopped(order: Order, page: string, uid: bool, ranges: seq<SeqRange>, sums: seq<Summary>, i: nat,
                accepts: nat -> bool, calls: nat, made: seq<Attempt>)
    requires i < |sums| && Selected(uid, ranges, sums, i)
    requires Progress(accepts, calls, Plan(order, page, uid, ranges, sums, 0), made, Plan(order, page, uid, ranges, sums, i))
    requires Possible(order) ==> !Succeeds(Own(order, page, uid, ranges, sums, i), accepts, calls + |made|)
    ensures var plan := Plan(order, page, uid, ranges, sums, 0);
      && Tried(plan, accepts, calls) == made + Tried(Own(order, page, uid, ranges, sums, i), accepts, calls + |made|)
      && Succeeds(plan, accepts, calls) == Blocked(order, uid, ranges, sums)
  {
    hide Selected;
    if Possible(order) {
      hide Plan, PerMessage, Tried, Succeeds, Own;
      PlanNext(order, page, uid, ranges, sums, i);
      ProgressStep(accepts, calls, Plan(order, page, uid, ranges, sums, 0), made, Own(order, page, uid, ranges, sums, i),
                   Plan(order, page, uid, ranges, sums, i + 1));
    } else {
      ImpossiblePlan(order, page, uid, ranges, sums, 0);
      ImpossiblePlan(order, page, uid, ranges, sums, i);
    }
  }

  /** Otherwise it goes on with the next message. */
  lemma Passed(order: Order, page: string, uid: bool, ranges: seq<SeqRange>, sums: seq<Summary>, i: nat,
               accepts: nat -> bool, calls: nat, made: seq<Attempt>)
    requires i < |sums| && Succeeds(Own(order, page, uid, ranges, sums, i), accepts, calls + |made|)
    requires Progress(accepts, calls, Plan(order, page, uid, ranges, sums, 0), made, Plan(order, page, uid, ranges, sums, i))
    ensures Progress(accepts, calls, Plan(order, page, uid, ranges, sums, 0),
                     made + Tried(Own(order, page, uid, ranges, sums, i), accepts, calls + |made|),
                     Plan(order, page, uid, ranges, sums, i + 1))
  {
    hide Plan, Tried, Succeeds, Own, Progress;
    PlanNext(order, page, uid, ranges, sums, i);
    ProgressStep(accepts, calls, Plan(order, page, uid, ranges, sums, 0), made, Own(order, page, uid, ranges, sums, i),
                 Plan(order, page, uid, ranges, sums, i + 1));
  }

  lemma PlanNext(order: Order, page: string, uid: bool, ranges: seq<SeqRange>, sums: seq<Summary>, i: nat)
    requires i < |sums|
    ensures Plan(order, page, uid, ranges, sums, i) == Own(order, page, uid, ranges, sums, i) + Plan(order, page, uid, ranges, sums, i + 1)
  {
    hide Selected, PerMessage;
  }

  lemma PlanEnds(order: Order, page: string, uid: bool, ranges: seq<SeqRange>, sums: seq<Summary>)
    ensures Plan(order, page, uid, ranges, sums, |sums|) == []
  {
  }

  lemma NothingTried(accepts: nat -> bool, calls: nat)
    ensures Tried([], accepts, calls) == [] && Succeeds([], accepts, calls)
  {
  }

  /** An impossible destination, which the first addressed message finds out. */
  predicate Blocked(order: Order, uid: bool, ranges: seq<SeqRange>, sums: seq<Summary>) {
    !Possible(order) && AnySelected(uid, ranges, sums)
  }

  /** The uids of the addressed messages before index `n`. */
  function SelectedUids(uid: bool, ranges: seq<SeqRange>, sums: seq<Summary>, n: nat): set<Uid>
    requires n <= |sums|
  {
    set i | 0 <= i < n && Selected(uid, ranges, sums, i) :: UidOf(sums[i])
  }

  /** Only STORE changes what waits for EXPUNGE. */
  function Waiting(order: Order, before: set<Uid>, uids: set<Uid>, made: seq<Attempt>): set<Uid> {
    if order.Store? then Pending(before, order.op, Deleted in order.flags, uids, made) else before
  }

  lemma WaitingStarts(order: Order, before: set<Uid>, uid: bool, ranges: seq<SeqRange>, sums: seq<Summary>)
    ensures Waiting(order, before, SelectedUids(uid, ranges, sums, 0), []) == before
  {
    DeletedNothing();
  }

  lemma WaitingIsDeleted(order: Order, before: set<Uid>, uids: set<Uid>, base: seq<Attempt>, made: seq<Attempt>)
    requires before <= DeletedUids(base)
    ensures Waiting(order, before, uids, made) <= DeletedUids(base + made)
  {
    hide DeletedUids;
    DeletedConcat(base, made);
  }

  lemma OthersWait(order: Order, before: set<Uid>)
    requires !order.Store?
    ensures forall uids, made :: Waiting(order, before, uids, made) == before
  {
  }

  lemma WaitingUnchanged(order: Order, before: set<Uid>)
    ensures Waiting(order, before, {}, []) == before
  {
    DeletedNothing();
  }

  lemma WaitingStep(order: Order, before: set<Uid>, uid: bool, ranges: seq<SeqRange>, sums: seq<Summary>, i: nat,
                    made: seq<Attempt>, more: seq<Attempt>)
    requires i < |sums|
    ensures var now := Waiting(order, before, SelectedUids(uid, ranges, sums, i), made);
      var next := Waiting(order, before, SelectedUids(uid, ranges, sums, i + 1), made + more);
      && Waiting(order, now, if Selected(uid, ranges, sums, i) then {UidOf(sums[i])} else {}, more) == next
      && (!TakesOff(order) ==> next == Waiting(order, before, SelectedUids(uid, ranges, sums, |sums|), made + more))
  {
    hide Selected, DeletedUids;
    DeletedConcat(made, more);
    assert SelectedUids(uid, ranges, sums, i + 1)
        == SelectedUids(uid, ranges, sums, i) + if Selected(uid, ranges, sums, i) then {UidOf(sums[i])} else {};
  }

  /** The messages waiting for EXPUNGE after a STORE: those whose deletion was accepted are
      added; taking the flag off removes them without telling the server. */
  function Pending(before: set<Uid>, op: FlagsOp, deleted: bool, uids: set<Uid>, made: seq<Attempt>): set<Uid> {
    if !op.RemoveFlags? then before + DeletedUids(made)
    else if deleted then before - uids
    else before
  }

  lemma TriedOne(a: Action, accepts: nat -> bool, calls: nat)
    ensures Tried([a], accepts, calls) == [Attempt(a, accepts(calls))] && Succeeds([a], accepts, calls) == accepts(calls)
  {
    assert [a][1..] == [];
  }

  /** An accepted flag deletes its message or nothing. */
  lemma FlagDeletes(id: int, op: FlagsOp, flag: Flag, page: string, accepts: nat -> bool, calls: nat)
    requires Succeeds(FlagAction(id, op, flag, page), accepts, calls)
    ensures DeletedUids(Tried(FlagAction(id, op, flag, page), accepts, calls))
         == if !op.RemoveFlags? && flag == Deleted then {ToUid(id)} else {}
  {
    hide ToUid;
    var t := Tried(FlagAction(id, op, flag, page), accepts, calls);
    if !op.RemoveFlags? && flag == Deleted {
      var delete := Action(id, "delete", "", page);
      TriedOne(delete, accepts, calls);
      assert t == [Attempt(delete, true)];
      assert Attempt(delete, true) in t;
    } else {
      assert forall a :: a in t ==> a.action.verb != "delete";
    }
  }

  lemma {:induction false} FlagsDelete(id: int, op: FlagsOp, flags: seq<Flag>, page: string, k: nat,
                                       accepts: nat -> bool, calls: nat)
    requires k <= |flags| && Succeeds(FlagActions(id, op, flags, page, k), accepts, calls)
    ensures DeletedUids(Tried(FlagActions(id, op, flags, page, k), accepts, calls))
         == if !op.RemoveFlags? && Deleted in flags[k..] then {ToUid(id)} else {}
    decreases |flags| - k
  {
    hide DeletedUids, Tried, Succeeds, FlagAction, ToUid;
    if k < |flags| {
      var own, more := FlagAction(id, op, flags[k], page), FlagActions(id, op, flags, page, k + 1);
      TriedConcat(own, more, accepts, calls);
      FlagDeletes(id, op, flags[k], page, accepts, calls);
      FlagsDelete(id, op, flags, page, k + 1, accepts, calls + |own|);
      DeletedConcat(Tried(own, accepts, calls), Tried(more, accepts, calls + |own|));
      assert flags[k..] == [flags[k]] + flags[k + 1..];
    } else {
      NothingTried(accepts, calls);
      DeletedNothing();
    }
  }

  /** The uids of the addressed messages from index `i` on. */
  function SelectedFrom(uid: bool, ranges: seq<SeqRange>, sums: seq<Summary>, i: nat): set<Uid> {
    set j | i <= j < |sums| && Selected(uid, ranges, sums, j) :: UidOf(sums[j])
  }

  /** A STORE that succeeds has had deleted exactly the addressed messages if it sets
      \Deleted, and none otherwise. */
  lemma {:induction false} StoreDeletes(op: FlagsOp, flags: seq<Flag>, page: string, uid: bool, ranges: seq<SeqRange>,
                                        sums: seq<Summary>, i: nat, accepts: nat -> bool, calls: nat)
    requires i <= |sums| && Succeeds(Plan(Store(op, flags), page, uid, ranges, sums, i), accepts, calls)
    ensures DeletedUids(Tried(Plan(Store(op, flags), page, uid, ranges, sums, i), accepts, calls))
         == if !op.RemoveFlags? && Deleted in flags then SelectedFrom(uid, ranges, sums, i) else {}
    decreases |sums| - i
  {
    hide DeletedUids, Tried, Succeeds, Selected, Plan, UidOf;
    var order := Store(op, flags);
    if i < |sums| {
      var own, more := Own(order, page, uid, ranges, sums, i), Plan(order, page, uid, ranges, sums, i + 1);
      PlanNext(order, page, uid, ranges, sums, i);
      TriedConcat(own, more, accepts, calls);
      OwnDeletes(op, flags, page, uid, ranges, sums, i, accepts, calls);
      StoreDeletes(op, flags, page, uid, ranges, sums, i + 1, accepts, calls + |own|);
      DeletedConcat(Tried(own, accepts, calls), Tried(more, accepts, calls + |own|));
      assert SelectedFrom(uid, ranges, sums, i)
          == (if Selected(uid, ranges, sums, i) then {UidOf(sums[i])} else {}) + SelectedFrom(uid, ranges, sums, i + 1);
    } else {
      PlanEnds(order, page, uid, ranges, sums);
      NothingTried(accepts, calls);
      DeletedNothing();
    }
  }

  lemma FlagSpares(id: int, op: FlagsOp, flag: Flag, page: string, accepts: nat -> bool, calls: nat)
    ensures DeletedUids(Tried(FlagAction(id, op, flag, page), accepts, calls))
         <= if !op.RemoveFlags? && flag == Deleted then {ToUid(id)} else {}
  {
    hide ToUid;
    var own := FlagAction(id, op, flag, page);
    if own != [] {
      TriedOne(own[0], accepts, calls);
      assert own == [own[0]];
    }
  }

  lemma {:induction false} FlagsSpare(id: int, op: FlagsOp, flags: seq<Flag>, page: string, k: nat,
                                      accepts: nat -> bool, calls: nat)
    requires k <= |flags|
    ensures DeletedUids(Tried(FlagActions(id, op, flags, page, k), accepts, calls))
         <= if !op.RemoveFlags? && Deleted in flags[k..] then {ToUid(id)} else {}
    decreases |flags| - k
  {
    hide DeletedUids, Tried, Succeeds, FlagAction, ToUid;
    DeletedNothing();
    if k < |flags| {
      var own, more := FlagAction(id, op, flags[k], page), FlagActions(id, op, flags, page, k + 1);
      TriedConcat(own, more, accepts, calls);
      FlagSpares(id, op, flags[k], page, accepts, calls);
      FlagsSpare(id, op, flags, page, k + 1, accepts, calls + |own|);
      DeletedConcat(Tried(own, accepts, calls), if Succeeds(own, accepts, calls) then Tried(more, accepts, calls + |own|) else []);
      assert flags[k..] == [flags[k]] + flags[k + 1..];
    } else {
      NothingTried(accepts, calls);
    }
  }

  lemma OwnSpares(op: FlagsOp, flags: seq<Flag>, page: string, uid: bool, ranges: seq<SeqRange>,
                  sums: seq<Summary>, i: nat, accepts: nat -> bool, calls: nat)
    requires i < |sums|
    ensures DeletedUids(Tried(Own(Store(op, flags), page, uid, ranges, sums, i), accepts, calls))
         <= if !op.RemoveFlags? && Deleted in flags && Selected(uid, ranges, sums, i) then {UidOf(sums[i])} else {}
  {
    hide DeletedUids, Tried, Succeeds, Selected;
    if Selected(uid, ranges, sums, i) {
      FlagsSpare(sums[i].id, op, flags, page, 0, accepts, calls);
      assert flags[0..] == flags;
    } else {
      NothingTried(accepts, calls);
      DeletedNothing();
    }
  }

  /** Whether it succeeds or not, a STORE has nothing deleted but addressed messages, and
      nothing at all unless it sets \Deleted. */
  lemma {:induction false} StoreSpares(op: FlagsOp, flags: seq<Flag>, page: string, uid: bool, ranges: seq<SeqRange>,
                                       sums: seq<Summary>, i: nat, accepts: nat -> bool, calls: nat)
    requires i <= |sums|
    ensures DeletedUids(Tried(Plan(Store(op, flags), page, uid, ranges, sums, i), accepts, calls))
         <= if !op.RemoveFlags? && Deleted in flags then SelectedFrom(uid, ranges, sums, i) else {}
    decreases |sums| - i
  {
    hide DeletedUids, Tried, Succeeds, Selected, Plan, UidOf;
    var order := Store(op, flags);
    DeletedNothing();
    if i < |sums| {
      var own, more := Own(order, page, uid, ranges, sums, i), Plan(order, page, uid, ranges, sums, i + 1);
      PlanNext(order, page, uid, ranges, sums, i);
      TriedConcat(own, more, accepts, calls);
      OwnSpares(op, flags, page, uid, ranges, sums, i, accepts, calls);
      StoreSpares(op, flags, page, uid, ranges, sums, i + 1, accepts, calls + |own|);
      DeletedConcat(Tried(own, accepts, calls), if Succeeds(own, accepts, calls) then Tried(more, accepts, calls + |own|) else []);
      assert SelectedFrom(uid, ranges, sums, i)
          == (if Selected(uid, ranges, sums, i) then {UidOf(sums[i])} else {}) + SelectedFrom(uid, ranges, sums, i + 1);
    } else {
      PlanEnds(order, page, uid, ranges, sums);
      NothingTried(accepts, calls);
    }
  }

  /** In a mailbox with proper ids those are the messages section 9 of RFC 3501 names. */
  lemma StoreRfc3501(op: FlagsOp, flags: seq<Flag>, page: string, uid: bool, ranges: seq<SeqRange>, sums: seq<Summary>,
                     accepts: nat -> bool, calls: nat, id: Uid)
    requires !op.RemoveFlags? && Deleted in flags && Sorted(sums) && HasUids(sums) && WellFormed(ranges)
    requires Succeeds(Plan(Store(op, flags), page, uid, ranges, sums, 0), accepts, calls)
    ensures id in DeletedUids(Tried(Plan(Store(op, flags), page, uid, ranges, sums, 0), accepts, calls))
       <==> Names(uid, ranges, sums, id)
  {
    hide DeletedUids, Tried, Succeeds, Selected, Plan, NamesAt, Sorted, WellFormed;
    StoreDeletes(op, flags, page, uid, ranges, sums, 0, accepts, calls);
    forall j | 0 <= j < |sums|
      ensures Selected(uid, ranges, sums, j) <==> NamesAt(uid, ranges, sums, j)
      ensures UidOf(sums[j]) == sums[j].id
    {
      NamedIsSelected(uid, ranges, sums, j);
    }
  }

  lemma OwnDeletes(op: FlagsOp, flags: seq<Flag>, page: string, uid: bool, ranges: seq<SeqRange>,
                   sums: seq<Summary>, i: nat, accepts: nat -> bool, calls: nat)
    requires i < |sums| && Succeeds(Own(Store(op, flags), page, uid, ranges, sums, i), accepts, calls)
    ensures DeletedUids(Tried(Own(Store(op, flags), page, uid, ranges, sums, i), accepts, calls))
         == if !op.RemoveFlags? && Deleted in flags && Selected(uid, ranges, sums, i) then {UidOf(sums[i])} else {}
  {
    hide DeletedUids, Tried, Succeeds, Selected;
    if Selected(uid, ranges, sums, i) {
      FlagsDelete(sums[i].id, op, flags, page, 0, accepts, calls);
      assert flags[0..] == flags;
    } else {
      NothingTried(accepts, calls);
      DeletedNothing();
    }
  }

  lemma DeletedNothing()
    ensures DeletedUids([]) == {}
  {
  }

  lemma PendingStep(before: set<Uid>, op: FlagsOp, flags: seq<Flag>, k: nat, uids: set<Uid>,
                    made: seq<Attempt>, more: seq<Attempt>)
    requires k < |flags|
    ensures Pending(Pending(before, op, Deleted in flags[..k], uids, made), op, flags[k] == Deleted, uids, more)
         == Pending(before, op, Deleted in flags[..k + 1], uids, made + more)
    ensures !op.RemoveFlags? ==>
      Pending(before, op, Deleted in flags[..k + 1], uids, made + more) == Pending(before, op, Deleted in flags, uids, made + more)
  {
    DeletedConcat(made, more);
    assert flags[..k + 1] == flags[..k] + [flags[k]];
  }

  // ---- The mailbox object ----

  class Mailbox {
    const user: User
    const spec: MailboxSpec
    var pendingDeleted: set<Uid>

    /** Every message waiting for EXPUNGE was deleted on the server already. */
    ghost predicate Valid()
      reads this, user, user.Arrays(), user.remote
    {
      user.Valid() && Known(spec) && pendingDeleted <= DeletedUids(user.remote.attempts)
    }

    constructor (user: User, spec: MailboxSpec)
      requires user.Valid() && Known(spec)
      ensures Valid() && this.user == user && this.spec == spec && pendingDeleted == {}
    {
      this.user, this.spec, pendingDeleted := user, spec, {};
    }

    /** Since `attempts` and `calls`, the actions of `plan` were requested until one was
        refused, and `ok` says that none was. */
    ghost predicate Went(attempts: seq<Attempt>, calls: nat, plan: seq<Action>, ok: bool)
      reads this, user.remote
    {
      var tried := Tried(plan, user.remote.api.accepts, calls);
      && user.remote.attempts == attempts + tried
      && user.remote.calls == calls + |tried|
      && ok == Succeeds(plan, user.remote.api.accepts, calls)
    }

    /** The flags of one message, in the order given; stops at the first refusal. */
    method ApplyFlagOp(id: int, op: FlagsOp, flags: seq<Flag>) returns (ok: bool)
      modifies this`pendingDeleted, user.remote
      ensures op.RemoveFlags? ==> ok
      ensures Went(old(user.remote.attempts), old(user.remote.calls), FlagActions(id, op, flags, PageId(spec), 0), ok)
      ensures pendingDeleted == Pending(old(pendingDeleted), op, Deleted in flags, {ToUid(id)},
                                        user.remote.attempts[|old(user.remote.attempts)|..])
    {
      hide Tried, Succeeds, DeletedUids, FlagAction, PageId;
      ghost var accepts, calls, base := user.remote.api.accepts, user.remote.calls, user.remote.attempts;
      ghost var plan := FlagActions(id, op, flags, PageId(spec), 0);
      ghost var made: seq<Attempt> := [];
      ProgressStarts(accepts, calls, plan);
      DeletedNothing();
      for k := 0 to |flags|
        invariant user.remote.attempts == base + made && user.remote.calls == calls + |made|
        invariant Progress(accepts, calls, plan, made, FlagActions(id, op, flags, PageId(spec), k))
        invariant pendingDeleted == Pending(old(pendingDeleted), op, Deleted in flags[..k], {ToUid(id)}, made)
      {
        ghost var own := FlagAction(id, op, flags[k], PageId(spec));
        ProgressStep(accepts, calls, plan, made, own, FlagActions(id, op, flags, PageId(spec), k + 1));
        ok := ApplyFlag(id, op, flags[k]);
        ghost var tried := Tried(own, accepts, calls + |made|);
        PendingStep(old(pendingDeleted), op, flags, k, {ToUid(id)}, made, tried);
        made := made + tried;
        if !ok {
          assert user.remote.attempts[|base|..] == made;
          return;
        }
      }
      ProgressEnds(accepts, calls, plan, made);
      assert user.remote.attempts[|base|..] == made;
      assert flags[..|flags|] == flags;
      return true;
    }

    method ApplyFlag(id: int, op: FlagsOp, flag: Flag) returns (ok: bool)
      modifies this`pendingDeleted, user.remote
      ensures op.RemoveFlags? ==> ok
      ensures Went(old(user.remote.attempts), old(user.remote.calls), FlagAction(id, op, flag, PageId(spec)), ok)
      ensures pendingDeleted == Pending(old(pendingDeleted), op, flag == Deleted, {ToUid(id)},
                Tried(FlagAction(id, op, flag, PageId(spec)), user.remote.api.accepts, old(user.remote.calls)))
    {
      ok := true;
      match flag {
        case Seen =>
          if op == AddFlags || op == SetFlags {
            ok := user.remote.MailAction(Action(id, "read", "", PageId(spec)));
          }
        case Deleted =>
          if op == AddFlags || op == SetFlags {
            ok := user.remote.MailAction(Action(id, "delete", "", PageId(spec)));
            if !ok {
              return;
            }
            pendingDeleted := pendingDeleted + {ToUid(id)};
          }
          if op == RemoveFlags {
            pendingDeleted := pendingDeleted - {ToUid(id)};
          }
        case Flagged =>
          if op == AddFlags || op == SetFlags {
            ok := user.remote.MailAction(Action(id, "important", "", PageId(spec)));
          }
        case OtherFlag =>
      }
    }

    // ---- The loop of STORE, COPY and MOVE ----

    /** What a command does with one message. */
    method Act(order: Order, s: Summary) returns (ok: bool)
      modifies this`pendingDeleted, user.remote
      ensures Went(old(user.remote.attempts), old(user.remote.calls), PerMessage(order, PageId(spec), s), ok || !Possible(order))
      ensures ok ==> Possible(order)
      ensures TakesOff(order) ==> ok
      ensures pendingDeleted == Waiting(order, old(pendingDeleted), {UidOf(s)}, user.remote.attempts[|old(user.remote.attempts)|..])
    {
      hide Tried, Succeeds, PageId, Pending;
      match order {
        case Store(op, flags) =>
          ok := ApplyFlagOp(s.id, op, flags);
        case Copy(dest) =>
          match dest.param1 {
            case "tags" => ok := Request(Action(s.id, "move-to-tag", dest.param2, PageId(spec)));
            case "folders" => ok := Request(Action(s.id, "move-to-folder", dest.param2, PageId(spec)));
            case _ => ok := Refuse();
          }
        case Move(dest) =>
          match dest.param1 {
            case "trash" => ok := Request(Action(s.id, "delete", "", PageId(spec)));
            case "tags" => ok := Request(Action(s.id, "move-to-tag", dest.param2, PageId(spec)));
            case "folders" => ok := Request(Action(s.id, "move-to-folder", dest.param2, PageId(spec)));
            case _ => ok := Refuse();
          }
      }
    }

    method Request(a: Action) returns (ok: bool)
      modifies user.remote
      ensures Went(old(user.remote.attempts), old(user.remote.calls), [a], ok)
    {
      ok := user.remote.MailAction(a);
    }

    /** The destination is no tag or folder. */
    method Refuse() returns (ok: bool)
      ensures !ok && Went(user.remote.attempts, user.remote.calls, [], true)
    {
      ok := false;
    }

    /** One turn of the loop: only an addressed message is acted on. */
    method Consider(order: Order, uid: bool, ranges: seq<SeqRange>, s: Summary, i: nat, maxSeq: nat, maxUid: Uid,
                    ghost list: seq<Summary>) returns (ok: bool)
      requires i < |list| && s == list[i] && maxSeq == |list| && maxUid == MaxUid(list)
      modifies this`pendingDeleted, user.remote
      ensures Went(old(user.remote.attempts), old(user.remote.calls), Own(order, PageId(spec), uid, ranges, list, i), ok || !Possible(order))
      ensures Selected(uid, ranges, list, i) ==> (ok ==> Possible(order)) && (TakesOff(order) ==> ok)
      ensures !Selected(uid, ranges, list, i) ==> ok
      ensures pendingDeleted == Waiting(order, old(pendingDeleted), if Selected(uid, ranges, list, i) then {UidOf(s)} else {},
                                        user.remote.attempts[|old(user.remote.attempts)|..])
    {
      hide Tried, Succeeds, PageId, PerMessage, Waiting, Possible, SeqSetAddressesMessage;
      var matchId := if uid then UidOf(s) else i + 1;
      if !SeqSetAddressesMessage(uid, ranges, matchId, maxSeq, maxUid) {
        NothingTried(user.remote.api.accepts, user.remote.calls);
        WaitingUnchanged(order, pendingDeleted);
        return true;
      }
      ok := Act(order, s);
    }

    /** Goes through the sorted list and stops at the first failure. */
    method ActOnEach(order: Order, uid: bool, ranges: seq<SeqRange>, sums: array<Summary>) returns (ok: bool)
      modifies this`pendingDeleted, user.remote
      ensures var plan := Plan(order, PageId(spec), uid, ranges, sums[..], 0);
        && Went(old(user.remote.attempts), old(user.remote.calls), plan, ok || Blocked(order, uid, ranges, sums[..]))
        && (ok ==> !Blocked(order, uid, ranges, sums[..]))
      ensures pendingDeleted == Waiting(order, old(pendingDeleted), SelectedUids(uid, ranges, sums[..], sums.Length),
                                        user.remote.attempts[|old(user.remote.attempts)|..])
    {
      hide Tried, Succeeds, Progress, Plan, PageId, Own, Waiting, SelectedUids, Selected, Possible, TakesOff;
      ghost var accepts, calls, base := user.remote.api.accepts, user.remote.calls, user.remote.attempts;
      ghost var list, page := sums[..], PageId(spec);
      ghost var plan := Plan(order, page, uid, ranges, list, 0);
      ghost var made: seq<Attempt> := [];
      ProgressStarts(accepts, calls, plan);
      WaitingStarts(order, pendingDeleted, uid, ranges, list);
      var maxSeq, maxUid := MailboxMaxSeqAndUid(sums[..]);
      for i := 0 to sums.Length
        invariant user.remote.attempts == base + made && user.remote.calls == calls + |made|
        invariant Progress(accepts, calls, plan, made, Plan(order, page, uid, ranges, list, i))
        invariant forall j :: 0 <= j < i && Selected(uid, ranges, list, j) ==> Possible(order)
        invariant pendingDeleted == Waiting(order, old(pendingDeleted), SelectedUids(uid, ranges, list, i), made)
      {
        ghost var tried := Tried(Own(order, page, uid, ranges, list, i), accepts, calls + |made|);
        WaitingStep(order, old(pendingDeleted), uid, ranges, list, i, made, tried);
        ok := Consider(order, uid, ranges, sums[i], i, maxSeq, maxUid, list);
        DropAppended(base + made, tried);
        Assoc(base, made, tried);
        if !ok {
          Stopped(order, page, uid, ranges, list, i, accepts, calls, made);
          DropAppended(base, made + tried);
          return;
        }
        Passed(order, page, uid, ranges, list, i, accepts, calls, made);
        made := made + tried;
      }
      PlanEnds(order, page, uid, ranges, list);
      ProgressEnds(accepts, calls, plan, made);
      DropAppended(base, made);
      return true;
    }

    // ---- Commands ----

    /** `ok` and the requests of `order` on the messages of `list` from the state before,
        after `begun` other requests; and what waits for EXPUNGE afterwards. */
    twostate predicate Performed(order: Order, uid: bool, ranges: seq<SeqRange>, new list: seq<Summary>, begun: nat, ok: bool)
      reads this, user.remote
    {
      var plan := Plan(order, PageId(spec), uid, ranges, list, 0);
      var made := Tried(plan, user.remote.api.accepts, begun);
      && user.remote.attempts == old(user.remote.attempts) + made
      && ok == (Succeeds(plan, user.remote.api.accepts, begun) && !Blocked(order, uid, ranges, list))
      && pendingDeleted == Waiting(order, old(pendingDeleted), SelectedUids(uid, ranges, list, |list|), made)
    }

    /** `list` is what a load begun after `asked` requests gives, in ascending order of ids. */
    twostate predicate Listed(asked: nat, checkedAt: Time, new list: Option<seq<Summary>>)
      requires old(user.Valid())
    {
      var loaded := Loaded(old(user.Cached()), user.remote.api, asked, user.maxList, spec, checkedAt);
      if loaded.None? then list.None?
      else list.Some? && Sorted(list.value) && multiset(list.value) == multiset(loaded.value)
    }

    /** What the cache holds after that load. */
    twostate function CacheAfterLoad(asked: nat, checkedAt: Time, storedAt: Time): map<string, Fetch> {
      CachedNext(old(user.Cached()), user.remote.api, asked, user.maxList, spec, checkedAt, storedAt)
    }

    /** How many requests that load takes. */
    twostate function RequestsOfLoad(asked: nat, checkedAt: Time): nat {
      LoadRequests(old(user.Cached()), user.remote.api, asked, user.maxList, spec, checkedAt)
    }

    method LoadSorted(checkedAt: Time, storedAt: Time) returns (r: Option<array<Summary>>)
      requires Valid()
      modifies user`listCache, user`fetched, user`origin, user.remote`calls
      ensures Valid()
      ensures Listed(old(user.remote.calls), checkedAt, if r.Some? then Some(r.value[..]) else None)
      ensures user.Cached() == CacheAfterLoad(old(user.remote.calls), checkedAt, storedAt)
      ensures user.remote.calls == old(user.remote.calls) + RequestsOfLoad(old(user.remote.calls), checkedAt)
      ensures r.Some? ==> fresh(r.value)
    {
      hide LoadRequests, Loaded, CachedNext, Known, DeletedUids, Sorted;
      r := user.LoadSummaries(spec, checkedAt, storedAt);
      if r.Some? {
        label loaded:
        SortById(r.value);
        user.Undisturbed@loaded();
      }
    }

    /** The loop on a loaded list: it leaves the cache alone, and what waits for EXPUNGE was
        deleted on the server. */
    method Perform(order: Order, uid: bool, ranges: seq<SeqRange>, sums: array<Summary>) returns (ok: bool)
      requires Valid()
      modifies this`pendingDeleted, user.remote
      ensures Valid() && user.Cached() == old(user.Cached())
      ensures Performed(order, uid, ranges, sums[..], old(user.remote.calls), ok)
      ensures !order.Store? ==> pendingDeleted == old(pendingDeleted)
      ensures order == Move(TRASH) && ok ==>
        DeletedNamed(user.remote.attempts[|old(user.remote.attempts)|..], uid, ranges, sums[..])
    {
      hide Loaded, CachedNext, Known, DeletedUids, Sorted, Plan, Tried, Succeeds, Waiting, Blocked, SelectedUids, DeletedNamed;
      ok := ActOnEach(order, uid, ranges, sums);
      user.Undisturbed();
      ghost var before := old(user.remote.attempts);
      ghost var made := Tried(Plan(order, PageId(spec), uid, ranges, sums[..], 0), user.remote.api.accepts, old(user.remote.calls));
      DropAppended(before, made);
      WaitingIsDeleted(order, old(pendingDeleted), SelectedUids(uid, ranges, sums[..], sums.Length), before, made);
      if !order.Store? {
        OthersWait(order, old(pendingDeleted));
      }
      if order == Move(TRASH) && ok {
        TrashDeletesNamed(PageId(spec), uid, ranges, sums[..], user.remote.api.accepts, old(user.remote.calls));
      }
    }

    /** STORE. The list of this mailbox is no longer cached after a success; after a failure
        it still is, out of date. */
    method UpdateMessagesFlags(uid: bool, ranges: seq<SeqRange>, op: FlagsOp, flags: seq<Flag>, checkedAt: Time, storedAt: Time)
      returns (ok: bool, ghost list: Option<seq<Summary>>, ghost begun: nat)
      requires Valid()
      modifies this`pendingDeleted, user`listCache, user`fetched, user`origin, user.remote
      ensures Valid()
      ensures Listed(old(user.remote.calls), checkedAt, list)
      ensures begun == old(user.remote.calls) + RequestsOfLoad(old(user.remote.calls), checkedAt)
      ensures list.None? ==> !ok && pendingDeleted == old(pendingDeleted) && user.remote.attempts == old(user.remote.attempts)
      ensures list.Some? ==> Performed(Store(op, flags), uid, ranges, list.value, begun, ok)
      ensures user.Cached() == CacheAfterLoad(old(user.remote.calls), checkedAt, storedAt) - if ok then {SpecCacheKey(spec)} else {}
    {
      hide Loaded, CachedNext, Known, DeletedUids, Sorted, Plan, Tried, Succeeds, Waiting, Blocked,
           SelectedUids, PageId, SpecCacheKey, User.Cached, User.Valid;
      list, ok := None, false;
      var sums := LoadSorted(checkedAt, storedAt);
      begun := user.remote.calls;
      if sums.None? {
        return;
      }
      list := Some(sums.value[..]);
      ok := Perform(Store(op, flags), uid, ranges, sums.value);
      if ok {
        user.InvalidateSpec(spec);
      }
    }

    /** `name` has been resolved to `r`, as ResolveMailboxSpec says. */
    twostate predicate ResolvedTo(name: string, new first: Option<MailboxSpec>, new middle: Index, new r: Option<MailboxSpec>)
      reads user
    {
      Resolved(old(user.specByListName), user.remote.api.foldersTags, old(user.remote.calls), name, first, middle, r,
               user.specByListName)
    }

    /** The mailbox a name stands for. */
    method Resolve(name: string) returns (r: Option<MailboxSpec>, ghost first: Option<MailboxSpec>, ghost middle: Index)
      requires Valid()
      modifies user`specByListName, user.remote`calls
      ensures Valid() && user.Cached() == old(user.Cached())
      ensures r.Some? ==> Known(r.value)
      ensures ResolvedTo(name, first, middle, r)
      ensures user.remote.calls == old(user.remote.calls) + Questions(old(user.specByListName), middle, name, first)
    {
      hide Known, AllKnown, DeletedUids, Resolved, Questions;
      r, first, middle := user.ResolveMailboxSpec(name);
      user.Undisturbed();
    }

    /** COPY, to a tag or a folder. No list is dropped from the cache, the destination's
        neither. */
    method CopyMessages(uid: bool, ranges: seq<SeqRange>, destName: string, checkedAt: Time, storedAt: Time)
      returns (ok: bool, ghost dest: Option<MailboxSpec>, ghost list: Option<seq<Summary>>, ghost asked: nat, ghost begun: nat,
               ghost first: Option<MailboxSpec>, ghost middle: Index)
      requires Valid()
      modifies this`pendingDeleted, user`specByListName, user`listCache, user`fetched, user`origin, user.remote
      ensures Valid() && pendingDeleted == old(pendingDeleted)
      ensures ResolvedTo(destName, first, middle, dest)
      ensures asked == old(user.remote.calls) + Questions(old(user.specByListName), middle, destName, first)
      ensures begun == asked + if dest.Some? then RequestsOfLoad(asked, checkedAt) else 0
      ensures dest.None? || list.None? ==> !ok && user.remote.attempts == old(user.remote.attempts)
      ensures dest.None? ==> user.Cached() == old(user.Cached())
      ensures dest.Some? ==>
        && Listed(asked, checkedAt, list)
        && user.Cached() == CacheAfterLoad(asked, checkedAt, storedAt)
      ensures dest.Some? && list.Some? ==> Performed(Copy(dest.value), uid, ranges, list.value, begun, ok)
    {
      hide Loaded, CachedNext, Known, DeletedUids, Sorted, Plan, Tried, Succeeds, Waiting, Blocked,
           SelectedUids, PageId, SpecCacheKey, User.Cached, User.Valid;
      list, ok := None, false;
      var target;
      target, first, middle := Resolve(destName);
      dest, asked, begun := target, user.remote.calls, user.remote.calls;
      if target.None? {
        return;
      }
      var sums := LoadSorted(checkedAt, storedAt);
      begun := user.remote.calls;
      if sums.None? {
        return;
      }
      list := Some(sums.value[..]);
      ok := Perform(Copy(target.value), uid, ranges, sums.value);
    }

    /** MOVE, to the trash, a tag or a folder. After a success neither the source nor the
        destination is cached; to its own mailbox it does nothing. */
    method MoveMessages(uid: bool, ranges: seq<SeqRange>, destName: string, checkedAt: Time, storedAt: Time)
      returns (ok: bool, ghost dest: Option<MailboxSpec>, ghost list: Option<seq<Summary>>, ghost asked: nat, ghost begun: nat,
               ghost first: Option<MailboxSpec>, ghost middle: Index)
      requires Valid()
      modifies this`pendingDeleted, user`specByListName, user`listCache, user`fetched, user`origin, user.remote
      ensures Valid() && pendingDeleted == old(pendingDeleted)
      ensures ResolvedTo(destName, first, middle, dest)
      ensures asked == old(user.remote.calls) + Questions(old(user.specByListName), middle, destName, first)
      ensures begun == asked + if dest.Some? && dest != Some(spec) then RequestsOfLoad(asked, checkedAt) else 0
      ensures dest.None? || dest == Some(spec) || list.None? ==> user.remote.attempts == old(user.remote.attempts)
      ensures dest.None? || dest == Some(spec) ==> ok == dest.Some? && user.Cached() == old(user.Cached())
      ensures dest.Some? && dest != Some(spec) ==>
        && Listed(asked, checkedAt, list)
        && (list.None? ==> !ok)
        && (list.Some? ==> Performed(Move(dest.value), uid, ranges, list.value, begun, ok))
        && user.Cached() == CacheAfterLoad(asked, checkedAt, storedAt)
                            - if ok then {SpecCacheKey(spec), SpecCacheKey(dest.value)} else {}
      ensures dest == Some(TRASH) && dest != Some(spec) && ok ==>
        && list.Some?
        && DeletedNamed(user.remote.attempts[|old(user.remote.attempts)|..], uid, ranges, list.value)
    {
      hide DeletedNamed, Loaded, CachedNext, Known, DeletedUids, Sorted, Plan, Tried, Succeeds, Waiting, Blocked,
           SelectedUids, PageId, SpecCacheKey, Resolved, Questions, LoadRequests, User.Cached, User.Valid, User.Arrays;
      list, ok := None, false;
      var target;
      target, first, middle := Resolve(destName);
      dest, asked, begun := target, user.remote.calls, user.remote.calls;
      if target.None? {
        return;
      }
      if target.value == spec {
        ok := true;
        return;
      }
      var sums := LoadSorted(checkedAt, storedAt);
      begun := user.remote.calls;
      if sums.None? {
        return;
      }
      list := Some(sums.value[..]);
      ok := Perform(Move(target.value), uid, ranges, sums.value);
      if ok {
        user.InvalidateSpec(spec);
        user.InvalidateSpec(target.value);
      }
    }

    /** EXPUNGE: asks again for the deletion of every waiting message, in some order, until
        one is refused. Those whose deletion was accepted no longer wait. */
    method Expunge() returns (ok: bool, ghost made: seq<Attempt>)
      requires Valid()
      modifies this`pendingDeleted, user`listCache, user.remote
      ensures Valid()
      ensures user.remote.attempts == old(user.remote.attempts) + made
      ensures AskedOnce(old(pendingDeleted), PageId(spec), made)
      ensures pendingDeleted == old(pendingDeleted) - DeletedUids(made)
      ensures ok <==> pendingDeleted == {}
      ensures ok ==> |made| == |old(pendingDeleted)|
      ensures user.Cached() == old(user.Cached()) - if ok then {SpecCacheKey(spec)} else {}
    {
      hide Known, DeletedUids, AskedOnce, PageId, SpecCacheKey, User.Cached, User.Valid;
      ok, made := DeleteEach(pendingDeleted);
      user.Undisturbed();
      DeletedConcat(old(user.remote.attempts), made);
      if ok {
        user.InvalidateSpec(spec);
      }
    }

    /** The loop of EXPUNGE. */
    method DeleteEach(uids: set<Uid>) returns (ok: bool, ghost made: seq<Attempt>)
      requires uids == pendingDeleted
      modifies this`pendingDeleted, user.remote
      ensures user.remote.attempts == old(user.remote.attempts) + made
      ensures AskedOnce(uids, PageId(spec), made)
      ensures pendingDeleted == uids - DeletedUids(made)
      ensures ok <==> pendingDeleted == {}
      ensures ok ==> |made| == |uids|
    {
      hide DeletedUids, AskedOnce, PageId, Deleting;
      made := [];
      var ids := uids;
      DeletingStarts(uids, PageId(spec));
      while ids != {}
        invariant user.remote.attempts == old(user.remote.attempts) + made
        invariant ids == pendingDeleted && Deleting(uids, PageId(spec), made, ids)
        decreases ids
      {
        var id :| id in ids;
        DeletingStep(uids, PageId(spec), made, ids, id);
        ok := user.remote.MailAction(Action(id, "delete", "", PageId(spec)));
        made := made + [Attempt(Action(id, "delete", "", PageId(spec)), ok)];
        if !ok {
          return;
        }
        pendingDeleted := pendingDeleted - {id};
        ids := ids - {id};
      }
      DeletingEnds(uids, PageId(spec), made);
      return true, made;
    }
  }
}
