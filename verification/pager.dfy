/** Reading a mailbox list page by page: the loop of loadSummaries in
    internal/imapbackend/mailbox.go. */
module Pager {
  import opened SeqSets
  import opened Seqs
  import opened Text

  const MAX_PAGES: nat := 500

  /** What the API answers to the request for one page, if it answers. */
  datatype PageAnswer = NoAnswer | Page(success: bool, mails: seq<Summary>, total: Option<int>)

  /** MailListResponseOK */
  predicate IsList(p: PageAnswer) {
    p.Page? && (p.success || |p.mails| > 0 || p.total == Some(0))
  }

  /** What is loaded from page `page` on, after `all`; None when the load fails. */
  function Load(answer: nat -> PageAnswer, maxList: int, page: nat, all: seq<Summary>): Option<seq<Summary>>
    requires 1 <= page <= MAX_PAGES
    decreases MAX_PAGES - page
  {
    var p := answer(page);
    if p.NoAnswer? then None
    else if !IsList(p) then if page > 1 && |all| > 0 then Some(all) else None
    else
      var more := all + p.mails;
      if |p.mails| == 0 || |more| >= maxList || Reached(p.total, |more|) || page == MAX_PAGES then Some(more)
      else Load(answer, maxList, page + 1, more)
  }

  /** How many pages that takes to ask for. */
  function Requests(answer: nat -> PageAnswer, maxList: int, page: nat, all: seq<Summary>): (n: nat)
    requires 1 <= page <= MAX_PAGES
    ensures 1 <= n <= MAX_PAGES + 1 - page
    decreases MAX_PAGES - page
  {
    var p := answer(page);
    if !IsList(p) then 1
    else
      var more := all + p.mails;
      if |p.mails| == 0 || |more| >= maxList || Reached(p.total, |more|) || page == MAX_PAGES then 1
      else 1 + Requests(answer, maxList, page + 1, more)
  }

  predicate Reached(total: Option<int>, loaded: nat) {
    total.Some? && total.value > 0 && loaded >= total.value
  }

  /** The mails of pages first .. last, in order. */
  function Pages(answer: nat -> PageAnswer, first: nat, last: nat): seq<Summary>
    requires first <= last + 1
    decreases last + 1 - first
  {
    if first == last + 1 then []
    else (if answer(first).Page? then answer(first).mails else []) + Pages(answer, first + 1, last)
  }

  /** Whatever the server answers, what is loaded is the first k pages in order, for some
      k of at most 500. */
  lemma {:induction false} LoadIsFirstPages(answer: nat -> PageAnswer, maxList: int, page: nat, all: seq<Summary>)
      returns (k: nat)
    requires 1 <= page <= MAX_PAGES
    ensures page - 1 <= k <= MAX_PAGES
    ensures var r := Load(answer, maxList, page, all);
            r.Some? ==> r.value == all + Pages(answer, page, k)
    decreases MAX_PAGES - page
  {
    var p := answer(page);
    k := page - 1;
    if IsList(p) {
      var more := all + p.mails;
      if |p.mails| == 0 || |more| >= maxList || Reached(p.total, |more|) || page == MAX_PAGES {
        k := page;
        assert Pages(answer, page, page) == p.mails + Pages(answer, page + 1, page);
      } else {
        k := LoadIsFirstPages(answer, maxList, page + 1, more);
        Assoc(all, p.mails, Pages(answer, page + 1, k));
      }
    }
  }

  // ---- When a load fails ----

  /** This page makes a load fail: the request is not answered, or there is no list to be
      had and nothing loaded before it. */
  predicate Breaks(answer: nat -> PageAnswer, page: nat)
    requires page >= 1
  {
    answer(page).NoAnswer? || (!IsList(answer(page)) && Pages(answer, 1, page - 1) == [])
  }

  predicate SomeBreaks(answer: nat -> PageAnswer, first: nat, last: nat)
    requires first >= 1
  {
    exists page :: first <= page <= last && Breaks(answer, page)
  }

  lemma {:induction false} PagesSnoc(answer: nat -> PageAnswer, first: nat, last: nat)
    requires 1 <= first <= last
    ensures Pages(answer, first, last)
         == Pages(answer, first, last - 1) + if answer(last).Page? then answer(last).mails else []
    decreases last - first
  {
    if first == last {
      assert Pages(answer, first, last) == (if answer(first).Page? then answer(first).mails else []) + [];
    } else {
      PagesSnoc(answer, first + 1, last);
      Assoc(if answer(first).Page? then answer(first).mails else [], Pages(answer, first + 1, last - 1),
            if answer(last).Page? then answer(last).mails else []);
    }
  }

  /** The load ends with page `page`. */
  predicate Ends(p: PageAnswer, maxList: int, page: nat, all: seq<Summary>) {
    !IsList(p) || |p.mails| == 0 || |all + p.mails| >= maxList || Reached(p.total, |all + p.mails|) || page == MAX_PAGES
  }

  lemma OnePage(answer: nat -> PageAnswer, maxList: int, page: nat, all: seq<Summary>)
    requires 1 <= page <= MAX_PAGES
    ensures var p := answer(page);
      if Ends(p, maxList, page, all) then
        && (Load(answer, maxList, page, all).None? <==> p.NoAnswer? || (!IsList(p) && (page == 1 || all == [])))
        && Requests(answer, maxList, page, all) == 1
      else
        && Load(answer, maxList, page, all) == Load(answer, maxList, page + 1, all + p.mails)
        && Requests(answer, maxList, page, all) == 1 + Requests(answer, maxList, page + 1, all + p.mails)
  {
  }

  lemma {:induction false} LoadBreaks(answer: nat -> PageAnswer, maxList: int, page: nat)
    requires 1 <= page <= MAX_PAGES && (page > 1 ==> Pages(answer, 1, page - 1) != [])
    ensures var all := Pages(answer, 1, page - 1);
            Load(answer, maxList, page, all).None?
            <==> SomeBreaks(answer, page, page + Requests(answer, maxList, page, all) - 1)
    decreases MAX_PAGES - page
  {
    hide Breaks, SomeBreaks, Load, Requests, Pages, Reached;
    var p, all := answer(page), Pages(answer, 1, page - 1);
    OnePage(answer, maxList, page, all);
    BreaksHere(answer, page);
    NoPages(answer);
    if Ends(p, maxList, page, all) {
      BreaksFrom(answer, page, page);
    } else {
      PagesSnoc(answer, 1, page);
      LoadBreaks(answer, maxList, page + 1);
      BreaksFrom(answer, page, page + Requests(answer, maxList, page + 1, all + p.mails));
    }
  }

  lemma NoPages(answer: nat -> PageAnswer)
    ensures Pages(answer, 1, 0) == []
  {
  }

  lemma BreaksHere(answer: nat -> PageAnswer, page: nat)
    requires page >= 1
    ensures IsList(answer(page)) ==> !Breaks(answer, page)
    ensures answer(page).NoAnswer? ==> Breaks(answer, page)
    ensures answer(page).Page? && !IsList(answer(page)) ==> (Breaks(answer, page) <==> Pages(answer, 1, page - 1) == [])
  {
  }

  lemma BreaksFrom(answer: nat -> PageAnswer, first: nat, last: nat)
    requires 1 <= first <= last
    ensures SomeBreaks(answer, first, last) <==> Breaks(answer, first) || SomeBreaks(answer, first + 1, last)
    ensures !SomeBreaks(answer, last + 1, last)
  {
    hide Breaks;
  }

  /** A load fails if and only if one of the pages it asks for is not answered, or the
      first is no list, or a later one is none while nothing has been loaded. */
  lemma LoadFailsExactly(answer: nat -> PageAnswer, maxList: int)
    ensures Load(answer, maxList, 1, []).None? <==> SomeBreaks(answer, 1, Requests(answer, maxList, 1, []))
  {
    hide Load, Requests, SomeBreaks;
    assert Pages(answer, 1, 0) == [];
    LoadBreaks(answer, maxList, 1);
  }

  // ---- An orderly server ----

  function Flatten(cuts: seq<seq<Summary>>): seq<Summary> {
    if cuts == [] then [] else cuts[0] + Flatten(cuts[1..])
  }

  lemma {:induction false} FlattenSnoc(cuts: seq<seq<Summary>>, c: seq<Summary>)
    ensures Flatten(cuts + [c]) == Flatten(cuts) + c
  {
    if cuts == [] {
      assert cuts + [c] == [c];
      assert [c][1..] == [];
    } else {
      FlattenSnoc(cuts[1..], c);
      ConcatTail(cuts, [c]);
      Assoc(cuts[0], Flatten(cuts[1..]), c);
    }
  }

  lemma {:induction false} FlattenConcat(a: seq<seq<Summary>>, b: seq<seq<Summary>>)
    ensures Flatten(a + b) == Flatten(a) + Flatten(b)
  {
    if a == [] {
      assert a + b == b;
    } else {
      FlattenConcat(a[1..], b);
      ConcatTail(a, b);
      Assoc(a[0], Flatten(a[1..]), Flatten(b));
    }
  }

  /** The server cuts its list into non-empty pages, tells its length or nothing, and
      has nothing to show beyond the last page. */
  ghost predicate Serves(answer: nat -> PageAnswer, cuts: seq<seq<Summary>>) {
    && (forall i :: 0 <= i < |cuts| ==> |cuts[i]| > 0)
    && (forall page :: 1 <= page <= |cuts| ==>
          && answer(page).Page? && answer(page).mails == cuts[page - 1]
          && answer(page).total in {None, Some(|Flatten(cuts)|)})
    && (forall page :: page > |cuts| ==> answer(page).Page? && answer(page).mails == [])
    && (cuts == [] ==> IsList(answer(1)))
  }

  lemma PartLength(cuts: seq<seq<Summary>>, n: nat)
    requires n <= |cuts| && forall i :: 0 <= i < |cuts| ==> |cuts[i]| > 0
    ensures Flatten(cuts[..n]) <= Flatten(cuts)
    ensures |Flatten(cuts[..n])| == |Flatten(cuts)| <==> n == |cuts|
  {
    Parts(cuts, n);
    FlattenConcat(cuts[..n], cuts[n..]);
    if n < |cuts| {
      assert Flatten(cuts[n..]) == cuts[n] + Flatten(cuts[n..][1..]);
    } else {
      assert cuts[..n] == cuts;
    }
  }

  lemma {:induction false} LoadServed(answer: nat -> PageAnswer, maxList: int, cuts: seq<seq<Summary>>, page: nat)
      returns (k: nat)
    requires Serves(answer, cuts) && 1 <= page <= MAX_PAGES && page <= |cuts| + 1
    requires page > 1 ==> |Flatten(cuts[..page - 1])| > 0
    ensures k <= |cuts| && Load(answer, maxList, page, Flatten(cuts[..page - 1])) == Some(Flatten(cuts[..k]))
    ensures k == |cuts| || k == MAX_PAGES || |Flatten(cuts[..k])| >= maxList
    decreases MAX_PAGES - page
  {
    hide Flatten;
    var p, all := answer(page), Flatten(cuts[..page - 1]);
    if page == |cuts| + 1 {
      k := |cuts|;
      assert all + p.mails == all;
    } else {
      var more := all + p.mails;
      FlattenSnoc(cuts[..page - 1], cuts[page - 1]);
      assert cuts[..page] == cuts[..page - 1] + [cuts[page - 1]];
      PartLength(cuts, page);
      if |more| >= maxList || Reached(p.total, |more|) || page == MAX_PAGES {
        k := page;
      } else {
        k := LoadServed(answer, maxList, cuts, page + 1);
      }
    }
  }

  /** From such a server the load succeeds and gives a beginning of its list made of whole
      pages: all of it, unless 500 pages or maxList mails were reached. */
  lemma LoadsWholeList(answer: nat -> PageAnswer, maxList: int, cuts: seq<seq<Summary>>) returns (k: nat)
    requires Serves(answer, cuts)
    ensures k <= |cuts|
    ensures var r := Load(answer, maxList, 1, []);
            && r == Some(Flatten(cuts[..k])) && r.value <= Flatten(cuts)
            && (r.value == Flatten(cuts) || k == MAX_PAGES || |r.value| >= maxList)
  {
    assert Flatten(cuts[..0]) == [];
    k := LoadServed(answer, maxList, cuts, 1);
    PartLength(cuts, k);
    assert k == |cuts| ==> cuts[..k] == cuts;
  }
}
