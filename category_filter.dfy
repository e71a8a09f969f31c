/**
 * The category filter dropdown of the forum's socket API: which category
 * ids are offered (a search with its ancestors and descendants, or the
 * visible category tree page by page), and how the returned entries are
 * marked as selected or matched.
 *
 * The database, the privilege filter, the category search, the watch-state
 * and visibility lookups and `buildForSelectCategories` are parameters.
 */
module CategoryFilter {
  import opened Lists
  import opened Decimal
  import opened CategoryForest

  /*
   * ---------------------------------------------------------------
   * loadCids: the visible category tree, page by page
   * ---------------------------------------------------------------
   */

  /** The children of `cid` that pass the `find` privilege filter, in set order. */
  function Found(store: Store, canFind: int -> bool, cid: int): seq<int> {
    Filter(canFind, Children(store, cid))
  }

  /** One more than the largest rank in `cids` (0 when empty). */
  ghost function SupRank(rank: int -> nat, cids: seq<int>): (b: nat)
    ensures forall x :: x in cids ==> rank(x) < b
  {
    if cids == [] then 0
    else
      var b0 := SupRank(rank, cids[..|cids| - 1]);
      var top := rank(cids[|cids| - 1]) + 1;
      assert forall x :: x in cids ==> x in cids[..|cids| - 1] || x == cids[|cids| - 1];
      if b0 < top then top else b0
  }

  lemma {:induction false} SupRankAtMost(rank: int -> nat, cids: seq<int>, b: nat)
    requires forall x :: x in cids ==> rank(x) < b
    ensures SupRank(rank, cids) <= b
  {
    if cids != [] {
      var init := cids[..|cids| - 1];
      assert forall x :: x in init ==> x in cids;
      SupRankAtMost(rank, init, b);
      var last := cids[|cids| - 1];
      assert last in cids;
      assert rank(last) < b;
    }
  }

  /**
   * What `getCidsRecursive(cids)` pushes: what the callback pushes for
   * each cid in turn.
   */
  ghost function Pushed(store: Store, canFind: int -> bool, rank: int -> nat, cids: seq<int>): seq<int>
    requires Ranked(store, rank)
    decreases SupRank(rank, cids), 1, |cids|
  {
    if cids == [] then []
    else
      var last := cids[|cids| - 1];
      assert last in cids;
      Pushed(store, canFind, rank, cids[..|cids| - 1]) + Visit(store, canFind, rank, last)
  }

  /**
   * What the callback for one cid pushes: the first `subCategoriesPerPage`
   * of its found children, then whatever the recursion into all of its
   * found children pushes.
   */
  ghost function Visit(store: Store, canFind: int -> bool, rank: int -> nat, cid: int): seq<int>
    requires Ranked(store, rank)
    decreases rank(cid) + 1, 0
  {
    var found := Found(store, canFind, cid);
    SupRankAtMost(rank, found, rank(cid));
    SliceTo(found, SubCategoriesPerPage(store, cid)) + Pushed(store, canFind, rank, found)
  }

  /** Visiting one more cid appends what its callback pushes. */
  lemma PushedStep(store: Store, canFind: int -> bool, rank: int -> nat, cids: seq<int>, i: nat)
    requires Ranked(store, rank) && i < |cids|
    ensures Pushed(store, canFind, rank, cids[..i + 1]) ==
      Pushed(store, canFind, rank, cids[..i]) + Visit(store, canFind, rank, cids[i])
  {
    assert cids[..i + 1][..i] == cids[..i];
  }

  /** The found top-level categories cut to `categoriesPerPage`. */
  function RootPage(store: Store, canFind: int -> bool, categoriesPerPage: Option<int>): seq<int> {
    SliceTo(Found(store, canFind, 0), categoriesPerPage)
  }

  /** The list `loadCids` returns: the root page, then everything pushed below it. */
  ghost function LoadCidsSpec(store: Store, canFind: int -> bool, categoriesPerPage: Option<int>, rank: int -> nat): seq<int>
    requires Ranked(store, rank)
  {
    var page := RootPage(store, canFind, categoriesPerPage);
    page + Pushed(store, canFind, rank, page)
  }

  /**
   * `getCidsRecursive(cids)`; the closure variable `resultCids` it pushes
   * onto is passed in and handed back.
   */
  method GetCidsRecursive(store: Store, canFind: int -> bool, resultCids: seq<int>, cids: seq<int>,
                          ghost rank: int -> nat, ghost bound: nat)
    returns (pushedTo: seq<int>)
    requires Ranked(store, rank)
    requires forall x :: x in cids ==> rank(x) < bound
    ensures pushedTo == resultCids + Pushed(store, canFind, rank, cids)
    decreases bound, 1
  {
    pushedTo := resultCids;
    for i := 0 to |cids|
      invariant pushedTo == resultCids + Pushed(store, canFind, rank, cids[..i])
    {
      var cid := cids[i];
      assert cid in cids && rank(cid) < bound;
      pushedTo := VisitCid(store, canFind, pushedTo, cid, rank);
      PushedStep(store, canFind, rank, cids, i);
      AppendAssociates(resultCids, Pushed(store, canFind, rank, cids[..i]), Visit(store, canFind, rank, cid));
    }
    assert cids[..|cids|] == cids;
  }

  /** The callback run for each cid: push its page of found children, then recurse. */
  method VisitCid(store: Store, canFind: int -> bool, resultCids: seq<int>, cid: int, ghost rank: int -> nat)
    returns (pushedTo: seq<int>)
    requires Ranked(store, rank)
    ensures pushedTo == resultCids + Visit(store, canFind, rank, cid)
    decreases rank(cid) + 1, 0
  {
    var allChildCids := Children(store, cid);
    pushedTo := resultCids;
    if |allChildCids| > 0 {
      var childCids := Filter(canFind, allChildCids);
      pushedTo := pushedTo + SliceTo(childCids, SubCategoriesPerPage(store, cid));
      pushedTo := GetCidsRecursive(store, canFind, pushedTo, childCids, rank, rank(cid));
    } else {
      assert Pushed(store, canFind, rank, Found(store, canFind, cid)) == [];
    }
  }

  method LoadCids(store: Store, canFind: int -> bool, categoriesPerPage: Option<int>, ghost rank: int -> nat)
    returns (resultCids: seq<int>)
    requires Ranked(store, rank)
    ensures resultCids == LoadCidsSpec(store, canFind, categoriesPerPage, rank)
  {
    var allRootCids := Children(store, 0);
    var rootCids := Filter(canFind, allRootCids);
    var pageCids := SliceTo(rootCids, categoriesPerPage);
    resultCids := pageCids;
    resultCids := GetCidsRecursive(store, canFind, resultCids, pageCids, rank, SupRank(rank, pageCids));
  }

  /** Everything a visit of c pushes passed the privilege filter and lies below c. */
  lemma {:induction false} VisitFound(store: Store, canFind: int -> bool, rank: int -> nat, c: int)
    requires Ranked(store, rank)
    ensures forall x :: x in Visit(store, canFind, rank, c) ==> canFind(x) && Reach(store, rank, c, x)
    decreases rank(c) + 1, 0
  {
    var found := Found(store, canFind, c);
    SupRankAtMost(rank, found, rank(c));
    PushedFound(store, canFind, rank, found);
    var page := SliceTo(found, SubCategoriesPerPage(store, c));
    assert Visit(store, canFind, rank, c) == page + Pushed(store, canFind, rank, found);
    forall x | x in Visit(store, canFind, rank, c)
      ensures canFind(x) && Reach(store, rank, c, x)
    {
      if x in page {
        assert x in found;
        ReachThroughChild(store, rank, c, x, x);
      } else {
        var k :| k in found && Reach(store, rank, k, x);
        ReachThroughChild(store, rank, c, k, x);
      }
    }
  }

  /** Everything pushed passed the privilege filter and lies below one of `cids`. */
  lemma {:induction false} PushedFound(store: Store, canFind: int -> bool, rank: int -> nat, cids: seq<int>)
    requires Ranked(store, rank)
    ensures forall x :: x in Pushed(store, canFind, rank, cids) ==>
      canFind(x) && exists c :: c in cids && Reach(store, rank, c, x)
    decreases SupRank(rank, cids), 1, |cids|
  {
    if cids != [] {
      var init := cids[..|cids| - 1];
      var last := cids[|cids| - 1];
      assert last in cids;
      PushedFound(store, canFind, rank, init);
      VisitFound(store, canFind, rank, last);
      assert Pushed(store, canFind, rank, cids) == Pushed(store, canFind, rank, init) + Visit(store, canFind, rank, last);
      forall x | x in Pushed(store, canFind, rank, cids)
        ensures canFind(x) && exists c :: c in cids && Reach(store, rank, c, x)
      {
        if x in Pushed(store, canFind, rank, init) {
          var c :| c in init && Reach(store, rank, c, x);
          assert c in cids;
        } else {
          assert Reach(store, rank, last, x);
        }
      }
    }
  }

  /** Every id `loadCids` returns passed the `find` privilege filter. */
  lemma LoadCidsAllFound(store: Store, canFind: int -> bool, categoriesPerPage: Option<int>, rank: int -> nat)
    requires Ranked(store, rank)
    ensures forall x :: x in LoadCidsSpec(store, canFind, categoriesPerPage, rank) ==> canFind(x)
  {
    PushedFound(store, canFind, rank, RootPage(store, canFind, categoriesPerPage));
  }

  lemma NoDupConcat(a: seq<int>, b: seq<int>)
    requires NoDup(a) && NoDup(b)
    requires forall x :: x in a ==> x !in b
    ensures NoDup(a + b)
  {
    forall i, j | 0 <= i < j < |a + b|
      ensures (a + b)[i] != (a + b)[j]
    {
      if i < |a| && j >= |a| {
        assert (a + b)[i] in a && (a + b)[j] == b[j - |a|];
      }
    }
  }

  lemma LastNotEarlier(cids: seq<int>)
    requires NoDup(cids) && cids != []
    ensures cids[|cids| - 1] !in cids[..|cids| - 1]
  {
  }

  /** What is pushed below some children of p never lies below another child c of p. */
  lemma PushedAvoidsSibling(store: Store, canFind: int -> bool, rank: int -> nat, p: int, cids: seq<int>, c: int, x: int)
    requires Forest(store, rank)
    requires forall d :: d in cids ==> d in Children(store, p)
    requires c in Children(store, p) && c !in cids
    requires x in Pushed(store, canFind, rank, cids)
    ensures !Reach(store, rank, c, x)
  {
    PushedFound(store, canFind, rank, cids);
    var c' :| c' in cids && Reach(store, rank, c', x);
    if Reach(store, rank, c, x) {
      SiblingsDisjoint(store, rank, p, c', c, x);
    }
  }

  /** Nothing pushed below the children of c is itself a child of c. */
  lemma PushedBelowChildren(store: Store, canFind: int -> bool, rank: int -> nat, c: int, x: int)
    requires Forest(store, rank)
    requires x in Children(store, c)
    ensures x !in Pushed(store, canFind, rank, Found(store, canFind, c))
  {
    PushedFound(store, canFind, rank, Found(store, canFind, c));
    if x in Pushed(store, canFind, rank, Found(store, canFind, c)) {
      var k :| k in Found(store, canFind, c) && Reach(store, rank, k, x);
      ChildNotBelowSibling(store, rank, c, k, x);
    }
  }

  /** In a forest, a visit pushes no id twice. */
  lemma {:induction false} VisitNoDup(store: Store, canFind: int -> bool, rank: int -> nat, c: int)
    requires Forest(store, rank)
    ensures NoDup(Visit(store, canFind, rank, c))
    decreases rank(c) + 1, 0
  {
    var found := Found(store, canFind, c);
    SupRankAtMost(rank, found, rank(c));
    assert NoDup(Children(store, c));
    PushedNoDup(store, canFind, rank, c, found);
    var page := SliceTo(found, SubCategoriesPerPage(store, c));
    assert NoDup(page) by {
      assert page == found[..|page|];
    }
    forall x | x in page
      ensures x !in Pushed(store, canFind, rank, found)
    {
      PushedBelowChildren(store, canFind, rank, c, x);
    }
    NoDupConcat(page, Pushed(store, canFind, rank, found));
  }

  /** In a forest, the pushes below distinct children of one parent never repeat an id. */
  lemma {:induction false} PushedNoDup(store: Store, canFind: int -> bool, rank: int -> nat, p: int, cids: seq<int>)
    requires Forest(store, rank)
    requires forall c :: c in cids ==> c in Children(store, p)
    requires NoDup(cids)
    ensures NoDup(Pushed(store, canFind, rank, cids))
    decreases SupRank(rank, cids), 1, |cids|
  {
    if cids != [] {
      var init := cids[..|cids| - 1];
      var last := cids[|cids| - 1];
      assert last in cids;
      assert forall x :: x in init ==> x in cids;
      LastNotEarlier(cids);
      PushedNoDup(store, canFind, rank, p, init);
      VisitNoDup(store, canFind, rank, last);
      VisitFound(store, canFind, rank, last);
      var before := Pushed(store, canFind, rank, init);
      var visit := Visit(store, canFind, rank, last);
      forall x | x in before
        ensures x !in visit
      {
        PushedAvoidsSibling(store, canFind, rank, p, init, last, x);
      }
      NoDupConcat(before, visit);
    }
  }

  /** When the child sets form a forest, `loadCids` lists no category twice. */
  lemma LoadCidsNoDuplicates(store: Store, canFind: int -> bool, categoriesPerPage: Option<int>, rank: int -> nat)
    requires Forest(store, rank)
    ensures NoDup(LoadCidsSpec(store, canFind, categoriesPerPage, rank))
  {
    var page := RootPage(store, canFind, categoriesPerPage);
    var found := Found(store, canFind, 0);
    assert NoDup(Children(store, 0));
    assert NoDup(page) by {
      assert page == found[..|page|];
    }
    PushedNoDup(store, canFind, rank, 0, page);
    PushedFound(store, canFind, rank, page);
    forall x | x in page
      ensures x !in Pushed(store, canFind, rank, page)
    {
      if x in Pushed(store, canFind, rank, page) {
        var c :| c in page && Reach(store, rank, c, x);
        ChildNotBelowSibling(store, rank, 0, c, x);
      }
    }
    NoDupConcat(page, Pushed(store, canFind, rank, page));
  }

  /** A child of q is pushed by a visit only as part of q's first `subCategoriesPerPage` found children. */
  lemma {:induction false} VisitChildOf(store: Store, canFind: int -> bool, rank: int -> nat, c: int, q: int, x: int)
    requires Forest(store, rank)
    requires x in Visit(store, canFind, rank, c) && x in Children(store, q)
    ensures x in SliceTo(Found(store, canFind, q), SubCategoriesPerPage(store, q))
    decreases rank(c) + 1, 0
  {
    var found := Found(store, canFind, c);
    SupRankAtMost(rank, found, rank(c));
    var page := SliceTo(found, SubCategoriesPerPage(store, c));
    assert Visit(store, canFind, rank, c) == page + Pushed(store, canFind, rank, found);
    if x in page {
      assert x in Children(store, c);
      assert c == q;
    } else {
      PushedChildOf(store, canFind, rank, found, q, x);
    }
  }

  /** A child of q is pushed only as part of q's first `subCategoriesPerPage` found children. */
  lemma {:induction false} PushedChildOf(store: Store, canFind: int -> bool, rank: int -> nat, cids: seq<int>, q: int, x: int)
    requires Forest(store, rank)
    requires x in Pushed(store, canFind, rank, cids) && x in Children(store, q)
    ensures x in SliceTo(Found(store, canFind, q), SubCategoriesPerPage(store, q))
    decreases SupRank(rank, cids), 1, |cids|
  {
    var init := cids[..|cids| - 1];
    var last := cids[|cids| - 1];
    assert last in cids;
    if x in Pushed(store, canFind, rank, init) {
      PushedChildOf(store, canFind, rank, init, q, x);
    } else {
      VisitChildOf(store, canFind, rank, last, q, x);
    }
  }

  /**
   * Below the top level, at most `subCategoriesPerPage` children of any
   * category appear in the list `loadCids` returns.
   */
  lemma SubCategoriesPerPageBound(store: Store, canFind: int -> bool, categoriesPerPage: Option<int>, rank: int -> nat, q: int, n: nat)
    requires Forest(store, rank)
    requires q != 0 && SubCategoriesPerPage(store, q) == Some(n)
    ensures |set x | x in LoadCidsSpec(store, canFind, categoriesPerPage, rank) && x in Children(store, q)| <= n
  {
    var page := RootPage(store, canFind, categoriesPerPage);
    var result := LoadCidsSpec(store, canFind, categoriesPerPage, rank);
    var slice := SliceTo(Found(store, canFind, q), Some(n));
    var shown := set x | x in result && x in Children(store, q);
    forall x | x in shown
      ensures x in slice
    {
      if x in page {
        assert false;
      } else {
        PushedChildOf(store, canFind, rank, page, q, x);
      }
    }
    assert shown <= set x | x in slice;
    DistinctCardinality(slice);
    SubsetCardinality(shown, set x | x in slice);
  }

  lemma SubsetCardinality(a: set<int>, b: set<int>)
    requires a <= b
    ensures |a| <= |b|
  {
    assert b == a + (b - a);
  }

  /** k is c, or is reached from c through found children only. */
  ghost predicate FoundPath(store: Store, canFind: int -> bool, rank: int -> nat, c: int, k: int)
    requires Ranked(store, rank)
    decreases rank(c)
  {
    k == c || exists j :: j in Found(store, canFind, c) && FoundPath(store, canFind, rank, j, k)
  }

  /** Everything a visit of c pushes is pushed by any list containing c. */
  lemma {:induction false} PushedCovers(store: Store, canFind: int -> bool, rank: int -> nat, cids: seq<int>, c: int)
    requires Ranked(store, rank)
    requires c in cids
    ensures forall x :: x in Visit(store, canFind, rank, c) ==> x in Pushed(store, canFind, rank, cids)
    decreases |cids|
  {
    var init := cids[..|cids| - 1];
    var last := cids[|cids| - 1];
    assert last in cids;
    assert Pushed(store, canFind, rank, cids) == Pushed(store, canFind, rank, init) + Visit(store, canFind, rank, last);
    if c != last {
      assert c in init;
      PushedCovers(store, canFind, rank, init, c);
    }
  }

  /**
   * The recursion enters every found child, not only those on the page:
   * every category reached from a visited one through found children gets
   * its page of found children listed.
   */
  lemma {:induction false} FoundPathListed(store: Store, canFind: int -> bool, rank: int -> nat, cids: seq<int>, c: int, k: int)
    requires Ranked(store, rank)
    requires c in cids && FoundPath(store, canFind, rank, c, k)
    ensures forall x :: x in SliceTo(Found(store, canFind, k), SubCategoriesPerPage(store, k)) ==>
      x in Pushed(store, canFind, rank, cids)
    decreases rank(c)
  {
    PushedCovers(store, canFind, rank, cids, c);
    var found := Found(store, canFind, c);
    SupRankAtMost(rank, found, rank(c));
    assert Visit(store, canFind, rank, c) ==
      SliceTo(found, SubCategoriesPerPage(store, c)) + Pushed(store, canFind, rank, found);
    if k != c {
      var j :| j in found && FoundPath(store, canFind, rank, j, k);
      assert j in Children(store, c);
      FoundPathListed(store, canFind, rank, found, j, k);
    }
  }

  /**
   * The recursion enters every found child, not only those on the page:
   * every category reached from the root page through found children gets
   * its page of found children into the list `loadCids` returns.
   */
  lemma LoadCidsRecursesIntoAllFound(store: Store, canFind: int -> bool, categoriesPerPage: Option<int>, rank: int -> nat, c: int, k: int)
    requires Ranked(store, rank)
    requires c in RootPage(store, canFind, categoriesPerPage) && FoundPath(store, canFind, rank, c, k)
    ensures forall x :: x in SliceTo(Found(store, canFind, k), SubCategoriesPerPage(store, k)) ==>
      x in LoadCidsSpec(store, canFind, categoriesPerPage, rank)
  {
    FoundPathListed(store, canFind, rank, RootPage(store, canFind, categoriesPerPage), c, k);
  }

  /*
   * ---------------------------------------------------------------
   * findMatchedCids: search hits with their ancestors and descendants
   * ---------------------------------------------------------------
   */

  /** The ids `addParentsToRoot(cid)` collects, nearest parent first. */
  ghost function Ancestors(store: Store, level: int -> nat, cid: int): seq<int>
    requires ParentsRanked(store, level)
    decreases level(cid)
  {
    if cid == 0 then []
    else match ParentField(store, cid)
      case None => []
      case Some(p) => if p == 0 then [] else [p] + Ancestors(store, level, p)
  }

  method AddParentsToRoot(store: Store, currentCid: int, ghost level: int -> nat) returns (toParent: seq<int>)
    requires ParentsRanked(store, level)
    ensures toParent == Ancestors(store, level, currentCid)
  {
    var cid: Option<int> := Some(currentCid);
    toParent := [];
    while cid.Some? && cid.value != 0
      invariant Ancestors(store, level, currentCid) ==
        toParent + (if cid.Some? && cid.value != 0 then Ancestors(store, level, cid.value) else [])
      decreases if cid.Some? && cid.value != 0 then level(cid.value) + 1 else 0
    {
      cid := ParentField(store, cid.value);
      if cid.Some? && cid.value != 0 {
        toParent := toParent + [cid.value];
      }
    }
  }

  /**
   * Walking up from c never lists 0 or an id twice, every listed parent's
   * own parent is listed too unless it is the top, and the walk ends at a
   * category whose parent is the root or that has no record.
   */
  lemma {:induction false} AncestorsToRoot(store: Store, level: int -> nat, c: int)
    requires ParentsRanked(store, level)
    ensures forall x :: x in Ancestors(store, level, c) ==> x != 0 && level(x) < level(c)
    ensures NoDup(Ancestors(store, level, c))
    ensures c != 0 && ParentField(store, c).Some? && ParentField(store, c).value != 0 ==>
      Ancestors(store, level, c)[0] == ParentField(store, c).value
    ensures forall i :: 0 <= i < |Ancestors(store, level, c)| - 1 ==>
      ParentField(store, Ancestors(store, level, c)[i]) == Some(Ancestors(store, level, c)[i + 1])
    ensures Ancestors(store, level, c) != [] ==>
      var top := Ancestors(store, level, c)[|Ancestors(store, level, c)| - 1];
      ParentField(store, top).None? || ParentField(store, top).value == 0
    decreases level(c)
  {
    if c != 0 && ParentField(store, c).Some? && ParentField(store, c).value != 0 {
      var p := ParentField(store, c).value;
      AncestorsToRoot(store, level, p);
      var rest := Ancestors(store, level, p);
      assert Ancestors(store, level, c) == [p] + rest;
      if rest != [] {
        assert rest[0] == ParentField(store, p).value;
      }
    }
  }

  /** The candidate list `findMatchedCids` returns. */
  ghost function MatchedCandidates(store: Store, level: int -> nat, matched: seq<int>, childrenCids: int -> seq<int>): seq<int>
    requires ParentsRanked(store, level)
  {
    var parentLists := seq(|matched|, i requires 0 <= i < |matched| => Ancestors(store, level, matched[i]));
    var childLists := seq(|matched|, i requires 0 <= i < |matched| => childrenCids(matched[i]));
    Uniq(Uniq(Flatten(parentLists)) + Uniq(Flatten(childLists)) + matched)
  }

  /**
   * The candidates are exactly the matched ids, their ancestors and their
   * descendants, each listed once.
   */
  lemma MatchedCandidatesMembers(store: Store, level: int -> nat, matched: seq<int>, childrenCids: int -> seq<int>)
    requires ParentsRanked(store, level)
    ensures NoDup(MatchedCandidates(store, level, matched, childrenCids))
    ensures forall x :: x in MatchedCandidates(store, level, matched, childrenCids) ==>
      x in matched || exists m :: m in matched && (x in Ancestors(store, level, m) || x in childrenCids(m))
    ensures forall m, x :: m in matched && (x == m || x in Ancestors(store, level, m) || x in childrenCids(m)) ==>
      x in MatchedCandidates(store, level, matched, childrenCids)
  {
    var parentLists := seq(|matched|, i requires 0 <= i < |matched| => Ancestors(store, level, matched[i]));
    var childLists := seq(|matched|, i requires 0 <= i < |matched| => childrenCids(matched[i]));
    var r := MatchedCandidates(store, level, matched, childrenCids);
    forall x | x in r
      ensures x in matched || exists m :: m in matched && (x in Ancestors(store, level, m) || x in childrenCids(m))
    {
      if x in Flatten(parentLists) {
        var i :| 0 <= i < |parentLists| && x in parentLists[i];
        assert matched[i] in matched;
      } else if x in Flatten(childLists) {
        var i :| 0 <= i < |childLists| && x in childLists[i];
        assert matched[i] in matched;
      }
    }
    forall m, x | m in matched && (x == m || x in Ancestors(store, level, m) || x in childrenCids(m))
      ensures x in r
    {
      var i :| 0 <= i < |matched| && matched[i] == m;
      if x in Ancestors(store, level, m) {
        assert x in parentLists[i];
      } else if x in childrenCids(m) {
        assert x in childLists[i];
      }
    }
  }

  method FindMatchedCids(store: Store, matchedCids: seq<int>, childrenCids: int -> seq<int>, ghost level: int -> nat)
    returns (cids: seq<int>)
    requires ParentsRanked(store, level)
    ensures cids == MatchedCandidates(store, level, matchedCids, childrenCids)
  {
    var parentLists: seq<seq<int>> := [];
    var childLists: seq<seq<int>> := [];
    for i := 0 to |matchedCids|
      invariant |parentLists| == i && |childLists| == i
      invariant forall j :: 0 <= j < i ==> parentLists[j] == Ancestors(store, level, matchedCids[j])
      invariant forall j :: 0 <= j < i ==> childLists[j] == childrenCids(matchedCids[j])
    {
      var toParent := AddParentsToRoot(store, matchedCids[i], level);
      parentLists := parentLists + [toParent];
      childLists := childLists + [childrenCids(matchedCids[i])];
    }
    assert parentLists == seq(|matchedCids|, i requires 0 <= i < |matchedCids| => Ancestors(store, level, matchedCids[i]));
    assert childLists == seq(|matchedCids|, i requires 0 <= i < |matchedCids| => childrenCids(matchedCids[i]));
    var rootCids := Uniq(Flatten(parentLists));
    var allChildCids := Uniq(Flatten(childLists));
    cids := Uniq(rootCids + allChildCids + matchedCids);
  }

  /*
   * ---------------------------------------------------------------
   * loadCategoryFilter: the dropdown entries
   * ---------------------------------------------------------------
   */

  /** A selected id as the client sent it: a number or a text. */
  datatype CidArg = NumberCid(n: int) | TextCid(text: string)

  /** The request fields; an absent field is `None`. */
  datatype FilterRequest = FilterRequest(
    query: Option<string>,
    selectedCids: Option<seq<CidArg>>,
    states: Option<seq<string>>,
    privilege: Option<string>,
    showLinks: bool)

  /** The arguments of `getVisibleCategories`; states are kept by name. */
  datatype VisibilityRequest = VisibilityRequest(
    cids: seq<int>, uid: int, states: seq<string>, privilege: string, showLinks: bool)

  /**
   * A dropdown entry from `buildForSelectCategories`; `name` stands for its
   * display fields, `match` is an optional flag.
   */
  datatype SelectEntry = SelectEntry(cid: int, name: string, selected: Option<bool>, matchFlag: Option<bool>)

  /** The collaborators the handler calls. */
  datatype FilterEnv = FilterEnv(
    search: string -> seq<int>,
    childrenCids: int -> seq<int>,
    canFind: int -> bool,
    visibleForSelect: VisibilityRequest -> seq<SelectEntry>,
    categoriesPerPage: Option<int>)

  /** `stop = start + 200 - 1` with `start = 0`. */
  const SliceStop: int := 0 + 200 - 1

  const DefaultPrivilege: string := "topics:read"
  const DefaultStates: seq<string> := ["watching", "notwatching", "ignoring"]

  /** `data.privilege || 'topics:read'`: an empty string is falsy too. */
  function PrivilegeOf(data: FilterRequest): (p: string)
    ensures p != []
    ensures data.privilege.Some? && data.privilege.value != [] ==> p == data.privilege.value
  {
    if data.privilege.Some? && data.privilege.value != [] then data.privilege.value else DefaultPrivilege
  }

  /** `data.states || [...]`: any array, even an empty one, is kept. */
  function StatesOf(data: FilterRequest): seq<string> {
    if data.states.Some? then data.states.value else DefaultStates
  }

  predicate HasQuery(data: FilterRequest) {
    data.query.Some? && data.query.value != []
  }

  /** `parseInt(cid, 10)` of one selected id. */
  function CoerceCid(a: CidArg): (r: Option<int>)
    ensures a.NumberCid? ==> r == Some(a.n)
  {
    match a
    case NumberCid(n) => ParseIntRoundTrip(n); ParseInt(IntToDecimal(n))
    case TextCid(s) => ParseInt(s)
  }

  /** The selected ids after coercion; `None` when the request has none. */
  function Selection(data: FilterRequest): (sel: Option<seq<Option<int>>>)
    ensures sel.Some? <==> data.selectedCids.Some?
    ensures sel.Some? ==> |sel.value| == |data.selectedCids.value|
  {
    match data.selectedCids
    case None => None
    case Some(args) => Some(seq(|args|, i requires 0 <= i < |args| => CoerceCid(args[i])))
  }

  /** One entry after the marking loop. */
  function Marked(e: SelectEntry, sel: Option<seq<Option<int>>>, matched: seq<int>): (r: SelectEntry)
    ensures r.(selected := e.selected, matchFlag := e.matchFlag) == e
    ensures r.selected.Some?
    ensures e.matchFlag == Some(true) ==> r.matchFlag == Some(true)
    ensures e.cid in matched ==> r.matchFlag == Some(true)
  {
    e.(selected := Some(sel.Some? && Some(e.cid) in sel.value),
       matchFlag := if e.cid in matched then Some(true) else e.matchFlag)
  }

  /** The search hits, or none when there is no query. */
  function MatchedOf(data: FilterRequest, env: FilterEnv): seq<int> {
    if HasQuery(data) then env.search(data.query.value) else []
  }

  /** The candidate ids handed to the visibility lookup. */
  ghost function CandidateCids(data: FilterRequest, env: FilterEnv, store: Store, rank: int -> nat, level: int -> nat): seq<int>
    requires HasQuery(data) ==> ParentsRanked(store, level)
    requires !HasQuery(data) ==> Ranked(store, rank)
  {
    if HasQuery(data) then MatchedCandidates(store, level, MatchedOf(data, env), env.childrenCids)
    else LoadCidsSpec(store, env.canFind, env.categoriesPerPage, rank)
  }

  /** The entries built for the candidates, before slicing. */
  ghost function Built(uid: int, data: FilterRequest, env: FilterEnv, store: Store, rank: int -> nat, level: int -> nat): seq<SelectEntry>
    requires HasQuery(data) ==> ParentsRanked(store, level)
    requires !HasQuery(data) ==> Ranked(store, rank)
  {
    env.visibleForSelect(VisibilityRequest(
      CandidateCids(data, env, store, rank, level), uid, StatesOf(data), PrivilegeOf(data), data.showLinks))
  }

  method MarkCategories(a: array<SelectEntry>, sel: Option<seq<Option<int>>>, matched: seq<int>)
    modifies a
    ensures forall i :: 0 <= i < a.Length ==> a[i] == Marked(old(a[i]), sel, matched)
  {
    for i := 0 to a.Length
      invariant forall j :: 0 <= j < i ==> a[j] == Marked(old(a[j]), sel, matched)
      invariant forall j :: i <= j < a.Length ==> a[j] == old(a[j])
    {
      var category := a[i];
      var selected := if sel.Some? then Some(category.cid) in sel.value else false;
      category := category.(selected := Some(selected));
      if category.cid in matched {
        category := category.(matchFlag := Some(true));
      }
      a[i] := category;
    }
  }

  method LoadCategoryFilter(uid: int, data: FilterRequest, env: FilterEnv, store: Store,
                            ghost rank: int -> nat, ghost level: int -> nat)
    returns (categoriesData: seq<SelectEntry>)
    requires HasQuery(data) ==> ParentsRanked(store, level)
    requires !HasQuery(data) ==> Ranked(store, rank)
    ensures var built := Built(uid, data, env, store, rank, level);
      && |categoriesData| == (if |built| < SliceStop then |built| else SliceStop)
      && forall i :: 0 <= i < |categoriesData| ==>
           categoriesData[i] == Marked(built[i], Selection(data), MatchedOf(data, env))
  {
    var cids: seq<int>;
    var matchedCids: seq<int> := [];
    var privilege := PrivilegeOf(data);
    if HasQuery(data) {
      matchedCids := env.search(data.query.value);
      cids := FindMatchedCids(store, matchedCids, env.childrenCids, level);
    } else {
      cids := LoadCids(store, env.canFind, env.categoriesPerPage, rank);
    }
    assert cids == CandidateCids(data, env, store, rank, level);
    assert matchedCids == MatchedOf(data, env);
    var states := StatesOf(data);
    var built := env.visibleForSelect(VisibilityRequest(cids, uid, states, privilege, data.showLinks));
    assert built == Built(uid, data, env, store, rank, level);
    var sliced := SliceTo(built, Some(SliceStop));
    assert sliced <= built;
    var sel := Selection(data);
    var a := new SelectEntry[|sliced|](i requires 0 <= i < |sliced| => sliced[i]);
    assert a[..] == sliced;
    MarkCategories(a, sel, matchedCids);
    categoriesData := a[..];
    assert forall i :: 0 <= i < |categoriesData| ==> categoriesData[i] == Marked(sliced[i], sel, matchedCids);
    assert forall i :: 0 <= i < |sliced| ==> sliced[i] == built[i];
  }

  /** An entry is selected exactly when some selected id coerces to its cid. */
  lemma SelectedExactlyWhenListed(e: SelectEntry, data: FilterRequest, matched: seq<int>)
    ensures Marked(e, Selection(data), matched).selected == Some(true) <==>
      data.selectedCids.Some? &&
      exists j :: 0 <= j < |data.selectedCids.value| && CoerceCid(data.selectedCids.value[j]) == Some(e.cid)
  {
    var sel := Selection(data);
    if data.selectedCids.Some? && Some(e.cid) in sel.value {
      var j :| 0 <= j < |sel.value| && sel.value[j] == Some(e.cid);
      assert CoerceCid(data.selectedCids.value[j]) == Some(e.cid);
    }
    if data.selectedCids.Some? &&
       exists j :: 0 <= j < |data.selectedCids.value| && CoerceCid(data.selectedCids.value[j]) == Some(e.cid) {
      var j :| 0 <= j < |data.selectedCids.value| && CoerceCid(data.selectedCids.value[j]) == Some(e.cid);
      assert sel.value[j] == Some(e.cid);
    }
  }

  /** A selected id sent as a number or as its decimal text selects the same entry. */
  lemma NumberAndTextSelectAlike(e: SelectEntry, n: int, matched: seq<int>, query: Option<string>)
    ensures var byNumber := FilterRequest(query, Some([NumberCid(n)]), None, None, false);
      var byText := FilterRequest(query, Some([TextCid(IntToDecimal(n))]), None, None, false);
      Marked(e, Selection(byNumber), matched).selected == Marked(e, Selection(byText), matched).selected ==
        Some(e.cid == n)
  {
    ParseIntRoundTrip(n);
    var byNumber := FilterRequest(query, Some([NumberCid(n)]), None, None, false);
    var byText := FilterRequest(query, Some([TextCid(IntToDecimal(n))]), None, None, false);
    assert Selection(byNumber).value == [Some(n)];
    assert Selection(byText).value == [Some(n)];
  }

  /**
   * Without a query nothing is marked as a match by the handler: the match
   * flag is whatever the entry builder set.
   */
  lemma NoQueryNoMatch(e: SelectEntry, data: FilterRequest, env: FilterEnv)
    requires !HasQuery(data)
    ensures Marked(e, Selection(data), MatchedOf(data, env)).matchFlag == e.matchFlag
  {
  }

  /** A request for ids ["5"] with category 5 among the hits marks entry 5 both selected and matched. */
  lemma SelectedAndMatchedExample(e: SelectEntry, query: string, env: FilterEnv)
    requires e.cid == 5 && query != [] && 5 in env.search(query)
    ensures var data := FilterRequest(Some(query), Some([TextCid("5")]), None, None, false);
      var m := Marked(e, Selection(data), MatchedOf(data, env));
      m.selected == Some(true) && m.matchFlag == Some(true)
  {
    ParseIntRoundTrip(5);
    assert IntToDecimal(5) == "5";
    var data := FilterRequest(Some(query), Some([TextCid("5")]), None, None, false);
    assert Selection(data).value == [Some(5)];
  }

  /** Defaults: no privilege or an empty one reads `topics:read`; no states reads all three. */
  lemma RequestDefaults(data: FilterRequest)
    ensures data.privilege.None? || data.privilege.value == [] ==> PrivilegeOf(data) == "topics:read"
    ensures data.states.None? ==> StatesOf(data) == ["watching", "notwatching", "ignoring"]
    ensures data.states.Some? ==> StatesOf(data) == data.states.value
  {
  }

  /** The candidate list never repeats an id, whichever branch produced it. */
  lemma CandidatesNoDuplicates(data: FilterRequest, env: FilterEnv, store: Store, rank: int -> nat, level: int -> nat)
    requires HasQuery(data) ==> ParentsRanked(store, level)
    requires !HasQuery(data) ==> Forest(store, rank)
    ensures NoDup(CandidateCids(data, env, store, rank, level))
  {
    if HasQuery(data) {
      MatchedCandidatesMembers(store, level, MatchedOf(data, env), env.childrenCids);
    } else {
      LoadCidsNoDuplicates(store, env.canFind, env.categoriesPerPage, rank);
    }
  }
}
