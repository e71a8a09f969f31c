/**
 * The category data the category filter reads: the child sets
 * `cid:<id>:children` (with `cid:0:children` holding the top-level
 * categories) and the category records with their `parentCid` and
 * `subCategoriesPerPage` fields. Acyclicity is witnessed by ranks.
 */
module CategoryForest {
  import opened Lists

  /** The fields of a category record the filter reads; a missing field is `None`. */
  datatype CategoryFields = CategoryFields(parentCid: int, subCategoriesPerPage: Option<int>)

  datatype Store = Store(childSets: map<int, seq<int>>, records: map<int, CategoryFields>)

  /** `getAllCidsFromSet('cid:' + cid + ':children')`; an absent set is empty. */
  function Children(store: Store, cid: int): seq<int> {
    if cid in store.childSets then store.childSets[cid] else []
  }

  /** The category's `subCategoriesPerPage`; undefined when there is no record or no field. */
  function SubCategoriesPerPage(store: Store, cid: int): Option<int> {
    if cid in store.records then store.records[cid].subCategoriesPerPage else None
  }

  /** `getCategoryField(cid, 'parentCid')`; null when there is no record. */
  function ParentField(store: Store, cid: int): Option<int> {
    if cid in store.records then Some(store.records[cid].parentCid) else None
  }

  /** Following a child set always goes down in rank, so walking down ends. */
  ghost predicate Ranked(store: Store, rank: int -> nat) {
    forall c, k :: k in Children(store, c) ==> rank(k) < rank(c)
  }

  /**
   * The child sets form a forest: acyclic (ranked), no set lists a child
   * twice, and no category is the child of two parents.
   */
  ghost predicate Forest(store: Store, rank: int -> nat) {
    && Ranked(store, rank)
    && (forall c :: NoDup(Children(store, c)))
    && (forall c1, c2, k :: k in Children(store, c1) && k in Children(store, c2) ==> c1 == c2)
  }

  /** Following `parentCid` always goes up in level, so walking up ends. */
  ghost predicate ParentsRanked(store: Store, level: int -> nat) {
    forall c :: c in store.records && store.records[c].parentCid != 0 ==>
      level(store.records[c].parentCid) < level(c)
  }

  /** x is a proper descendant of c through the child sets. */
  ghost predicate Reach(store: Store, rank: int -> nat, c: int, x: int)
    requires Ranked(store, rank)
    decreases rank(c)
  {
    exists k :: k in Children(store, c) && (k == x || Reach(store, rank, k, x))
  }

  ghost predicate DescOrSelf(store: Store, rank: int -> nat, c: int, x: int)
    requires Ranked(store, rank)
  {
    x == c || Reach(store, rank, c, x)
  }

  lemma {:induction false} ReachLowersRank(store: Store, rank: int -> nat, c: int, x: int)
    requires Ranked(store, rank) && Reach(store, rank, c, x)
    ensures rank(x) < rank(c)
    decreases rank(c)
  {
    var k :| k in Children(store, c) && (k == x || Reach(store, rank, k, x));
    if k != x {
      ReachLowersRank(store, rank, k, x);
    }
  }

  /** A descendant hangs off a parent that is c itself or below c. */
  lemma {:induction false} ReachLastStep(store: Store, rank: int -> nat, c: int, x: int)
    requires Ranked(store, rank) && Reach(store, rank, c, x)
    ensures exists q :: x in Children(store, q) && DescOrSelf(store, rank, c, q)
    decreases rank(c)
  {
    var k :| k in Children(store, c) && (k == x || Reach(store, rank, k, x));
    if k == x {
      assert DescOrSelf(store, rank, c, c);
    } else {
      ReachLastStep(store, rank, k, x);
      var q :| x in Children(store, q) && DescOrSelf(store, rank, k, q);
      assert Reach(store, rank, c, q);
    }
  }

  /** Reach through a child. */
  lemma ReachThroughChild(store: Store, rank: int -> nat, c: int, k: int, x: int)
    requires Ranked(store, rank)
    requires k in Children(store, c) && DescOrSelf(store, rank, k, x)
    ensures Reach(store, rank, c, x)
  {
  }

  /** In a forest, no child of p lies below another child of p. */
  lemma ChildNotBelowSibling(store: Store, rank: int -> nat, p: int, k: int, x: int)
    requires Forest(store, rank)
    requires k in Children(store, p) && x in Children(store, p)
    ensures !Reach(store, rank, k, x)
  {
    if Reach(store, rank, k, x) {
      ReachLastStep(store, rank, k, x);
      var q :| x in Children(store, q) && DescOrSelf(store, rank, k, q);
      assert q == p;
      if q != k {
        ReachLowersRank(store, rank, k, q);
      }
      assert false;
    }
  }

  /** In a forest, two distinct children of one parent have no common descendant. */
  lemma SiblingsDisjoint(store: Store, rank: int -> nat, p: int, c1: int, c2: int, x: int)
    requires Forest(store, rank)
    requires c1 in Children(store, p) && c2 in Children(store, p) && c1 != c2
    ensures !(DescOrSelf(store, rank, c1, x) && DescOrSelf(store, rank, c2, x))
    decreases rank(p) - rank(x)
  {
    if DescOrSelf(store, rank, c1, x) && DescOrSelf(store, rank, c2, x) {
      if x == c1 {
        ChildNotBelowSibling(store, rank, p, c2, c1);
      } else if x == c2 {
        ChildNotBelowSibling(store, rank, p, c1, c2);
      } else {
        ReachLastStep(store, rank, c1, x);
        var q1 :| x in Children(store, q1) && DescOrSelf(store, rank, c1, q1);
        ReachLastStep(store, rank, c2, x);
        var q2 :| x in Children(store, q2) && DescOrSelf(store, rank, c2, q2);
        assert q1 == q2;
        if q1 != c1 {
          ReachLowersRank(store, rank, c1, q1);
        }
        SiblingsDisjoint(store, rank, p, c1, c2, q1);
      }
      assert false;
    }
  }
}
