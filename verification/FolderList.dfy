/** `buildFolderList` (src/lib/folders.ts:41-74): the folder forest flattened in preorder. */
module FolderList {
  import opened Options
  import opened FolderForest

  /** The positions below `n` of the rows filed under `key`, in list order. */
  function Children(rows: seq<Row>, key: Option<string>, n: nat): (kids: seq<nat>)
    requires n <= |rows|
    ensures forall i :: 0 <= i < |kids| ==> kids[i] < n
  {
    if n == 0 then [] else
    var kids := Children(rows, key, n - 1);
    if Key(Ids(rows), rows[n - 1]) == key then kids + [n - 1] else kids
  }

  ghost predicate AllUnder(rows: seq<Row>, key: Option<string>, kids: seq<nat>) {
    && (forall i :: 0 <= i < |kids| ==> kids[i] < |rows| && Key(Ids(rows), rows[kids[i]]) == key)
    && (forall i, j :: 0 <= i < j < |kids| ==> kids[i] < kids[j])
  }

  lemma {:induction false} ChildrenAreFiled(rows: seq<Row>, key: Option<string>, n: nat)
    requires n <= |rows|
    ensures AllUnder(rows, key, Children(rows, key, n))
  {
    if n > 0 {
      ChildrenAreFiled(rows, key, n - 1);
      if Key(Ids(rows), rows[n - 1]) == key {
        OneMore(rows, key, Children(rows, key, n - 1), n - 1);
      }
    }
  }

  lemma OneMore(rows: seq<Row>, key: Option<string>, kids: seq<nat>, k: nat)
    requires AllUnder(rows, key, kids) && k < |rows| && Key(Ids(rows), rows[k]) == key
    requires forall i :: 0 <= i < |kids| ==> kids[i] < k
    ensures AllUnder(rows, key, kids + [k])
  {
  }

  lemma {:induction false} FiledAreChildren(rows: seq<Row>, k: nat, n: nat)
    requires k < n <= |rows|
    ensures k in Children(rows, Key(Ids(rows), rows[k]), n)
  {
    if k < n - 1 {
      FiledAreChildren(rows, k, n - 1);
    }
  }

  /** The chains that extend `chain`, as the recursive visitor meets them. */
  ghost function Walk(rows: seq<Row>, chain: seq<nat>): seq<seq<nat>>
    requires Distinct(rows) && RootChain(rows, chain)
    decreases |rows| - |chain|, |rows| + 1
  {
    var kids := Children(rows, KeyAt(rows, chain, |chain|), |rows|);
    KidsExtend(rows, chain, kids);
    WalkAll(rows, chain, kids)
  }

  ghost predicate AreChildren(rows: seq<Row>, chain: seq<nat>, kids: seq<nat>) {
    && |kids| <= |rows|
    && (forall i :: 0 <= i < |kids| ==> kids[i] < |rows| && RootChain(rows, chain + [kids[i]]))
    && (forall i, j :: 0 <= i < j < |kids| ==> kids[i] < kids[j])
  }

  ghost function WalkAll(rows: seq<Row>, chain: seq<nat>, kids: seq<nat>): seq<seq<nat>>
    requires Distinct(rows) && RootChain(rows, chain) && AreChildren(rows, chain, kids)
    decreases |rows| - |chain|, |kids|
  {
    if kids == [] then [] else
    var next := chain + [kids[0]];
    ChainIsBounded(rows, next);
    [next] + Walk(rows, next) + WalkAll(rows, chain, kids[1..])
  }

  /** One child in front: its chain, what is below it, and its later siblings. */
  lemma WalkFirst(rows: seq<Row>, chain: seq<nat>, kids: seq<nat>, i: nat)
    requires Distinct(rows) && RootChain(rows, chain) && AreChildren(rows, chain, kids) && i < |kids|
    ensures AreChildren(rows, chain, kids[i..]) && AreChildren(rows, chain, kids[i + 1..])
    ensures var next := chain + [kids[i]];
      RootChain(rows, next)
      && WalkAll(rows, chain, kids[i..]) == [next] + Walk(rows, next) + WalkAll(rows, chain, kids[i + 1..])
  {
    assert kids[i..][0] == kids[i] && kids[i..][1..] == kids[i + 1..];
  }

  lemma KidsExtend(rows: seq<Row>, chain: seq<nat>, kids: seq<nat>)
    requires RootChain(rows, chain)
    requires kids == Children(rows, KeyAt(rows, chain, |chain|), |rows|)
    ensures AreChildren(rows, chain, kids)
  {
    ChildrenAreFiled(rows, KeyAt(rows, chain, |chain|), |rows|);
    forall i | 0 <= i < |kids| ensures kids[i] < |rows| && RootChain(rows, chain + [kids[i]]) {
      ExtendChain(rows, chain, kids[i]);
    }
    DistinctBounded(kids, |rows|);
  }

  // ------------------------------------------------------------ the order

  ghost predicate FirstDiffersAt(a: seq<nat>, b: seq<nat>, p: nat) {
    p < |a| && p < |b| && a[..p] == b[..p] && a[p] < b[p]
  }

  /** Preorder of the forest: an ancestor comes first, and otherwise the branch that was sorted first. */
  ghost predicate Before(a: seq<nat>, b: seq<nat>) {
    a < b || exists p :: FirstDiffersAt(a, b, p)
  }

  ghost predicate InPreorder(list: seq<seq<nat>>) {
    forall i, j :: 0 <= i < j < |list| ==> Before(list[i], list[j])
  }

  /** What a stretch of the walk holds: all chains that go through `chain` and then one of `kids`. */
  ghost predicate Through(e: seq<nat>, chain: seq<nat>, kids: seq<nat>) {
    chain < e && e[|chain|] in kids
  }

  /** Inside a chain's own subtree every chain goes through one of its children. */
  lemma ThroughChild(rows: seq<Row>, chain: seq<nat>, e: seq<nat>)
    requires RootChain(rows, chain) && RootChain(rows, e) && chain < e
    ensures Through(e, chain, Children(rows, KeyAt(rows, chain, |chain|), |rows|))
  {
    assert Linked(rows, e, |chain|);
    assert KeyAt(rows, e, |chain|) == KeyAt(rows, chain, |chain|);
    FiledAreChildren(rows, e[|chain|], |rows|);
  }

  /** A walk lists exactly the chains through the given children, in preorder. */
  lemma {:induction false} WalkCovers(rows: seq<Row>, chain: seq<nat>, kids: seq<nat>)
    requires Distinct(rows) && RootChain(rows, chain) && AreChildren(rows, chain, kids)
    ensures var list := WalkAll(rows, chain, kids);
      && (forall e :: e in list <==> RootChain(rows, e) && Through(e, chain, kids))
      && InPreorder(list)
    decreases |rows| - |chain|, |kids|
  {
    if kids != [] {
      var next := chain + [kids[0]];
      var below := Children(rows, KeyAt(rows, next, |next|), |rows|);
      KidsExtend(rows, next, below);
      ChainIsBounded(rows, next);
      WalkCovers(rows, next, below);
      WalkCovers(rows, chain, kids[1..]);
      forall e | RootChain(rows, e) && next < e ensures e in Walk(rows, next) {
        ThroughChild(rows, next, e);
      }
      var inner, rest := Walk(rows, next), WalkAll(rows, chain, kids[1..]);
      SplitThrough(rows, chain, kids, inner, rest);
      SplitOrder(chain, kids, inner, rest);
    }
  }

  lemma SplitThrough(rows: seq<Row>, chain: seq<nat>, kids: seq<nat>, inner: seq<seq<nat>>, rest: seq<seq<nat>>)
    requires RootChain(rows, chain) && AreChildren(rows, chain, kids) && kids != []
    requires forall e :: e in inner <==> RootChain(rows, e) && chain + [kids[0]] < e
    requires forall e :: e in rest <==> RootChain(rows, e) && Through(e, chain, kids[1..])
    ensures forall e ::
      e in [chain + [kids[0]]] + inner + rest <==> RootChain(rows, e) && Through(e, chain, kids)
  {
    var next := chain + [kids[0]];
    forall e ensures e in [next] + inner + rest <==> RootChain(rows, e) && Through(e, chain, kids) {
      if chain < e && e[|chain|] == kids[0] {
        assert e == next || next < e by {
          assert e[..|next|] == next;
        }
      }
    }
  }

  lemma SplitOrder(chain: seq<nat>, kids: seq<nat>, inner: seq<seq<nat>>, rest: seq<seq<nat>>)
    requires kids != [] && forall i, j :: 0 <= i < j < |kids| ==> kids[i] < kids[j]
    requires forall e :: e in inner ==> chain + [kids[0]] < e
    requires forall e :: e in rest ==> Through(e, chain, kids[1..])
    requires InPreorder(inner) && InPreorder(rest)
    ensures InPreorder([chain + [kids[0]]] + inner + rest)
  {
    var next := chain + [kids[0]];
    var left, list := [next] + inner, [next] + inner + rest;
    forall i, j | 0 <= i < j < |list| ensures Before(list[i], list[j]) {
      if j < |left| {
        assert list[j] == inner[j - 1] && list[j] in inner;
        if i > 0 {
          assert list[i] == inner[i - 1];
        }
      } else if i >= |left| {
        assert list[i] == rest[i - |left|] && list[j] == rest[j - |left|];
      } else {
        assert list[i] == next || (list[i] == inner[i - 1] && list[i] in inner);
        assert list[j] == rest[j - |left|] && list[j] in rest;
        assert FirstDiffersAt(list[i], list[j], |chain|);
      }
    }
  }

  /** The chains `buildFolderList` lists, one per item. */
  ghost function Listing(rows: seq<Row>): seq<seq<nat>>
    requires Distinct(rows)
  {
    Walk(rows, [])
  }

  /** Every chain from the top is listed, nothing else is, and the list is in preorder. */
  lemma ListsEveryChainInPreorder(rows: seq<Row>)
    requires Distinct(rows)
    ensures forall e :: e in Listing(rows) <==> e != [] && RootChain(rows, e)
    ensures InPreorder(Listing(rows))
  {
    var kids := Children(rows, None, |rows|);
    assert KeyAt(rows, [], 0).None?;
    KidsExtend(rows, [], kids);
    WalkCovers(rows, [], kids);
    forall e | e != [] && RootChain(rows, e) ensures e in Listing(rows) {
      ThroughChild(rows, [], e);
    }
  }

  lemma NotBeforeItself(a: seq<nat>, b: seq<nat>)
    requires Before(a, b)
    ensures a != b && !(b < a)
  {
  }

  /** A row is listed exactly when its parent chain reaches the top, and then once. */
  lemma ListsRootedRowsOnce(rows: seq<Row>, k: nat)
    requires Distinct(rows) && k < |rows|
    ensures var list := Listing(rows);
      && (Rooted(rows, k) <==> exists i :: 0 <= i < |list| && list[i] != [] && list[i][|list[i]| - 1] == k)
      && (forall i, j ::
            (0 <= i < j < |list| && list[i] != [] && list[j] != []) ==>
              list[i][|list[i]| - 1] != list[j][|list[j]| - 1])
  {
    var list := Listing(rows);
    ListsEveryChainInPreorder(rows);
    if i, j :| 0 <= i < j < |list| && list[i] != [] && list[j] != []
               && list[i][|list[i]| - 1] == list[j][|list[j]| - 1] {
      assert list[i] in list && list[j] in list;
      OneChainPerRow(rows, list[i], list[j]);
      NotBeforeItself(list[i], list[j]);
      assert false;
    }
    if Rooted(rows, k) {
      var chain :| RootChain(rows, chain) && chain != [] && chain[|chain| - 1] == k;
      assert chain in list;
    }
    if i :| 0 <= i < |list| && list[i] != [] && list[i][|list[i]| - 1] == k {
      assert list[i] in list;
    }
  }

  /** The subtree of an item is the unbroken stretch right behind it. */
  lemma SubtreesAreContiguous(rows: seq<Row>, i: nat, j: nat, k: nat)
    requires Distinct(rows) && i < j < k < |Listing(rows)|
    requires Listing(rows)[i] < Listing(rows)[k]
    ensures Listing(rows)[i] < Listing(rows)[j]
  {
    ListsEveryChainInPreorder(rows);
    var a, b, c := Listing(rows)[i], Listing(rows)[j], Listing(rows)[k];
    assert Before(a, b) && Before(b, c);
  }
}
