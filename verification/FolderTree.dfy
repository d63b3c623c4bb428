/** The object that flattens a user's folders in place: `childrenByParent` and `flattened`. */
module FolderTree {
  import opened Options
  import opened FolderForest
  import opened FolderList
  import opened Permutations

  datatype Item = Item(id: string, name: string, parentId: Option<string>, createdAt: int,
                       counts: Counts, depth: nat, path: seq<string>)

  ghost function Names(rows: seq<Row>, chain: seq<nat>): seq<string>
    requires RootChain(rows, chain)
  {
    seq(|chain|, i requires 0 <= i < |chain| => rows[chain[i]].name)
  }

  /** What the list says about the row a chain ends at: its depth and path are the chain's. */
  ghost function ItemOf(rows: seq<Row>, chain: seq<nat>): Item
    requires RootChain(rows, chain) && chain != []
  {
    var row := rows[chain[|chain| - 1]];
    Item(row.id, row.name, row.parentId, row.createdAt, row.counts, |chain| - 1, Names(rows, chain))
  }

  ghost predicate Chains(rows: seq<Row>, list: seq<seq<nat>>) {
    forall i :: 0 <= i < |list| ==> list[i] != [] && RootChain(rows, list[i])
  }

  ghost function Items(rows: seq<Row>, list: seq<seq<nat>>): seq<Item>
    requires Chains(rows, list)
  {
    seq(|list|, i requires 0 <= i < |list| => ItemOf(rows, list[i]))
  }

  ghost function RowsAt(rows: seq<Row>, at: seq<nat>): seq<Row>
    requires forall i :: 0 <= i < |at| ==> at[i] < |rows|
  {
    seq(|at|, i requires 0 <= i < |at| => rows[at[i]])
  }

  lemma WalkIsChains(rows: seq<Row>, chain: seq<nat>, kids: seq<nat>)
    requires Distinct(rows) && RootChain(rows, chain) && AreChildren(rows, chain, kids)
    ensures Chains(rows, WalkAll(rows, chain, kids))
  {
    WalkCovers(rows, chain, kids);
    var list := WalkAll(rows, chain, kids);
    forall i | 0 <= i < |list| ensures list[i] != [] && RootChain(rows, list[i]) {
      assert list[i] in list;
    }
  }

  lemma WalkIsOnlyChains(rows: seq<Row>, chain: seq<nat>)
    requires Distinct(rows) && RootChain(rows, chain)
    ensures Chains(rows, Walk(rows, chain))
  {
    var kids := Children(rows, KeyAt(rows, chain, |chain|), |rows|);
    KidsExtend(rows, chain, kids);
    WalkIsChains(rows, chain, kids);
  }

  /** The items below a chain. */
  ghost function Below(rows: seq<Row>, chain: seq<nat>): seq<Item>
    requires Distinct(rows) && RootChain(rows, chain)
  {
    WalkIsOnlyChains(rows, chain);
    Items(rows, Walk(rows, chain))
  }

  /** The items still to come when the visitor stands before child `i`. */
  ghost function Todo(rows: seq<Row>, chain: seq<nat>, i: nat): seq<Item>
    requires Distinct(rows) && RootChain(rows, chain)
    requires i <= |Children(rows, KeyAt(rows, chain, |chain|), |rows|)|
  {
    var kids := Children(rows, KeyAt(rows, chain, |chain|), |rows|);
    KidsExtend(rows, chain, kids);
    WalkIsChains(rows, chain, kids[i..]);
    Items(rows, WalkAll(rows, chain, kids[i..]))
  }

  /** They are the child's own item, those below it, and those of its later siblings. */
  lemma Peel(rows: seq<Row>, chain: seq<nat>, kids: seq<nat>, i: nat)
    requires Distinct(rows) && RootChain(rows, chain)
    requires kids == Children(rows, KeyAt(rows, chain, |chain|), |rows|) && i < |kids|
    ensures var next := chain + [kids[i]];
      && RootChain(rows, next) && |next| <= |rows|
      && Todo(rows, chain, i) == [ItemOf(rows, next)] + Below(rows, next) + Todo(rows, chain, i + 1)
  {
    KidsExtend(rows, chain, kids);
    var next := chain + [kids[i]];
    WalkFirst(rows, chain, kids, i);
    ChainIsBounded(rows, next);
    WalkIsOnlyChains(rows, next);
    WalkIsChains(rows, chain, kids[i + 1..]);
    ItemsConcat(rows, next, Walk(rows, next), WalkAll(rows, chain, kids[i + 1..]));
  }

  lemma ItemsConcat(rows: seq<Row>, a: seq<nat>, b: seq<seq<nat>>, c: seq<seq<nat>>)
    requires RootChain(rows, a) && a != [] && Chains(rows, b) && Chains(rows, c)
    ensures Chains(rows, [a] + b + c)
    ensures Items(rows, [a] + b + c) == [ItemOf(rows, a)] + Items(rows, b) + Items(rows, c)
  {
  }

  lemma TodoEnds(rows: seq<Row>, chain: seq<nat>)
    requires Distinct(rows) && RootChain(rows, chain)
    ensures Todo(rows, chain, 0) == Below(rows, chain)
    ensures Todo(rows, chain, |Children(rows, KeyAt(rows, chain, |chain|), |rows|)|) == []
  {
    var kids := Children(rows, KeyAt(rows, chain, |chain|), |rows|);
    assert kids[0..] == kids;
  }

  lemma NamesOf(rows: seq<Row>, chain: seq<nat>, k: nat)
    requires RootChain(rows, chain) && RootChain(rows, chain + [k]) && k < |rows|
    ensures Names(rows, chain + [k]) == Names(rows, chain) + [rows[k].name]
  {
  }

  lemma Regroup(done: seq<Item>, item: Item, below: seq<Item>, todo: seq<Item>)
    ensures done + ([item] + below + todo) == done + [item] + below + todo
  {
  }

  function Lookup(table: map<Option<string>, seq<Row>>, key: Option<string>): seq<Row> {
    if key in table then table[key] else []
  }

  ghost predicate FiledUnder(table: map<Option<string>, seq<Row>>, rows: seq<Row>, key: Option<string>, n: nat)
    requires n <= |rows|
  {
    Lookup(table, key) == RowsAt(rows, Children(rows, key, n))
  }

  ghost predicate AllFiled(table: map<Option<string>, seq<Row>>, rows: seq<Row>, n: nat)
    requires n <= |rows|
  {
    forall key :: FiledUnder(table, rows, key, n)
  }

  lemma FileOne(table: map<Option<string>, seq<Row>>, rows: seq<Row>, n: nat)
    requires n < |rows| && AllFiled(table, rows, n)
    ensures var key := Key(Ids(rows), rows[n]);
      AllFiled(table[key := Lookup(table, key) + [rows[n]]], rows, n + 1)
  {
    var key, m := Key(Ids(rows), rows[n]), n + 1;
    var table' := table[key := Lookup(table, key) + [rows[n]]];
    forall k ensures FiledUnder(table', rows, k, m) {
      assert FiledUnder(table, rows, k, n);
      FileAt(table, rows, k, n);
    }
  }

  lemma FileAt(table: map<Option<string>, seq<Row>>, rows: seq<Row>, k: Option<string>, n: nat)
    requires n < |rows| && FiledUnder(table, rows, k, n)
    ensures var key := Key(Ids(rows), rows[n]);
      FiledUnder(table[key := Lookup(table, key) + [rows[n]]], rows, k, n + 1)
  {
    var kids := Children(rows, k, n);
    if k == Key(Ids(rows), rows[n]) {
      assert RowsAt(rows, kids + [n]) == RowsAt(rows, kids) + [rows[n]];
    }
  }

  class Builder {
    var childrenByParent: map<Option<string>, seq<Row>>
    var flattened: seq<Item>

    constructor ()
      ensures childrenByParent == map[] && flattened == []
    {
      childrenByParent, flattened := map[], [];
    }

    /** The table files the first `n` rows, in order, under their keys. */
    ghost predicate Filed(rows: seq<Row>, n: nat)
      requires n <= |rows|
      reads this`childrenByParent
    {
      AllFiled(childrenByParent, rows, n)
    }

    method File(rows: seq<Row>)
      requires childrenByParent == map[]
      modifies this`childrenByParent
      ensures Filed(rows, |rows|)
    {
      var ids := Ids(rows);
      for n := 0 to |rows|
        invariant Filed(rows, n)
      {
        FileOne(childrenByParent, rows, n);
        var row := rows[n];
        var key := Key(ids, row);
        childrenByParent := childrenByParent[key := Lookup(childrenByParent, key) + [row]];
      }
    }

    method Visit(parentId: Option<string>, depth: nat, trail: seq<string>, ghost rows: seq<Row>, ghost chain: seq<nat>)
      requires Distinct(rows) && Filed(rows, |rows|) && RootChain(rows, chain)
      requires parentId == KeyAt(rows, chain, |chain|) && depth == |chain| && trail == Names(rows, chain)
      modifies this`flattened
      ensures flattened == old(flattened) + Below(rows, chain)
      decreases |rows| - |chain|
    {
      var children := Lookup(childrenByParent, parentId);
      ghost var kids := Children(rows, parentId, |rows|);
      TodoEnds(rows, chain);
      assert FiledUnder(childrenByParent, rows, parentId, |rows|);
      for i := 0 to |children|
        invariant flattened + Todo(rows, chain, i) == old(flattened) + Below(rows, chain)
      {
        Peel(rows, chain, kids, i);
        var child := children[i];
        ghost var next := chain + [kids[i]];
        NamesOf(rows, chain, kids[i]);
        Regroup(flattened, ItemOf(rows, next), Below(rows, next), Todo(rows, chain, i + 1));

        var path := trail + [child.name];
        flattened := flattened + [Item(child.id, child.name, child.parentId, child.createdAt,
                                       child.counts, depth, path)];
        Visit(Some(child.id), depth + 1, path, rows, next);
      }
    }
  }

  // --------------------------------------------- whatever the sort decides

  lemma SameElements(rows: seq<Row>, sorted: seq<Row>)
    requires multiset(rows) == multiset(sorted)
    ensures forall row :: row in rows <==> row in sorted
    ensures Ids(rows) == Ids(sorted)
  {
    assert forall row :: row in rows <==> row in multiset(rows);
    assert forall row :: row in sorted <==> row in multiset(sorted);
  }

  lemma SortedIsDistinct(rows: seq<Row>, sorted: seq<Row>)
    requires Distinct(rows) && multiset(rows) == multiset(sorted)
    ensures Distinct(sorted)
  {
    PermutedHasNoRepeats(rows, sorted);
    forall i, j | 0 <= i < j < |sorted| ensures sorted[i].id != sorted[j].id {
      assert sorted[i] in rows && sorted[j] in rows;
    }
  }

  /** A chain among the rows is, position by position, a chain among the sorted rows. */
  lemma {:induction false} ChainSurvivesSort(rows: seq<Row>, sorted: seq<Row>, chain: seq<nat>)
    returns (image: seq<nat>)
    requires multiset(rows) == multiset(sorted) && RootChain(rows, chain)
    ensures RootChain(sorted, image) && |image| == |chain|
    ensures forall t :: 0 <= t < |chain| ==> sorted[image[t]] == rows[chain[t]]
  {
    SameElements(rows, sorted);
    if chain == [] {
      image := [];
    } else {
      var m := |chain| - 1;
      PrefixIsChain(rows, chain, m);
      var front := ChainSurvivesSort(rows, sorted, chain[..m]);
      assert Linked(rows, chain, m);
      assert rows[chain[m]] in sorted;
      var k: nat :| k < |sorted| && sorted[k] == rows[chain[m]];
      ExtendChain(sorted, front, k);
      image := front + [k];
    }
  }

  ghost predicate Listed(list: seq<Item>, id: string) {
    exists i :: 0 <= i < |list| && list[i].id == id
  }

  lemma ReadItems(rows: seq<Row>)
    requires Distinct(rows)
    ensures Chains(rows, Listing(rows)) && Below(rows, []) == Items(rows, Listing(rows))
  {
    WalkIsOnlyChains(rows, []);
  }

  lemma RootedIsListed(rows: seq<Row>, sorted: seq<Row>, chain: seq<nat>)
    requires Distinct(sorted) && multiset(rows) == multiset(sorted)
    requires RootChain(rows, chain) && chain != [] && Chains(sorted, Listing(sorted))
    ensures Listed(Items(sorted, Listing(sorted)), rows[chain[|chain| - 1]].id)
  {
    var list := Listing(sorted);
    var image := ChainSurvivesSort(rows, sorted, chain);
    ListsEveryChainInPreorder(sorted);
    assert image in list;
    var i :| 0 <= i < |list| && list[i] == image;
    assert Items(sorted, list)[i].id == rows[chain[|chain| - 1]].id;
  }

  lemma ListedIsRooted(rows: seq<Row>, sorted: seq<Row>, k: nat, i: nat)
    requires Distinct(rows) && multiset(rows) == multiset(sorted) && k < |rows|
    requires Distinct(sorted) && Chains(sorted, Listing(sorted)) && i < |Listing(sorted)|
    requires Items(sorted, Listing(sorted))[i].id == rows[k].id
    ensures Rooted(rows, k)
  {
    var chain := Listing(sorted)[i];
    var image := ChainSurvivesSort(sorted, rows, chain);
    SameRow(rows, image[|image| - 1], k);
  }

  /** Whatever order the sort leaves the rows in, the list shows exactly the rows whose parent chain
    * reaches the top. */
  lemma SortNeverHidesRows(rows: seq<Row>, sorted: seq<Row>, k: nat)
    requires Distinct(rows) && Distinct(sorted) && multiset(rows) == multiset(sorted) && k < |rows|
    ensures Listed(Below(sorted, []), rows[k].id) <==> Rooted(rows, k)
  {
    ReadItems(sorted);
    var items := Items(sorted, Listing(sorted));
    if Rooted(rows, k) {
      var chain :| RootChain(rows, chain) && chain != [] && chain[|chain| - 1] == k;
      RootedIsListed(rows, sorted, chain);
    }
    if Listed(items, rows[k].id) {
      var i :| 0 <= i < |items| && items[i].id == rows[k].id;
      ListedIsRooted(rows, sorted, k, i);
    }
  }

  lemma EverySortedList(rows: seq<Row>, sorted: seq<Row>)
    requires Distinct(rows) && multiset(rows) == multiset(sorted)
    ensures Distinct(sorted)
    ensures forall k :: 0 <= k < |rows| ==> (Listed(Below(sorted, []), rows[k].id) <==> Rooted(rows, k))
  {
    SortedIsDistinct(rows, sorted);
    forall k | 0 <= k < |rows| ensures Listed(Below(sorted, []), rows[k].id) <==> Rooted(rows, k) {
      SortNeverHidesRows(rows, sorted, k);
    }
  }

  /** `sorted` is whatever order the engine's sort produced: its comparator is not transitive. */
  method BuildFolderList(rows: seq<Row>, sorted: seq<Row>) returns (list: seq<Item>)
    requires Distinct(rows) && multiset(rows) == multiset(sorted)
    ensures Distinct(sorted) && Chains(sorted, Listing(sorted)) && list == Items(sorted, Listing(sorted))
    ensures forall k :: 0 <= k < |rows| ==> (Listed(list, rows[k].id) <==> Rooted(rows, k))
  {
    EverySortedList(rows, sorted);
    var builder := new Builder();
    builder.File(sorted);
    builder.Visit(None, 0, [], sorted, []);
    list := builder.flattened;
    ReadItems(sorted);
  }
}
