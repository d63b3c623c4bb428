/** How the two halves of src/lib/folders.ts meet: the list hides rows exactly when links form a cycle. */
module FolderCycles {
  import opened Options
  import opened FolderForest
  import opened FolderMoves

  /** The map `validateFolderMove` reads from the same rows. */
  ghost function ParentsOf(rows: seq<Row>): Parents
    requires Distinct(rows)
  {
    map row | row in rows :: row.id := row.parentId
  }

  /** A downward path of parent links that need not start at the top. */
  ghost predicate Descends(rows: seq<Row>, path: seq<nat>) {
    && (forall k :: 0 <= k < |path| ==> path[k] < |rows|)
    && (forall t :: 0 < t < |path| ==> Linked(rows, path, t))
  }

  /** The key a row is filed under is the parent the walk would step to, when that is listed. */
  lemma KeyIsNext(rows: seq<Row>, k: nat)
    requires Distinct(rows) && k < |rows|
    ensures var parents, key := ParentsOf(rows), Key(Ids(rows), rows[k]);
      && (key.Some? ==> Next(parents, rows[k].id) == key && key.value in Ids(rows))
      && (key.None? ==> Up(parents, rows[k].id, 2).None?)
  {
    var parents := ParentsOf(rows);
    assert rows[k] in rows && parents[rows[k].id] == rows[k].parentId;
    assert Up(parents, rows[k].id, 0) == Some(rows[k].id);
    assert Up(parents, rows[k].id, 1) == Next(parents, rows[k].id);
  }

  lemma {:induction false} PathClimbs(rows: seq<Row>, path: seq<nat>, s: nat, t: nat)
    requires Distinct(rows) && Descends(rows, path) && s <= t < |path|
    ensures Up(ParentsOf(rows), rows[path[t]].id, t - s) == Some(rows[path[s]].id)
    decreases t - s
  {
    if s < t {
      PathClimbs(rows, path, s + 1, t);
      assert Linked(rows, path, s + 1);
      KeyIsNext(rows, path[s + 1]);
    }
  }

  lemma AcyclicPathIsShort(rows: seq<Row>, path: seq<nat>)
    requires Distinct(rows) && Descends(rows, path) && Acyclic(ParentsOf(rows))
    ensures |path| <= |rows|
  {
    forall i, j | 0 <= i < j < |path| ensures path[i] != path[j] {
      PathClimbs(rows, path, i, j);
    }
    DistinctBounded(path, |rows|);
  }

  lemma Prepend(rows: seq<Row>, path: seq<nat>) returns (p: nat)
    requires Descends(rows, path) && path != [] && Key(Ids(rows), rows[path[0]]).Some?
    ensures Descends(rows, [p] + path)
  {
    var key := Key(Ids(rows), rows[path[0]]).value;
    var row :| row in rows && row.id == key;
    p :| p < |rows| && rows[p] == row;
    var longer := [p] + path;
    forall t | 0 < t < |longer| ensures Linked(rows, longer, t) {
      assert t > 1 ==> Linked(rows, path, t - 1);
    }
  }

  /** Without cycles every upward climb ends at the top. */
  lemma {:induction false} ClimbToTheTop(rows: seq<Row>, path: seq<nat>)
    requires Distinct(rows) && Descends(rows, path) && Acyclic(ParentsOf(rows)) && path != []
    ensures Rooted(rows, path[|path| - 1])
    decreases |rows| - |path|
  {
    AcyclicPathIsShort(rows, path);
    if Key(Ids(rows), rows[path[0]]).None? {
      assert Linked(rows, path, 0);
      assert RootChain(rows, path);
    } else {
      var p := Prepend(rows, path);
      AcyclicPathIsShort(rows, [p] + path);
      ClimbToTheTop(rows, [p] + path);
    }
  }

  /** A climb that returns to its start never ends. */
  lemma {:induction false} CycleNeverEnds(parents: Parents, id: string, n: nat, m: nat)
    requires n > 0 && Up(parents, id, n) == Some(id)
    ensures Up(parents, id, m).Some?
    decreases m
  {
    if m > n {
      UpAdds(parents, id, n, m - n);
      CycleNeverEnds(parents, id, n, m - n);
    } else if Up(parents, id, m).None? {
      UpStaysNone(parents, id, m, n);
    }
  }

  lemma RootedClimbEnds(rows: seq<Row>, chain: seq<nat>)
    requires Distinct(rows) && RootChain(rows, chain) && chain != []
    ensures Up(ParentsOf(rows), rows[chain[|chain| - 1]].id, |chain| + 1).None?
  {
    var last := |chain| - 1;
    PathClimbs(rows, chain, 0, last);
    assert Linked(rows, chain, 0);
    KeyIsNext(rows, chain[0]);
    UpAdds(ParentsOf(rows), rows[chain[last]].id, last, 2);
  }

  lemma RootedIsNotOnACycle(rows: seq<Row>, k: nat, n: nat)
    requires Distinct(rows) && k < |rows| && Rooted(rows, k) && n > 0
    ensures Up(ParentsOf(rows), rows[k].id, n) != Some(rows[k].id)
  {
    var chain :| RootChain(rows, chain) && chain != [] && chain[|chain| - 1] == k;
    RootedClimbEnds(rows, chain);
    if Up(ParentsOf(rows), rows[k].id, n) == Some(rows[k].id) {
      CycleNeverEnds(ParentsOf(rows), rows[k].id, n, |chain| + 1);
    }
  }

  /** The folder list shows every row exactly when no folder is its own ancestor. */
  lemma NothingIsHiddenIffAcyclic(rows: seq<Row>)
    requires Distinct(rows)
    ensures (forall k :: 0 <= k < |rows| ==> Rooted(rows, k)) <==> Acyclic(ParentsOf(rows))
  {
    var parents := ParentsOf(rows);
    if Acyclic(parents) {
      forall k | 0 <= k < |rows| ensures Rooted(rows, k) {
        ClimbToTheTop(rows, [k]);
      }
    }
    if forall k :: 0 <= k < |rows| ==> Rooted(rows, k) {
      forall id, n: nat | n > 0 ensures Up(parents, id, n) != Some(id) {
        if id in parents {
          var row :| row in rows && row.id == id;
          var k: nat :| k < |rows| && rows[k] == row;
          RootedIsNotOnACycle(rows, k, n);
        } else {
          assert Up(parents, id, 0) == Some(id);
          assert Up(parents, id, 1).None?;
          UpStaysNone(parents, id, 1, n);
        }
      }
    }
  }
}
