/** Folder rows, their effective parents, and the chains that lead from a top-level folder down
  * to a row (src/lib/folders.ts:30-74). A chain is a sequence of positions in the row list. */
module FolderForest {
  import opened Options

  datatype Counts = Counts(sessions: nat, keywordPool: nat, children: nat)
  datatype Row = Row(id: string, name: string, parentId: Option<string>, createdAt: int, counts: Counts)

  ghost predicate Distinct(rows: seq<Row>) {
    forall i, j :: 0 <= i < j < |rows| ==> rows[i].id != rows[j].id
  }

  function Ids(rows: seq<Row>): set<string> {
    set row | row in rows :: row.id
  }

  /** The key a row is filed under: its parent when that is a non-empty id of a listed row. */
  function Key(ids: set<string>, row: Row): Option<string> {
    if row.parentId.Some? && row.parentId.value != "" && row.parentId.value in ids
    then row.parentId
    else None
  }

  /** The key under which the successor of the first `t` rows of a chain must be filed. */
  function KeyAt(rows: seq<Row>, chain: seq<nat>, t: nat): Option<string>
    requires t <= |chain| && forall k :: 0 <= k < |chain| ==> chain[k] < |rows|
  {
    if t == 0 then None else Some(rows[chain[t - 1]].id)
  }

  ghost predicate Linked(rows: seq<Row>, chain: seq<nat>, t: nat)
    requires t < |chain| && forall k :: 0 <= k < |chain| ==> chain[k] < |rows|
  {
    Key(Ids(rows), rows[chain[t]]) == KeyAt(rows, chain, t)
  }

  /** A chain starts at a row filed under no parent, and each next row is filed under the one before. */
  ghost predicate RootChain(rows: seq<Row>, chain: seq<nat>) {
    && (forall k :: 0 <= k < |chain| ==> chain[k] < |rows|)
    && (forall t :: 0 <= t < |chain| ==> Linked(rows, chain, t))
  }

  /** The row at `i` can be reached from the top by following parent links downwards. */
  ghost predicate Rooted(rows: seq<Row>, i: nat) {
    exists chain :: RootChain(rows, chain) && chain != [] && chain[|chain| - 1] == i
  }

  // ---------------------------------------------------------------- chains

  lemma SameRow(rows: seq<Row>, i: nat, j: nat)
    requires Distinct(rows) && i < |rows| && j < |rows| && rows[i].id == rows[j].id
    ensures i == j
  {
  }

  lemma {:induction false} NoRepeat(rows: seq<Row>, chain: seq<nat>, i: nat, j: nat)
    requires Distinct(rows) && RootChain(rows, chain) && i < j < |chain|
    ensures chain[i] != chain[j]
  {
    assert Linked(rows, chain, i) && Linked(rows, chain, j);
    if i > 0 {
      NoRepeat(rows, chain, i - 1, j - 1);
    }
  }

  /** A row is reached along at most one chain. */
  lemma {:induction false} OneChainPerRow(rows: seq<Row>, c: seq<nat>, d: seq<nat>)
    requires Distinct(rows) && RootChain(rows, c) && RootChain(rows, d)
    requires c != [] && d != [] && c[|c| - 1] == d[|d| - 1]
    ensures c == d
    decreases |c|
  {
    var m, n := |c| - 1, |d| - 1;
    assert Linked(rows, c, m) && Linked(rows, d, n);
    assert c == c[..m] + [c[m]] && d == d[..n] + [d[n]];
    if m > 0 && n > 0 {
      PrefixIsChain(rows, c, m);
      PrefixIsChain(rows, d, n);
      SameRow(rows, c[m - 1], d[n - 1]);
      OneChainPerRow(rows, c[..m], d[..n]);
    }
  }

  lemma PrefixIsChain(rows: seq<Row>, chain: seq<nat>, n: nat)
    requires RootChain(rows, chain) && n <= |chain|
    ensures RootChain(rows, chain[..n])
  {
    forall t | 0 <= t < n ensures Linked(rows, chain[..n], t) {
      assert Linked(rows, chain, t);
    }
  }

  lemma ExtendChain(rows: seq<Row>, chain: seq<nat>, k: nat)
    requires RootChain(rows, chain) && k < |rows|
    ensures RootChain(rows, chain + [k]) <==> Key(Ids(rows), rows[k]) == KeyAt(rows, chain, |chain|)
  {
    var longer := chain + [k];
    forall t | 0 <= t < |chain| ensures Linked(rows, longer, t) {
      assert Linked(rows, chain, t);
    }
    assert Linked(rows, longer, |chain|) <==> Key(Ids(rows), rows[k]) == KeyAt(rows, chain, |chain|);
  }

  lemma {:induction false} DistinctBounded(s: seq<nat>, n: nat)
    requires forall i :: 0 <= i < |s| ==> s[i] < n
    requires forall i, j :: 0 <= i < j < |s| ==> s[i] != s[j]
    ensures |s| <= n
    decreases n
  {
    if s != [] {
      assert s[0] < n;
      if n - 1 in s {
        var k :| 0 <= k < |s| && s[k] == n - 1;
        var rest := s[..k] + s[k + 1..];
        forall i | 0 <= i < |rest| ensures rest[i] < n - 1 {
          assert rest[i] == s[if i < k then i else i + 1];
        }
        DistinctBounded(rest, n - 1);
      } else {
        DistinctBounded(s, n - 1);
      }
    }
  }

  /** A chain never visits more rows than there are, whatever cycles the other rows form. */
  lemma ChainIsBounded(rows: seq<Row>, chain: seq<nat>)
    requires Distinct(rows) && RootChain(rows, chain)
    ensures |chain| <= |rows|
  {
    forall i, j | 0 <= i < j < |chain| ensures chain[i] != chain[j] {
      NoRepeat(rows, chain, i, j);
    }
    DistinctBounded(chain, |rows|);
  }
}
