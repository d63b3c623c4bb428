/** Merging two transcript snapshots by stable ids (src/lib/mergeTranscriptBundles.ts:9-30). */
module TranscriptEntries {
  /** One of the fields `text`, `translatedText` and `summary`: absent, a string, or any other JSON value. */
  datatype Field = Absent | Text(text: string) | Other(json: string)

  /** A record with a string id, or any other value, known by its JSON text. */
  datatype Entry =
    | Record(id: string, text: Field, translated: Field, summary: Field, rest: map<string, string>)
    | Opaque(json: string)

  datatype Key = ById(id: string) | ByValue(json: string)

  function KeyOf(e: Entry): Key {
    match e
    case Record(id, _, _, _, _) => ById(id)
    case Opaque(json) => ByValue(json)
  }

  /** The field of `{ ...prior, ...next }`, except that a string is never lost or shortened. */
  function MergeField(prior: Field, next: Field): Field {
    var spread := if next.Absent? then prior else next;
    if prior.Text? && (!next.Text? || |next.text| < |prior.text|) then prior else spread
  }

  function Combine(prior: Entry, next: Entry): Entry {
    if prior.Record? && next.Record? then
      Record(next.id, MergeField(prior.text, next.text), MergeField(prior.translated, next.translated),
             MergeField(prior.summary, next.summary), prior.rest + next.rest)
    else next
  }

  // --------------------------------------------------- what a list stands for

  /** The keys of a list in order of first appearance. */
  function Order(list: seq<Entry>): seq<Key> {
    if list == [] then [] else
    var before, key := Order(list[..|list| - 1]), KeyOf(list[|list| - 1]);
    if key in before then before else before + [key]
  }

  /** Where a key first appears. */
  function FirstAt(list: seq<Entry>, k: Key): (n: nat)
    ensures n <= |list| && (n < |list| ==> KeyOf(list[n]) == k)
    ensures forall j :: 0 <= j < n ==> KeyOf(list[j]) != k
  {
    if list == [] || KeyOf(list[0]) == k then 0 else 1 + FirstAt(list[1..], k)
  }

  lemma {:induction false} OrderHasAll(list: seq<Entry>, k: Key)
    ensures k in Order(list) <==> FirstAt(list, k) < |list|
  {
    if list != [] {
      var init := list[..|list| - 1];
      OrderHasAll(init, k);
      FirstInPrefix(list, k);
    }
  }

  /** A key appears first where it does in the list without its last entry, or there. */
  lemma FirstInPrefix(list: seq<Entry>, k: Key)
    requires list != []
    ensures var init, n := list[..|list| - 1], |list| - 1;
      FirstAt(list, k)
      == (if FirstAt(init, k) < n then FirstAt(init, k) else if KeyOf(list[n]) == k then n else |list|)
  {
    var init := list[..|list| - 1];
    assert forall j :: 0 <= j < |init| ==> init[j] == list[j];
  }

  /** The order is that of the places where the keys first appear. */
  lemma {:induction false} OrderIsByFirstAppearance(list: seq<Entry>, i: nat, j: nat)
    requires i < j < |Order(list)|
    ensures FirstAt(list, Order(list)[i]) < FirstAt(list, Order(list)[j]) < |list|
  {
    var init, last := list[..|list| - 1], KeyOf(list[|list| - 1]);
    FirstInPrefix(list, Order(list)[i]);
    FirstInPrefix(list, Order(list)[j]);
    OrderHasAll(init, Order(list)[i]);
    OrderHasAll(init, Order(list)[j]);
    if j < |Order(init)| {
      OrderIsByFirstAppearance(init, i, j);
    } else {
      assert Order(list)[j] == last && Order(list)[i] == Order(init)[i];
    }
  }

  ghost predicate Keyed(m: map<Key, Entry>) {
    forall k :: k in m ==> KeyOf(m[k]) == k
  }

  function Put(m: map<Key, Entry>, e: Entry): map<Key, Entry> {
    m[KeyOf(e) := if KeyOf(e) in m then Combine(m[KeyOf(e)], e) else e]
  }

  /** Each key with all its entries combined, first to last. */
  function Merged(list: seq<Entry>): (m: map<Key, Entry>)
    ensures Keyed(m)
  {
    if list == [] then map[] else Put(Merged(list[..|list| - 1]), list[|list| - 1])
  }

  lemma {:induction false} OrderIsKeys(list: seq<Entry>)
    ensures forall k :: k in Order(list) <==> k in Merged(list)
    ensures forall i, j :: 0 <= i < j < |Order(list)| ==> Order(list)[i] != Order(list)[j]
  {
    if list != [] {
      OrderIsKeys(list[..|list| - 1]);
    }
  }

  /** The list the merge leaves: one entry per key, in order of first appearance. */
  function Normal(list: seq<Entry>): seq<Entry> {
    OrderIsKeys(list);
    seq(|Order(list)|, i requires 0 <= i < |Order(list)| => Merged(list)[Order(list)[i]])
  }

  method MergeEntries(previous: seq<Entry>, incoming: seq<Entry>) returns (merged: seq<Entry>)
    ensures merged == Normal(previous + incoming)
  {
    var keys: seq<Key>, entries: map<Key, Entry> := [], map[];
    var all := previous + incoming;
    for i := 0 to |all|
      invariant keys == Order(all[..i]) && entries == Merged(all[..i])
    {
      assert all[..i + 1][..i] == all[..i];
      OrderIsKeys(all[..i]);
      var item := all[i];
      var key := KeyOf(item);
      if key in entries {
        entries := entries[key := Combine(entries[key], item)];
      } else {
        keys := keys + [key];
        entries := entries[key := item];
      }
    }
    assert all[..|all|] == all;
    OrderIsKeys(all);
    merged := seq(|keys|, i requires 0 <= i < |keys| => entries[keys[i]]);
  }

  // ------------------------------------------------------------ the algebra

  /** One table after the other: later entries are combined into earlier ones. */
  function Join(a: map<Key, Entry>, b: map<Key, Entry>): map<Key, Entry> {
    map k | k in a.Keys + b.Keys :: if k !in b then a[k] else if k !in a then b[k] else Combine(a[k], b[k])
  }

  lemma CombineAssociates(a: Entry, b: Entry, c: Entry)
    requires KeyOf(a) == KeyOf(b) == KeyOf(c)
    ensures Combine(Combine(a, b), c) == Combine(a, Combine(b, c))
  {
  }

  lemma CombineAbsorbs(a: Entry, b: Entry)
    requires KeyOf(a) == KeyOf(b)
    ensures Combine(Combine(a, b), b) == Combine(a, b)
  {
  }

  function Without(keys: seq<Key>, seen: seq<Key>): seq<Key> {
    if keys == [] then [] else
    var before, key := Without(keys[..|keys| - 1], seen), keys[|keys| - 1];
    if key in seen then before else before + [key]
  }

  lemma {:induction false} InWithout(keys: seq<Key>, seen: seq<Key>, k: Key)
    ensures k in Without(keys, seen) <==> k in keys && k !in seen
  {
    if keys != [] {
      InWithout(keys[..|keys| - 1], seen, k);
    }
  }

  lemma {:induction false} OrderAppends(x: seq<Entry>, y: seq<Entry>)
    ensures Order(x + y) == Order(x) + Without(Order(y), Order(x))
    decreases |y|
  {
    if y == [] {
      assert x + y == x;
    } else {
      var init, key := y[..|y| - 1], KeyOf(y[|y| - 1]);
      assert (x + y)[..|x + y| - 1] == x + init;
      OrderAppends(x, init);
      InWithout(Order(init), Order(x), key);
      if key !in Order(init) {
        assert Order(y)[..|Order(y)| - 1] == Order(init);
      }
    }
  }

  lemma JoinPut(m: map<Key, Entry>, n: map<Key, Entry>, e: Entry)
    requires Keyed(m) && Keyed(n)
    ensures Put(Join(m, n), e) == Join(m, Put(n, e))
  {
    var k := KeyOf(e);
    if k in m && k in n {
      CombineAssociates(m[k], n[k], e);
    }
  }

  lemma {:induction false} MergedAppends(x: seq<Entry>, y: seq<Entry>)
    ensures Merged(x + y) == Join(Merged(x), Merged(y))
    decreases |y|
  {
    if y == [] {
      assert x + y == x;
      assert Join(Merged(x), map[]) == Merged(x);
    } else {
      assert (x + y)[..|x + y| - 1] == x + y[..|y| - 1];
      MergedAppends(x, y[..|y| - 1]);
      JoinPut(Merged(x), Merged(y[..|y| - 1]), y[|y| - 1]);
    }
  }

  ghost predicate OneEach(list: seq<Entry>) {
    forall i, j :: 0 <= i < j < |list| ==> KeyOf(list[i]) != KeyOf(list[j])
  }

  lemma {:induction false} OrderOfOneEach(list: seq<Entry>)
    requires OneEach(list)
    ensures |Order(list)| == |list| && forall i :: 0 <= i < |list| ==> Order(list)[i] == KeyOf(list[i])
  {
    if list != [] {
      OrderOfOneEach(list[..|list| - 1]);
    }
  }

  /** A list with one entry per key stands for itself. */
  lemma {:induction false} MergedOneEach(list: seq<Entry>, i: nat)
    requires OneEach(list) && i < |list|
    ensures KeyOf(list[i]) in Merged(list) && Merged(list)[KeyOf(list[i])] == list[i]
  {
    var init := list[..|list| - 1];
    OrderOfOneEach(init);
    OrderIsKeys(init);
    if i < |init| {
      MergedOneEach(init, i);
      assert KeyOf(list[i]) != KeyOf(list[|list| - 1]);
    } else {
      assert KeyOf(list[i]) !in Order(init);
    }
  }

  lemma NormalHasOneEach(list: seq<Entry>)
    ensures OneEach(Normal(list)) && Order(Normal(list)) == Order(list)
  {
    OrderIsKeys(list);
    var n := Normal(list);
    assert forall i :: 0 <= i < |n| ==> Order(list)[i] in Merged(list) && KeyOf(n[i]) == Order(list)[i];
    OrderOfOneEach(n);
  }

  lemma NormalIsNormal(list: seq<Entry>)
    ensures Order(Normal(list)) == Order(list) && Merged(Normal(list)) == Merged(list)
  {
    NormalHasOneEach(list);
    OrderIsKeys(list);
    OrderIsKeys(Normal(list));
    forall k | k in Merged(list) ensures Merged(Normal(list))[k] == Merged(list)[k] {
      var i :| 0 <= i < |Order(list)| && Order(list)[i] == k;
      MergedOneEach(Normal(list), i);
    }
  }

  /** Merging what was merged before changes nothing: on either side a list may be replaced by its
    * normal form. */
  lemma NormalOfNormal(x: seq<Entry>, y: seq<Entry>)
    ensures Normal(Normal(x) + y) == Normal(x + y) == Normal(x + Normal(y))
  {
    NormalIsNormal(x);
    NormalIsNormal(y);
    OrderAppends(x, y);
    OrderAppends(Normal(x), y);
    OrderAppends(x, Normal(y));
    MergedAppends(x, y);
    MergedAppends(Normal(x), y);
    MergedAppends(x, Normal(y));
  }

  /** Merging is associative, entry by entry and in order. */
  lemma MergeAssociates(a: seq<Entry>, b: seq<Entry>, c: seq<Entry>)
    ensures Normal(Normal(a + b) + c) == Normal(a + Normal(b + c))
  {
    NormalOfNormal(a + b, c);
    NormalOfNormal(a, b + c);
    assert a + b + c == a + (b + c);
  }

  lemma {:induction false} WithoutAll(keys: seq<Key>, seen: seq<Key>)
    requires forall k :: k in keys ==> k in seen
    ensures Without(keys, seen) == []
  {
    if keys != [] {
      WithoutAll(keys[..|keys| - 1], seen);
    }
  }

  lemma JoinAbsorbs(m: map<Key, Entry>, n: map<Key, Entry>)
    requires Keyed(m) && Keyed(n)
    ensures Join(Join(m, n), n) == Join(m, n)
  {
    forall k | k in n ensures Join(Join(m, n), n)[k] == Join(m, n)[k] {
      CombineAbsorbs(if k in m then m[k] else n[k], n[k]);
      CombineAbsorbs(n[k], n[k]);
    }
  }

  /** Merging the same snapshot in again changes nothing. */
  lemma MergeAbsorbs(a: seq<Entry>, b: seq<Entry>)
    ensures Normal(Normal(a + b) + b) == Normal(a + b)
  {
    NormalOfNormal(a + b, b);
    MergedAppends(a + b, b);
    MergedAppends(a, b);
    JoinAbsorbs(Merged(a), Merged(b));
    OrderAppends(a + b, b);
    OrderIsKeys(a + b);
    OrderIsKeys(b);
    WithoutAll(Order(b), Order(a + b));
  }
}
