/** `mergeTranscriptBundles` (src/lib/mergeTranscriptBundles.ts:32-54) and what merging never loses. */
module TranscriptMerge {
  import opened Options
  import opened Permutations
  import opened TranscriptEntries

  datatype Bundle = Bundle(segments: seq<Entry>, summaries: seq<Entry>, translations: map<string, string>)

  const NOTHING := Bundle([], [], map[])

  function OrNothing(b: Option<Bundle>): Bundle {
    if b.Some? then b.value else NOTHING
  }

  /** The engine's sort: the comparator is not transitive, so any reordering is allowed. */
  ghost predicate IsSort(sort: seq<Entry> -> seq<Entry>) {
    forall s :: multiset(sort(s)) == multiset(s)
  }

  /** A non-empty translation wins over an empty one, and otherwise the incoming one wins. */
  function MergeTranslations(previous: map<string, string>, incoming: map<string, string>): map<string, string> {
    map id | id in previous.Keys + incoming.Keys ::
      if id in incoming && (incoming[id] != "" || id !in previous || previous[id] == "")
      then incoming[id]
      else previous[id]
  }

  function MergeBundles(sort: seq<Entry> -> seq<Entry>, previous: Bundle, incoming: Bundle): Bundle {
    Bundle(sort(Normal(previous.segments + incoming.segments)),
           Normal(previous.summaries + incoming.summaries),
           MergeTranslations(previous.translations, incoming.translations))
  }

  lemma TranslationStep(previous: map<string, string>, seen: map<string, string>, id: string, text: string)
    requires id !in seen
    ensures var before := MergeTranslations(previous, seen);
      MergeTranslations(previous, seen[id := text])
      == (if text != "" || id !in before || before[id] == "" then before[id := text] else before)
  {
  }

  lemma NothingToAdd(previous: map<string, string>)
    ensures MergeTranslations(previous, map[]) == previous
  {
  }

  /** The loop over `Object.entries(incoming.translations)`, in whatever order they come. */
  method AddTranslations(previous: map<string, string>, incoming: map<string, string>)
    returns (translations: map<string, string>)
    ensures translations == MergeTranslations(previous, incoming)
  {
    NothingToAdd(previous);
    translations := previous;
    var todo := incoming.Keys;
    ghost var seen: map<string, string> := map[];
    while todo != {}
      invariant todo <= incoming.Keys && seen.Keys == incoming.Keys - todo
      invariant forall id :: id in seen ==> seen[id] == incoming[id]
      invariant translations == MergeTranslations(previous, seen)
      decreases |todo|
    {
      var id :| id in todo;
      TranslationStep(previous, seen, id, incoming[id]);
      if incoming[id] != "" || id !in translations || translations[id] == "" {
        translations := translations[id := incoming[id]];
      }
      seen := seen[id := incoming[id]];
      todo := todo - {id};
    }
    assert seen == incoming;
  }

  method MergeTranscriptBundles(sort: seq<Entry> -> seq<Entry>, previous: Option<Bundle>, incoming: Option<Bundle>)
    returns (merged: Bundle)
    ensures merged == MergeBundles(sort, OrNothing(previous), OrNothing(incoming))
    ensures previous.Some? && incoming.Some? ==> merged == MergeBundles(sort, previous.value, incoming.value)
    ensures previous.None? && incoming.Some? ==> merged == MergeBundles(sort, NOTHING, incoming.value)
    ensures previous.Some? && incoming.None? ==> merged == MergeBundles(sort, previous.value, NOTHING)
  {
    var prev, inc := OrNothing(previous), OrNothing(incoming);
    var segments := MergeEntries(prev.segments, inc.segments);
    segments := sort(segments);
    var translations := AddTranslations(prev.translations, inc.translations);
    var summaries := MergeEntries(prev.summaries, inc.summaries);
    merged := Bundle(segments, summaries, translations);
  }

  // -------------------------------------------------- nothing gets lost

  /** `after` holds at least the string `before` holds. */
  predicate NoShorter(before: Field, after: Field) {
    before.Text? ==> after.Text? && |after.text| >= |before.text|
  }

  /** No field of the entry is lost or shortened, and every other field it has is still there. */
  predicate Keeps(e: Entry, after: Entry) {
    match e
    case Opaque(_) => after == e
    case Record(id, text, translated, summary, rest) =>
      && after.Record? && after.id == id
      && NoShorter(text, after.text) && NoShorter(translated, after.translated) && NoShorter(summary, after.summary)
      && rest.Keys <= after.rest.Keys
  }

  lemma CombineKeeps(a: Entry, b: Entry, e: Entry)
    requires KeyOf(a) == KeyOf(b)
    requires Keeps(e, a) || Keeps(e, b)
    ensures Keeps(e, Combine(a, b))
  {
  }

  lemma {:induction false} MergedKeeps(list: seq<Entry>, i: nat)
    requires i < |list|
    ensures KeyOf(list[i]) in Merged(list) && Keeps(list[i], Merged(list)[KeyOf(list[i])])
  {
    var init, last := list[..|list| - 1], list[|list| - 1];
    if i < |init| {
      MergedKeeps(init, i);
    }
    var k := KeyOf(last);
    if k in Merged(init) && (i == |init| || KeyOf(list[i]) == k) {
      CombineKeeps(Merged(init)[k], last, list[i]);
    }
  }

  lemma {:induction false} MergedInventsNothing(list: seq<Entry>, k: Key)
    requires k in Merged(list)
    ensures exists i :: 0 <= i < |list| && KeyOf(list[i]) == k
  {
    var init, last := list[..|list| - 1], list[|list| - 1];
    if k in Merged(init) {
      MergedInventsNothing(init, k);
      var i :| 0 <= i < |init| && KeyOf(init[i]) == k;
      assert KeyOf(list[i]) == k;
    } else {
      assert KeyOf(last) == k;
    }
  }

  datatype Which = OfText | OfTranslated | OfSummary

  function Get(e: Entry, which: Which): Field
    requires e.Record?
  {
    match which
    case OfText => e.text
    case OfTranslated => e.translated
    case OfSummary => e.summary
  }

  /** Each string field of a merged record is the field of one of the entries merged into it. */
  lemma {:induction false} FieldsAreSomeEntrys(list: seq<Entry>, k: Key, which: Which)
    requires k in Merged(list) && k.ById?
    ensures Merged(list)[k].Record?
    ensures exists i :: 0 <= i < |list| && KeyOf(list[i]) == k && list[i].Record?
                     && Get(list[i], which) == Get(Merged(list)[k], which)
  {
    var init, last := list[..|list| - 1], list[|list| - 1];
    assert KeyOf(Merged(list)[k]) == k;
    if k in Merged(init) && (KeyOf(last) != k || Get(Merged(list)[k], which) != Get(last, which)) {
      FieldsAreSomeEntrys(init, k, which);
      var i :| 0 <= i < |init| && KeyOf(init[i]) == k && init[i].Record?
            && Get(init[i], which) == Get(Merged(init)[k], which);
      assert list[i] == init[i];
    } else {
      assert KeyOf(last) == k;
    }
  }

  // ------------------------------------------------------- the bundle laws

  /** The same entries, each once, the same summaries in the same order and the same translations. */
  ghost predicate SameContent(a: Bundle, b: Bundle) {
    && OneEach(a.segments) && OneEach(b.segments) && Merged(a.segments) == Merged(b.segments)
    && a.summaries == b.summaries && a.translations == b.translations
  }

  lemma OneEachHasNoRepeats(list: seq<Entry>)
    requires OneEach(list)
    ensures NoRepeats(list)
  {
  }

  /** Sorting a list with one entry per key does not change what it stands for. */
  lemma SortKeepsContent(sort: seq<Entry> -> seq<Entry>, list: seq<Entry>)
    requires IsSort(sort) && OneEach(list)
    ensures OneEach(sort(list)) && Merged(sort(list)) == Merged(list)
  {
    var sorted := sort(list);
    OneEachHasNoRepeats(list);
    PermutedHasNoRepeats(list, sorted);
    forall i, j | 0 <= i < j < |sorted| ensures KeyOf(sorted[i]) != KeyOf(sorted[j]) {
      assert sorted[i] in list && sorted[j] in list;
    }
    SameMerged(list, sorted);
    SameMerged(sorted, list);
  }

  lemma SameMerged(a: seq<Entry>, b: seq<Entry>)
    requires OneEach(a) && OneEach(b) && forall e :: e in a ==> e in b
    ensures forall k :: k in Merged(a) ==> k in Merged(b) && Merged(b)[k] == Merged(a)[k]
  {
    forall k | k in Merged(a) ensures k in Merged(b) && Merged(b)[k] == Merged(a)[k] {
      MergedInventsNothing(a, k);
      var i :| 0 <= i < |a| && KeyOf(a[i]) == k;
      MergedOneEach(a, i);
      assert a[i] in b;
      var j :| 0 <= j < |b| && b[j] == a[i];
      MergedOneEach(b, j);
    }
  }

  /** A sorted merge stands for the joined tables of its inputs. */
  lemma SegmentsOf(sort: seq<Entry> -> seq<Entry>, x: seq<Entry>, y: seq<Entry>)
    requires IsSort(sort)
    ensures var s := sort(Normal(x + y)); OneEach(s) && Merged(s) == Join(Merged(x), Merged(y))
  {
    NormalHasOneEach(x + y);
    NormalIsNormal(x + y);
    SortKeepsContent(sort, Normal(x + y));
    MergedAppends(x, y);
  }

  lemma JoinAssociatesAt(a: map<Key, Entry>, b: map<Key, Entry>, c: map<Key, Entry>, k: Key)
    requires Keyed(a) && Keyed(b) && Keyed(c) && (k in a || k in b || k in c)
    ensures Join(Join(a, b), c)[k] == Join(a, Join(b, c))[k]
  {
    if k in a && k in b && k in c {
      CombineAssociates(a[k], b[k], c[k]);
    }
  }

  lemma JoinAssociates(a: map<Key, Entry>, b: map<Key, Entry>, c: map<Key, Entry>)
    requires Keyed(a) && Keyed(b) && Keyed(c)
    ensures Join(Join(a, b), c) == Join(a, Join(b, c))
  {
    forall k | k in a || k in b || k in c ensures Join(Join(a, b), c)[k] == Join(a, Join(b, c))[k] {
      JoinAssociatesAt(a, b, c, k);
    }
  }

  /** Segments may be merged in any grouping, and a snapshot that comes again is absorbed. */
  lemma SegmentsAssociate(sort: seq<Entry> -> seq<Entry>, a: seq<Entry>, b: seq<Entry>, c: seq<Entry>)
    requires IsSort(sort)
    ensures var left, right := sort(Normal(sort(Normal(a + b)) + c)), sort(Normal(a + sort(Normal(b + c))));
      OneEach(left) && OneEach(right) && Merged(left) == Merged(right)
  {
    SegmentsOf(sort, a, b);
    SegmentsOf(sort, b, c);
    SegmentsOf(sort, sort(Normal(a + b)), c);
    SegmentsOf(sort, a, sort(Normal(b + c)));
    JoinAssociates(Merged(a), Merged(b), Merged(c));
  }

  lemma SegmentsAbsorb(sort: seq<Entry> -> seq<Entry>, a: seq<Entry>, b: seq<Entry>)
    requires IsSort(sort)
    ensures var once, twice := sort(Normal(a + b)), sort(Normal(sort(Normal(a + b)) + b));
      OneEach(once) && OneEach(twice) && Merged(once) == Merged(twice)
  {
    SegmentsOf(sort, a, b);
    SegmentsOf(sort, sort(Normal(a + b)), b);
    JoinAbsorbs(Merged(a), Merged(b));
  }

  lemma TranslationsAssociate(a: map<string, string>, b: map<string, string>, c: map<string, string>)
    ensures MergeTranslations(MergeTranslations(a, b), c) == MergeTranslations(a, MergeTranslations(b, c))
  {
    var left, right := MergeTranslations(MergeTranslations(a, b), c), MergeTranslations(a, MergeTranslations(b, c));
    assert left.Keys == right.Keys;
    forall id | id in left ensures left[id] == right[id] {
      assert id in a || id in b || id in c;
    }
  }

  lemma TranslationsAbsorb(a: map<string, string>, b: map<string, string>)
    ensures MergeTranslations(MergeTranslations(a, b), b) == MergeTranslations(a, b)
  {
  }

  /** Bundles may be merged in any grouping. */
  lemma BundleMergeAssociates(sort: seq<Entry> -> seq<Entry>, a: Bundle, b: Bundle, c: Bundle)
    requires IsSort(sort)
    ensures SameContent(MergeBundles(sort, MergeBundles(sort, a, b), c),
                        MergeBundles(sort, a, MergeBundles(sort, b, c)))
  {
    SegmentsAssociate(sort, a.segments, b.segments, c.segments);
    MergeAssociates(a.summaries, b.summaries, c.summaries);
    TranslationsAssociate(a.translations, b.translations, c.translations);
  }

  /** A snapshot that was merged in is absorbed when it comes again. */
  lemma BundleMergeAbsorbs(sort: seq<Entry> -> seq<Entry>, a: Bundle, b: Bundle)
    requires IsSort(sort)
    ensures SameContent(MergeBundles(sort, MergeBundles(sort, a, b), b), MergeBundles(sort, a, b))
  {
    SegmentsAbsorb(sort, a.segments, b.segments);
    MergeAbsorbs(a.summaries, b.summaries);
    TranslationsAbsorb(a.translations, b.translations);
  }

  /** One entry for each id of either list and none else, and each entry of either kept in its. */
  ghost predicate HoldsAll(merged: seq<Entry>, x: seq<Entry>, y: seq<Entry>) {
    && OneEach(merged)
    && (forall e :: e in x + y ==> KeyOf(e) in Merged(merged) && Keeps(e, Merged(merged)[KeyOf(e)]))
    && (forall k :: k in Merged(merged) ==> exists e :: e in x + y && KeyOf(e) == k)
  }

  lemma MergedHoldsAll(merged: seq<Entry>, x: seq<Entry>, y: seq<Entry>)
    requires OneEach(merged) && Merged(merged) == Merged(x + y)
    ensures HoldsAll(merged, x, y)
  {
    var all := x + y;
    forall e | e in all ensures KeyOf(e) in Merged(all) && Keeps(e, Merged(all)[KeyOf(e)]) {
      var i :| 0 <= i < |all| && all[i] == e;
      MergedKeeps(all, i);
    }
    forall k | k in Merged(all) ensures exists e :: e in all && KeyOf(e) == k {
      MergedInventsNothing(all, k);
      var i :| 0 <= i < |all| && KeyOf(all[i]) == k;
      assert all[i] in all;
    }
  }

  /** Every segment and every summary of either side is in the merged bundle exactly once, no string of it
    * is lost or shortened, nothing else is there, and no translation is replaced by an empty one. */
  lemma NothingIsLost(sort: seq<Entry> -> seq<Entry>, a: Bundle, b: Bundle)
    requires IsSort(sort)
    ensures HoldsAll(MergeBundles(sort, a, b).segments, a.segments, b.segments)
    ensures HoldsAll(MergeBundles(sort, a, b).summaries, a.summaries, b.summaries)
    ensures MergeBundles(sort, a, b).translations.Keys == a.translations.Keys + b.translations.Keys
    ensures var m := MergeBundles(sort, a, b).translations; forall id :: id in m && m[id] == "" ==>
      (id in a.translations ==> a.translations[id] == "") && (id in b.translations ==> b.translations[id] == "")
  {
    SegmentsOf(sort, a.segments, b.segments);
    MergedAppends(a.segments, b.segments);
    MergedHoldsAll(sort(Normal(a.segments + b.segments)), a.segments, b.segments);
    NormalHasOneEach(a.summaries + b.summaries);
    NormalIsNormal(a.summaries + b.summaries);
    MergedHoldsAll(Normal(a.summaries + b.summaries), a.summaries, b.summaries);
  }

  // ------------------------------------------------------ which of them is kept

  predicate Has(e: Entry, k: Key, which: Which) {
    KeyOf(e) == k && e.Record? && Get(e, which).Text?
  }

  /** The i-th entry has the last of the longest strings given for the field. */
  ghost predicate LastLongest(list: seq<Entry>, k: Key, which: Which, i: nat) {
    && i < |list| && Has(list[i], k, which)
    && (forall j :: 0 <= j < i && Has(list[j], k, which) ==>
          |Get(list[j], which).text| <= |Get(list[i], which).text|)
    && (forall j :: i < j < |list| && Has(list[j], k, which) ==>
          |Get(list[j], which).text| < |Get(list[i], which).text|)
  }

  lemma LongestSoFar(list: seq<Entry>, k: Key, which: Which, i: nat)
    requires list != [] && LastLongest(list[..|list| - 1], k, which, i)
    ensures var n := |list| - 1;
      LastLongest(list, k, which,
                  if Has(list[n], k, which) && |Get(list[n], which).text| >= |Get(list[i], which).text| then n else i)
  {
    var init := list[..|list| - 1];
    assert forall j :: 0 <= j < |init| ==> init[j] == list[j];
  }

  lemma FirstString(list: seq<Entry>, k: Key, which: Which)
    requires list != [] && Has(list[|list| - 1], k, which)
    requires forall j :: 0 <= j < |list| - 1 ==> !Has(list[j], k, which)
    ensures LastLongest(list, k, which, |list| - 1)
    ensures k in Merged(list) && Merged(list)[k].Record?
    ensures Get(Merged(list)[k], which) == Get(list[|list| - 1], which)
  {
    var init := list[..|list| - 1];
    if k in Merged(init) {
      assert forall j :: 0 <= j < |init| ==> init[j] == list[j];
      FieldsAreSomeEntrys(init, k, which);
    }
  }

  lemma LongerStringWins(list: seq<Entry>, k: Key, which: Which)
    requires list != [] && var init := list[..|list| - 1];
      k in Merged(init) && Merged(init)[k].Record? && Get(Merged(init)[k], which).Text?
    ensures var before, last := Get(Merged(list[..|list| - 1])[k], which), list[|list| - 1];
      && k in Merged(list) && Merged(list)[k].Record?
      && Get(Merged(list)[k], which)
         == (if Has(last, k, which) && |Get(last, which).text| >= |before.text| then Get(last, which) else before)
  {
    assert KeyOf(Merged(list[..|list| - 1])[k]) == k;
  }

  /** A string field of a merged record is the last of the longest strings any of its entries has for it. */
  lemma {:induction false} LongestIsKept(list: seq<Entry>, k: Key, which: Which) returns (i: nat)
    requires exists j :: 0 <= j < |list| && Has(list[j], k, which)
    ensures LastLongest(list, k, which, i)
    ensures k in Merged(list) && Merged(list)[k].Record? && Get(Merged(list)[k], which) == Get(list[i], which)
  {
    var n := |list| - 1;
    var init := list[..n];
    assert forall j :: 0 <= j < n ==> init[j] == list[j];
    if exists j :: 0 <= j < n && Has(list[j], k, which) {
      var j :| 0 <= j < n && Has(list[j], k, which);
      assert Has(init[j], k, which);
      i := LongestIsKept(init, k, which);
      LongestSoFar(list, k, which, i);
      LongerStringWins(list, k, which);
      if Has(list[n], k, which) && |Get(list[n], which).text| >= |Get(list[i], which).text| {
        i := n;
      }
    } else {
      FirstString(list, k, which);
      i := n;
    }
  }

  predicate Gives(e: Entry, k: Key, which: Which) {
    KeyOf(e) == k && e.Record? && !Get(e, which).Absent?
  }

  /** Where no entry gives a string for a field, the last value given is kept, and absence replaces none. */
  lemma {:induction false} LastValueIsKept(list: seq<Entry>, k: Key, which: Which) returns (i: nat)
    requires exists j :: 0 <= j < |list| && Gives(list[j], k, which)
    requires forall j :: 0 <= j < |list| ==> !Has(list[j], k, which)
    ensures i < |list| && Gives(list[i], k, which) && forall j :: i < j < |list| ==> !Gives(list[j], k, which)
    ensures k in Merged(list) && Merged(list)[k].Record? && Get(Merged(list)[k], which) == Get(list[i], which)
  {
    var n := |list| - 1;
    var init := list[..n];
    assert forall j :: 0 <= j < n ==> init[j] == list[j];
    if Gives(list[n], k, which) {
      i := n;
      if k in Merged(init) {
        NoTextYet(init, k, which);
      }
    } else {
      var j :| 0 <= j < |list| && Gives(list[j], k, which);
      assert Gives(init[j], k, which);
      i := LastValueIsKept(init, k, which);
    }
  }

  lemma NoTextYet(list: seq<Entry>, k: Key, which: Which)
    requires k in Merged(list) && k.ById? && forall j :: 0 <= j < |list| ==> !Has(list[j], k, which)
    ensures Merged(list)[k].Record? && !Get(Merged(list)[k], which).Text?
  {
    FieldsAreSomeEntrys(list, k, which);
  }

  predicate Names(e: Entry, k: Key, name: string) {
    KeyOf(e) == k && e.Record? && name in e.rest
  }

  /** Any other field of a merged record has the value of the last of its entries that has it. */
  lemma {:induction false} NewestFieldIsKept(list: seq<Entry>, k: Key, name: string) returns (i: nat)
    requires exists j :: 0 <= j < |list| && Names(list[j], k, name)
    ensures i < |list| && Names(list[i], k, name) && forall j :: i < j < |list| ==> !Names(list[j], k, name)
    ensures k in Merged(list) && Names(Merged(list)[k], k, name) && Merged(list)[k].rest[name] == list[i].rest[name]
  {
    var n := |list| - 1;
    var init := list[..n];
    if Names(list[n], k, name) {
      i := n;
    } else {
      var j :| 0 <= j < |list| && Names(list[j], k, name);
      assert init[j] == list[j];
      i := NewestFieldIsKept(init, k, name);
      assert init[i] == list[i];
      assert forall m :: i < m < n ==> list[m] == init[m];
    }
  }

  /** A newer translation replaces an older one unless it is empty; what is not given anew stays. */
  lemma NewerTranslationWins(sort: seq<Entry> -> seq<Entry>, a: Bundle, b: Bundle, id: string)
    ensures var m := MergeBundles(sort, a, b).translations;
      && (id in b.translations && b.translations[id] != "" ==> id in m && m[id] == b.translations[id])
      && (id in a.translations && (id !in b.translations || b.translations[id] == "") ==>
            id in m && m[id] == a.translations[id])
  {
  }
}
