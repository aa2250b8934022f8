/**
 * Keyed merging of source documents and event rows: an insertion-ordered dictionary in which a later
 * item takes the place of an earlier one only when it beats it.
 */
module SourceMerge {
  import opened Trading

  /** How items are keyed, and when a newcomer replaces the item already stored under its key. */
  datatype Policy<!V(!new), !K(!new)> = Policy(key: V -> K, beats: (V, V) -> bool) {
    /** `beats` ranks the items: a strict order in which ties are interchangeable. */
    ghost predicate Ranks() {
      && (forall a :: !beats(a, a))
      && (forall a, b, c :: beats(a, b) && beats(b, c) ==> beats(a, c))
      && (forall a, b, c :: !beats(a, b) && !beats(b, c) ==> !beats(a, c))
    }
  }

  function Keys<V(!new), K(==, !new)>(policy: Policy<V, K>, items: seq<V>): (r: seq<K>)
    ensures |r| == |items| && forall i :: 0 <= i < |r| ==> r[i] == policy.key(items[i])
  {
    seq(|items|, i requires 0 <= i < |items| => policy.key(items[i]))
  }

  ghost predicate Distinct<K(!new)>(keys: seq<K>) {
    forall i, j :: 0 <= i < j < |keys| ==> keys[i] != keys[j]
  }

  /** The entry an item is stored under, or the number of entries. */
  function Find<V(!new), K(==, !new)>(policy: Policy<V, K>, entries: seq<V>, key: K): (i: nat)
    ensures i <= |entries|
    ensures i < |entries| ==> policy.key(entries[i]) == key
    ensures forall k :: 0 <= k < i ==> policy.key(entries[k]) != key
  {
    if entries == [] || policy.key(entries[0]) == key then 0
    else Find(policy, entries[1..], key) + 1
  }

  function Put<V(!new), K(==, !new)>(policy: Policy<V, K>, entries: seq<V>, item: V): seq<V> {
    var i := Find(policy, entries, policy.key(item));
    if i == |entries| then entries + [item]
    else if policy.beats(item, entries[i]) then entries[i := item]
    else entries
  }

  function Fold<V(!new), K(==, !new)>(policy: Policy<V, K>, entries: seq<V>, items: seq<V>): seq<V>
    decreases |items|
  {
    if items == [] then entries
    else Put(policy, Fold(policy, entries, items[..|items| - 1]), items[|items| - 1])
  }

  function Merge<V(!new), K(==, !new)>(policy: Policy<V, K>, items: seq<V>): seq<V> { Fold(policy, [], items) }

  lemma {:induction false} FoldAppend<V(!new), K(!new)>(policy: Policy<V, K>, entries: seq<V>, items: seq<V>, more: seq<V>)
    ensures Fold(policy, entries, items + more) == Fold(policy, Fold(policy, entries, items), more)
    decreases |more|
  {
    if more == [] {
      assert items + more == items;
    } else {
      var shorter := more[..|more| - 1];
      assert (items + more)[..|items + more| - 1] == items + shorter;
      FoldAppend(policy, entries, items, shorter);
    }
  }

  lemma {:induction false} MergeHasDistinctKeys<V(!new), K(!new)>(policy: Policy<V, K>, items: seq<V>)
    ensures Distinct(Keys(policy, Merge(policy, items)))
    decreases |items|
  {
    if items != [] { MergeHasDistinctKeys(policy, items[..|items| - 1]); }
  }

  /** Entries with distinct keys merge to themselves, whatever the policy. */
  lemma {:induction false} DistinctIsStable<V(!new), K(!new)>(policy: Policy<V, K>, entries: seq<V>)
    requires Distinct(Keys(policy, entries))
    ensures Merge(policy, entries) == entries
    decreases |entries|
  {
    if entries != [] {
      var shorter, last := entries[..|entries| - 1], entries[|entries| - 1];
      assert Keys(policy, shorter) == Keys(policy, entries)[..|shorter|];
      DistinctIsStable(policy, shorter);
      forall i | 0 <= i < |shorter|
        ensures policy.key(shorter[i]) != policy.key(last)
      {
        assert Keys(policy, entries)[i] != Keys(policy, entries)[|entries| - 1];
      }
      assert entries == shorter + [last];
    }
  }

  /** Merging is incremental: what was merged before can stand for the documents it came from. */
  lemma MergeIsIncremental<V(!new), K(!new)>(policy: Policy<V, K>, items: seq<V>, more: seq<V>)
    ensures Merge(policy, Merge(policy, items) + more) == Merge(policy, items + more)
  {
    var merged := Merge(policy, items);
    MergeHasDistinctKeys(policy, items);
    DistinctIsStable(policy, merged);
    FoldAppend(policy, [], merged, more);
    FoldAppend(policy, [], items, more);
  }

  /** `_merge_source_documents` and `_deduplicate_event_rows`: the dictionary with its insertion order. */
  method MergeItems<V(!new), K(==, !new)>(policy: Policy<V, K>, items: seq<V>) returns (merged: seq<V>)
    ensures merged == Merge(policy, items)
  {
    var order: seq<K> := [];
    var current: map<K, V> := map[];
    for n := 0 to |items|
      invariant forall k :: k in current <==> k in order
      invariant forall k :: k in current ==> policy.key(current[k]) == k
      invariant forall i, j :: 0 <= i < j < |order| ==> order[i] != order[j]
      invariant seq(|order|, i requires 0 <= i < |order| => if order[i] in current then current[order[i]] else items[0])
             == Merge(policy, items[..n])
    {
      var item := items[n];
      var key := policy.key(item);
      ghost var before := Merge(policy, items[..n]);
      assert items[..n + 1][..n] == items[..n];
      ghost var at := Find(policy, before, key);
      assert forall i :: 0 <= i < |order| ==> order[i] in current && before[i] == current[order[i]];
      assert forall i :: 0 <= i < |order| ==> policy.key(before[i]) == order[i];
      if key !in current {
        assert at == |before|;
        order := order + [key];
        current := current[key := item];
      } else if policy.beats(item, current[key]) {
        assert order[at] == key;
        current := current[key := item];
      } else {
        assert order[at] == key;
      }
    }
    assert items[..|items|] == items;
    merged := seq(|order|, i requires 0 <= i < |order| => if order[i] in current then current[order[i]] else items[0]);
  }

  /** The keys in the order they first appear. */
  function FirstSeen<K(==, !new)>(keys: seq<K>): (r: seq<K>)
    ensures forall k :: k in r <==> k in keys
  {
    if keys == [] then []
    else
      var seen := FirstSeen(keys[..|keys| - 1]);
      assert keys == keys[..|keys| - 1] + [keys[|keys| - 1]];
      if keys[|keys| - 1] in seen then seen else seen + [keys[|keys| - 1]]
  }

  /** `items[n]` is the first of the best items with its key. */
  ghost predicate Represents<V(!new), K(!new)>(policy: Policy<V, K>, items: seq<V>, n: nat) {
    && n < |items|
    && (forall k :: 0 <= k < |items| && policy.key(items[k]) == policy.key(items[n]) ==>
         && !policy.beats(items[k], items[n])
         && (k < n ==> policy.beats(items[n], items[k])))
  }

  ghost predicate IsRepresentative<V(!new), K(!new)>(policy: Policy<V, K>, items: seq<V>, entry: V) {
    exists n :: 0 <= n < |items| && items[n] == entry && Represents(policy, items, n)
  }

  lemma RepresentativeIsUnique<V(!new), K(!new)>(policy: Policy<V, K>, items: seq<V>, n: nat, m: nat)
    requires Represents(policy, items, n) && Represents(policy, items, m)
    requires policy.key(items[n]) == policy.key(items[m])
    ensures n == m
  {
  }

  /** What a merge should be, without saying how it is computed. */
  ghost predicate IsMerge<V(!new), K(!new)>(policy: Policy<V, K>, items: seq<V>, merged: seq<V>) {
    && Keys(policy, merged) == FirstSeen(Keys(policy, items))
    && forall i :: 0 <= i < |merged| ==> IsRepresentative(policy, items, merged[i])
  }

  /** Another item of the same list leaves a representative in place unless it has the same key and beats it. */
  lemma RepresentativeStays<V(!new), K(!new)>(policy: Policy<V, K>, items: seq<V>, item: V, entry: V)
    requires policy.Ranks() && IsRepresentative(policy, items, entry)
    ensures policy.key(item) != policy.key(entry) || !policy.beats(item, entry) ==>
              IsRepresentative(policy, items + [item], entry)
    ensures policy.key(item) == policy.key(entry) && policy.beats(item, entry) ==>
              IsRepresentative(policy, items + [item], item)
  {
    var n :| 0 <= n < |items| && items[n] == entry && Represents(policy, items, n);
    assert Represents(policy, items, n);
    var longer := items + [item];
    if policy.key(item) != policy.key(entry) || !policy.beats(item, entry) {
      assert Represents(policy, longer, n);
    } else {
      assert longer[|items|] == item;
      assert Represents(policy, longer, |items|);
    }
  }

  lemma NewKeyIsRepresentative<V(!new), K(!new)>(policy: Policy<V, K>, items: seq<V>, item: V)
    requires policy.Ranks() && policy.key(item) !in Keys(policy, items)
    ensures IsRepresentative(policy, items + [item], item)
  {
    var longer := items + [item];
    assert longer[|items|] == item;
    assert forall k :: 0 <= k < |items| ==> Keys(policy, items)[k] == policy.key(longer[k]);
    assert Represents(policy, longer, |items|);
  }

  /** The one-pass merge meets that description: each key once, in first-seen order, by its first best item. */
  lemma {:induction false} MergeIsMerge<V(!new), K(!new)>(policy: Policy<V, K>, items: seq<V>)
    requires policy.Ranks()
    ensures IsMerge(policy, items, Merge(policy, items))
    decreases |items|
  {
    if items != [] {
      var shorter, item := items[..|items| - 1], items[|items| - 1];
      assert items == shorter + [item];
      MergeIsMerge(policy, shorter);
      var before, keys := Merge(policy, shorter), Keys(policy, shorter);
      var at, after := Find(policy, before, policy.key(item)), Merge(policy, items);
      assert Keys(policy, items)[..|keys|] == keys;
      assert at == |before| || Keys(policy, before)[at] == policy.key(item);
      assert Keys(policy, after) == FirstSeen(Keys(policy, items));
      forall i | 0 <= i < |after|
        ensures IsRepresentative(policy, items, after[i])
      {
        if i < |before| {
          RepresentativeStays(policy, shorter, item, before[i]);
          MergeHasDistinctKeys(policy, shorter);
          if i != at && at < |before| {
            assert Keys(policy, before)[i] != Keys(policy, before)[at];
          }
        } else {
          NewKeyIsRepresentative(policy, shorter, item);
        }
      }
    }
  }

  /** The description fixes the list, so it can replace the algorithm. */
  lemma MergeIffDescribed<V(!new), K(!new)>(policy: Policy<V, K>, items: seq<V>, merged: seq<V>)
    requires policy.Ranks()
    ensures merged == Merge(policy, items) <==> IsMerge(policy, items, merged)
  {
    MergeIsMerge(policy, items);
    if IsMerge(policy, items, merged) {
      var expected := Merge(policy, items);
      assert |merged| == |Keys(policy, merged)| == |Keys(policy, expected)| == |expected|;
      forall i | 0 <= i < |merged|
        ensures merged[i] == expected[i]
      {
        assert Keys(policy, merged)[i] == Keys(policy, expected)[i];
        assert IsRepresentative(policy, items, merged[i]) && IsRepresentative(policy, items, expected[i]);
        var n :| 0 <= n < |items| && items[n] == merged[i] && Represents(policy, items, n);
        var m :| 0 <= m < |items| && items[m] == expected[i] && Represents(policy, items, m);
        RepresentativeIsUnique(policy, items, n, m);
      }
    }
  }

  /** Where a key is first seen is where it sits, relative to every other key. */
  lemma {:induction false} FirstSeenIsOrdered<K(!new)>(keys: seq<K>, i: nat, j: nat) returns (at: nat)
    requires i < j < |FirstSeen(keys)|
    ensures at < |keys| && keys[at] == FirstSeen(keys)[i] && FirstSeen(keys)[j] !in keys[..at + 1]
    decreases |keys|
  {
    var shorter, last := keys[..|keys| - 1], keys[|keys| - 1];
    var seen := FirstSeen(shorter);
    if j < |seen| {
      at := FirstSeenIsOrdered(shorter, i, j);
      assert keys[..at + 1] == shorter[..at + 1];
    } else {
      assert seen[i] in shorter;
      at :| 0 <= at < |shorter| && shorter[at] == seen[i];
      assert forall k :: k in keys[..at + 1] ==> k in shorter;
    }
  }

  // Source documents

  datatype Source = Shanghai | Shenzhen | Cninfo | Other(name: string)

  datatype Document = Document(id: string, source: Source, date: int, title: string)

  function Priority(source: Source): nat {
    match source
    case Shanghai | Shenzhen => 3
    case Cninfo => 2
    case Other(_) => 1
  }

  /** One document per date and normalized title; a better source replaces the document in place. */
  function BySource(normalize: string -> string): Policy<Document, (int, string)> {
    Policy((d: Document) => (d.date, normalize(d.title)),
           (d: Document, e: Document) => Priority(d.source) > Priority(e.source))
  }

  /** One document per source and id; the latest download wins. */
  function ById(): Policy<Document, (Source, string)> {
    Policy((d: Document) => (d.source, d.id), (d: Document, e: Document) => true)
  }

  /** A document of a stock exchange takes the place of any other, and one of Cninfo that of a third party's. */
  lemma BetterSourceWins(normalize: string -> string, d: Document, e: Document)
    ensures BySource(normalize).beats(d, e) <==>
              || (d.source in {Shanghai, Shenzhen} && e.source !in {Shanghai, Shenzhen})
              || (d.source == Cninfo && e.source.Other?)
  {
  }

  /** Of the downloads with one source and id, the last is kept. */
  lemma {:induction false} LatestDownloadWins(items: seq<Document>, i: nat)
    requires i < |items|
    requires forall j :: i < j < |items| ==> items[j].source != items[i].source || items[j].id != items[i].id
    ensures items[i] in Merge(ById(), items)
    decreases |items|
  {
    var shorter, last := items[..|items| - 1], items[|items| - 1];
    var before := Merge(ById(), shorter);
    var at := Find(ById(), before, ById().key(last));
    if i < |shorter| {
      LatestDownloadWins(shorter, i);
      var k :| 0 <= k < |before| && before[k] == items[i];
      assert ById().key(before[k]) != ById().key(last);
      assert k != at && Merge(ById(), items)[k] == items[i];
    } else {
      assert Merge(ById(), items)[at] == last;
    }
  }

  lemma SourcesRank(normalize: string -> string)
    ensures BySource(normalize).Ranks()
  {
  }

  /** When equal ids carry equal documents, removing repeated downloads does not change the merge. */
  lemma {:induction false} RepeatsDoNotMatter<V(!new), K(!new), L(!new)>(byId: Policy<V, L>, policy: Policy<V, K>, items: seq<V>)
    requires policy.Ranks()
    requires forall i, j :: 0 <= i < |items| && 0 <= j < |items| && byId.key(items[i]) == byId.key(items[j]) ==>
               items[i] == items[j]
    ensures forall item :: item in Merge(byId, items) <==> item in items
    ensures Merge(policy, Merge(byId, items)) == Merge(policy, items)
    decreases |items|
  {
    if items != [] {
      var shorter, item := items[..|items| - 1], items[|items| - 1];
      assert items == shorter + [item];
      RepeatsDoNotMatter(byId, policy, shorter);
      var unique, merged := Merge(byId, shorter), Merge(policy, shorter);
      var at := Find(byId, unique, byId.key(item));
      if at < |unique| {
        assert unique[at] in items && unique[at] == item;
        assert unique[at := item] == unique;
        MergeIsMerge(policy, shorter);
        KnownItemChangesNothing(policy, shorter, item);
      } else {
        assert Merge(byId, items) == unique + [item];
        assert (unique + [item])[..|unique|] == unique;
      }
    }
  }

  lemma KnownItemChangesNothing<V(!new), K(!new)>(policy: Policy<V, K>, items: seq<V>, item: V)
    requires policy.Ranks() && item in items
    ensures Put(policy, Merge(policy, items), item) == Merge(policy, items)
  {
    MergeIsMerge(policy, items);
    var merged := Merge(policy, items);
    var k :| 0 <= k < |items| && items[k] == item;
    assert Keys(policy, items)[k] in Keys(policy, merged);
    var at := Find(policy, merged, policy.key(item));
    assert IsRepresentative(policy, items, merged[at]);
    var n :| 0 <= n < |items| && items[n] == merged[at] && Represents(policy, items, n);
    assert Represents(policy, items, n);
    assert !policy.beats(items[k], items[n]);
  }

  /** The fetch step followed by the second merge with the documents that failed earlier. */
  method FetchAndRetry(catalog: seq<Document>, failed: seq<Document>, normalize: string -> string)
    returns (documents: seq<Document>)
    ensures documents == Merge(BySource(normalize), Merge(ById(), catalog) + failed)
    ensures IsMerge(BySource(normalize), Merge(ById(), catalog) + failed, documents)
  {
    var unique := MergeItems(ById(), catalog);
    var fetched := MergeItems(BySource(normalize), unique);
    documents := MergeItems(BySource(normalize), fetched + failed);
    MergeIsIncremental(BySource(normalize), unique, failed);
    SourcesRank(normalize);
    MergeIffDescribed(BySource(normalize), unique + failed, documents);
  }

  // Event rows

  datatype EventRow = EventRow(kind: string, text: string, change: string, value: real, published: int) {
    /** The key of the final order is greater. */
    predicate Above(other: EventRow) {
      value > other.value || (value == other.value && published > other.published)
    }

    predicate Tied(v: real, at: int) { value == v && published == at }
  }

  function ChangeRank(change: string): nat {
    if change == "conflict" then 6
    else if change == "escalation" then 5
    else if change == "reversal" then 4
    else if change == "new" then 3
    else if change == "update" then 2
    else if change == "repeat" then 1
    else 0
  }

  /** One row per event type and text; rows compare by kind of change, then by value. */
  function ByChange(): Policy<EventRow, (string, string)> {
    Policy((e: EventRow) => (e.kind, e.text),
           (e: EventRow, f: EventRow) => ChangeRank(e.change) > ChangeRank(f.change)
             || (ChangeRank(e.change) == ChangeRank(f.change) && e.value > f.value))
  }

  const CHANGES := ["repeat", "update", "new", "reversal", "escalation", "conflict"]

  /** The kinds of change from the least to the most important; an unknown kind is below all of them. */
  lemma GraverChangeWins(e: EventRow, f: EventRow, i: nat, k: nat)
    requires i < |CHANGES| && k < |CHANGES|
    ensures e.change == CHANGES[i] && f.change == CHANGES[k] && i > k ==> ByChange().beats(e, f)
    ensures e.change == CHANGES[i] && f.change !in CHANGES ==> ByChange().beats(e, f)
    ensures e.change == f.change ==> (ByChange().beats(e, f) <==> e.value > f.value)
    ensures e.change !in CHANGES && f.change !in CHANGES ==> (ByChange().beats(e, f) <==> e.value > f.value)
  {
    KnownChange(e.change);
    KnownChange(f.change);
  }

  lemma KnownChange(change: string)
    ensures change !in CHANGES <==> ChangeRank(change) == 0
    ensures forall i :: 0 <= i < |CHANGES| && change == CHANGES[i] ==> ChangeRank(change) == i + 1
  {
    assert CHANGES[0] == "repeat" && CHANGES[1] == "update" && CHANGES[2] == "new";
    assert CHANGES[3] == "reversal" && CHANGES[4] == "escalation" && CHANGES[5] == "conflict";
  }

  lemma ChangesRank()
    ensures ByChange().Ranks()
  {
  }

  function Place(row: EventRow, ranked: seq<EventRow>): seq<EventRow> {
    if ranked == [] || !ranked[0].Above(row) then [row] + ranked else [ranked[0]] + Place(row, ranked[1..])
  }

  /** Descending by value and date; tied rows keep their order. */
  function Rank(rows: seq<EventRow>): seq<EventRow> {
    if rows == [] then [] else Place(rows[0], Rank(rows[1..]))
  }

  /** `_deduplicate_event_rows`. */
  function Deduplicate(rows: seq<EventRow>): seq<EventRow> { Rank(Merge(ByChange(), rows)) }

  function AllTied(rows: seq<EventRow>, value: real, published: int): seq<EventRow> {
    if rows == [] then []
    else if rows[0].Tied(value, published) then [rows[0]] + AllTied(rows[1..], value, published)
    else AllTied(rows[1..], value, published)
  }

  lemma {:induction false} SomeTied(rows: seq<EventRow>, value: real, published: int)
    ensures AllTied(rows, value, published) != [] <==> exists k :: 0 <= k < |rows| && rows[k].Tied(value, published)
  {
    if rows != [] {
      SomeTied(rows[1..], value, published);
      if k :| 0 <= k < |rows| && rows[k].Tied(value, published) {
        if k > 0 { assert rows[1..][k - 1].Tied(value, published); }
      }
      if AllTied(rows[1..], value, published) != [] {
        var k :| 0 <= k < |rows[1..]| && rows[1..][k].Tied(value, published);
        assert rows[k + 1].Tied(value, published);
      }
    }
  }

  ghost predicate Descending(rows: seq<EventRow>) {
    forall i, k :: 0 <= i < k < |rows| ==>
      rows[k].value < rows[i].value || (rows[k].value == rows[i].value && rows[k].published <= rows[i].published)
  }

  /** The same rows in descending order, tied rows in the order they had. */
  ghost predicate IsRanking(rows: seq<EventRow>, ranked: seq<EventRow>) {
    Descending(ranked) && SameTies(ranked, rows)
  }

  ghost predicate SameTies(one: seq<EventRow>, two: seq<EventRow>) {
    forall value, published :: AllTied(one, value, published) == AllTied(two, value, published)
  }

  lemma {:induction false} PlaceKeepsOrder(row: EventRow, ranked: seq<EventRow>)
    requires Descending(ranked)
    ensures Descending(Place(row, ranked))
    ensures forall e :: e in Place(row, ranked) ==> e == row || e in ranked
  {
    if ranked != [] && ranked[0].Above(row) {
      PlaceKeepsOrder(row, ranked[1..]);
      var rest := Place(row, ranked[1..]);
      assert Place(row, ranked)[1..] == rest;
      forall k | 0 <= k < |rest|
        ensures !rest[k].Above(ranked[0])
      {
        assert rest[k] in rest;
      }
    } else {
      assert Place(row, ranked)[1..] == ranked;
    }
  }

  lemma TiedAfter(row: EventRow, rows: seq<EventRow>, value: real, published: int)
    ensures AllTied([row] + rows, value, published) ==
            if row.Tied(value, published) then [row] + AllTied(rows, value, published) else AllTied(rows, value, published)
  {
    assert ([row] + rows)[1..] == rows;
  }

  lemma {:induction false} PlaceKeepsTies(row: EventRow, ranked: seq<EventRow>, value: real, published: int)
    ensures AllTied(Place(row, ranked), value, published) == AllTied([row] + ranked, value, published)
  {
    if ranked != [] && ranked[0].Above(row) {
      var first, rest := ranked[0], ranked[1..];
      PlaceKeepsTies(row, rest, value, published);
      assert ranked == [first] + rest;
      TiedAfter(row, ranked, value, published);
      TiedAfter(first, rest, value, published);
      TiedAfter(first, Place(row, rest), value, published);
      TiedAfter(row, rest, value, published);
      assert !(row.Tied(value, published) && first.Tied(value, published));
    }
  }

  lemma {:induction false} RankIsRanking(rows: seq<EventRow>)
    ensures IsRanking(rows, Rank(rows))
  {
    if rows != [] {
      RankIsRanking(rows[1..]);
      PlaceKeepsOrder(rows[0], Rank(rows[1..]));
      forall value, published
        ensures AllTied(Rank(rows), value, published) == AllTied(rows, value, published)
      {
        PlaceKeepsTies(rows[0], Rank(rows[1..]), value, published);
        TiedAfter(rows[0], Rank(rows[1..]), value, published);
      }
    }
  }

  lemma TailTies(rows: seq<EventRow>, value: real, published: int)
    requires rows != []
    ensures AllTied(rows[1..], value, published) ==
            if rows[0].Tied(value, published) then AllTied(rows, value, published)[1..] else AllTied(rows, value, published)
  {
  }

  /** The head of `one` is tied to some row of `two`, so the head of `two` is not below it. */
  lemma HeadIsNotBelow(one: seq<EventRow>, two: seq<EventRow>)
    requires one != [] && Descending(two) && SameTies(one, two)
    ensures two != [] && !one[0].Above(two[0])
  {
    var a := one[0];
    SomeTied(one, a.value, a.published);
    SomeTied(two, a.value, a.published);
    assert one[0].Tied(a.value, a.published) && AllTied(two, a.value, a.published) == AllTied(one, a.value, a.published);
    var k :| 0 <= k < |two| && two[k].Tied(a.value, a.published);
    assert k > 0 ==> !two[k].Above(two[0]);
  }

  /** Order and ties leave no choice. */
  lemma {:induction false} RankingIsUnique(one: seq<EventRow>, two: seq<EventRow>)
    requires Descending(one) && Descending(two) && SameTies(one, two)
    ensures one == two
  {
    if one != [] { HeadIsNotBelow(one, two); }
    if two != [] { HeadIsNotBelow(two, one); }
    if one != [] {
      var a := one[0];
      assert two[0].Tied(a.value, a.published);
      assert AllTied(one, a.value, a.published) == AllTied(two, a.value, a.published);
      assert AllTied(one, a.value, a.published)[0] == a && AllTied(two, a.value, a.published)[0] == two[0];
      forall value, published
        ensures AllTied(one[1..], value, published) == AllTied(two[1..], value, published)
      {
        TailTies(one, value, published);
        TailTies(two, value, published);
        assert AllTied(one, value, published) == AllTied(two, value, published);
      }
      RankingIsUnique(one[1..], two[1..]);
      assert one == [one[0]] + one[1..] && two == [two[0]] + two[1..];
    }
  }

  /**
   * The result is the ranking of the merge and nothing else: of each event the first best row, in descending order of
   * value and date, and tied rows in the order in which their events were first seen.
   */
  lemma DeduplicateIffDescribed(rows: seq<EventRow>, result: seq<EventRow>)
    ensures result == Deduplicate(rows) <==>
            exists merged :: IsMerge(ByChange(), rows, merged) && IsRanking(merged, result)
  {
    ChangesRank();
    var merged := Merge(ByChange(), rows);
    MergeIsMerge(ByChange(), rows);
    RankIsRanking(merged);
    if other :| IsMerge(ByChange(), rows, other) && IsRanking(other, result) {
      MergeIffDescribed(ByChange(), rows, other);
      RankingIsUnique(result, Rank(merged));
    }
  }
}
