/** `_document_chunks`: greedy packing of evidence segments under a character budget. */
module Chunking {
  datatype Segment = Segment(text: string)

  datatype Document = Document(text: string, segments: seq<Segment>)

  function Size(segment: Segment): nat { |segment.text| + 40 }

  function Weight(group: seq<Segment>): nat {
    if group == [] then 0 else Weight(group[..|group| - 1]) + Size(group[|group| - 1])
  }

  function Flatten(groups: seq<seq<Segment>>): seq<Segment> {
    if groups == [] then [] else Flatten(groups[..|groups| - 1]) + groups[|groups| - 1]
  }

  function Joined(group: seq<Segment>): string {
    if group == [] then ""
    else if |group| == 1 then group[0].text
    else Joined(group[..|group| - 1]) + "\n" + group[|group| - 1].text
  }

  /** A group fits if it respects the budget or holds a single segment. */
  predicate Fits(group: seq<Segment>, budget: nat) {
    group != [] && (Weight(group) <= budget || |group| == 1)
  }

  predicate AllFit(groups: seq<seq<Segment>>, budget: nat) {
    forall k :: 0 <= k < |groups| ==> Fits(groups[k], budget)
  }

  /** No group could have taken the first segment of its successor. */
  predicate Tight(groups: seq<seq<Segment>>, budget: nat) {
    forall k :: 0 <= k < |groups| - 1 && groups[k + 1] != [] ==>
      Weight(groups[k]) + Size(groups[k + 1][0]) > budget
  }

  /** How many segments the first `k` groups hold. */
  function Start(groups: seq<seq<Segment>>, k: nat): nat
    requires k <= |groups|
  {
    |Flatten(groups[..k])|
  }

  lemma WeightAppend(group: seq<Segment>, segment: Segment)
    ensures Weight(group + [segment]) == Weight(group) + Size(segment)
  {
    assert (group + [segment])[..|group|] == group;
  }

  lemma {:induction false} WeightConcat(a: seq<Segment>, b: seq<Segment>)
    ensures Weight(a + b) == Weight(a) + Weight(b)
  {
    if b == [] {
      assert a + b == a;
    } else {
      var init, last := b[..|b| - 1], b[|b| - 1];
      WeightConcat(a, init);
      WeightAppend(a + init, last);
      assert a + b == a + init + [last];
    }
  }

  lemma FlattenAppend(groups: seq<seq<Segment>>, group: seq<Segment>)
    ensures Flatten(groups + [group]) == Flatten(groups) + group
  {
    assert (groups + [group])[..|groups|] == groups;
  }

  /** The groups are consecutive slices of their concatenation. */
  lemma {:induction false} GroupIsSlice(groups: seq<seq<Segment>>, k: nat)
    requires k < |groups|
    ensures Start(groups, k + 1) == Start(groups, k) + |groups[k]| <= |Flatten(groups)|
    ensures groups[k] == Flatten(groups)[Start(groups, k)..Start(groups, k + 1)]
  {
    FlattenAppend(groups[..k], groups[k]);
    assert groups[..k + 1] == groups[..k] + [groups[k]];
    if k == |groups| - 1 {
      assert groups[..k + 1] == groups;
    } else {
      var init := groups[..|groups| - 1];
      GroupIsSlice(init, k);
      assert init[..k] == groups[..k] && init[..k + 1] == groups[..k + 1];
      assert Flatten(groups) == Flatten(init) + groups[|groups| - 1];
    }
  }

  lemma StartOfAll(groups: seq<seq<Segment>>)
    ensures Start(groups, |groups|) == |Flatten(groups)|
  {
    assert groups[..|groups|] == groups;
  }

  /** Greedy stays ahead: its first `k` groups hold at least as much as any other first `k` groups. */
  lemma {:induction false} StaysAhead(greedy: seq<seq<Segment>>, other: seq<seq<Segment>>, budget: nat, k: nat)
    requires AllFit(greedy, budget) && Tight(greedy, budget) && AllFit(other, budget)
    requires Flatten(greedy) == Flatten(other)
    requires k <= |greedy| && k <= |other|
    ensures Start(greedy, k) >= Start(other, k)
  {
    if k == 0 {
      assert greedy[..0] == other[..0];
    } else {
      var j := k - 1;
      StaysAhead(greedy, other, budget, j);
      GroupIsSlice(greedy, j);
      GroupIsSlice(other, j);
      if Start(greedy, k) < Start(other, k) {
        OtherOverflows(greedy, other, budget, j);
        assert false;
      }
    }
  }

  /** A slice weighs at least as much as an inner slice and the segment after it. */
  lemma SliceWeighsMore(all: seq<Segment>, from: nat, lo: nat, mid: nat, to: nat)
    requires from <= lo <= mid < to <= |all|
    ensures Weight(all[from..to]) >= Weight(all[lo..mid]) + Size(all[mid])
  {
    WeightAppend(all[lo..mid], all[mid]);
    assert all[lo..mid + 1] == all[lo..mid] + [all[mid]];
    WeightOfSlice(all, from, lo, mid + 1);
    WeightOfSlice(all, from, mid + 1, to);
  }

  lemma WeightOfSlice(all: seq<Segment>, from: nat, mid: nat, to: nat)
    requires from <= mid <= to <= |all|
    ensures Weight(all[from..to]) == Weight(all[from..mid]) + Weight(all[mid..to])
  {
    assert all[from..to] == all[from..mid] + all[mid..to];
    WeightConcat(all[from..mid], all[mid..to]);
  }

  /** Falling behind in group `j` would mean that the other group `j` breaks the budget. */
  lemma OtherOverflows(greedy: seq<seq<Segment>>, other: seq<seq<Segment>>, budget: nat, j: nat)
    requires AllFit(greedy, budget) && Tight(greedy, budget) && Flatten(greedy) == Flatten(other)
    requires j < |greedy| && j < |other|
    requires Start(greedy, j) >= Start(other, j) && Start(greedy, j + 1) < Start(other, j + 1)
    ensures !Fits(other[j], budget)
  {
    var all := Flatten(greedy);
    GroupIsSlice(greedy, j);
    GroupIsSlice(other, j);
    StartOfAll(greedy);
    GroupIsSlice(greedy, j + 1);
    assert Fits(greedy[j], budget) && Fits(greedy[j + 1], budget);
    SliceWeighsMore(all, Start(other, j), Start(greedy, j), Start(greedy, j + 1), Start(other, j + 1));
  }

  /** Tight groups are as few as possible. */
  lemma GreedyIsOptimal(greedy: seq<seq<Segment>>, other: seq<seq<Segment>>, budget: nat)
    requires AllFit(greedy, budget) && Tight(greedy, budget) && AllFit(other, budget)
    requires Flatten(greedy) == Flatten(other)
    ensures |greedy| <= |other|
  {
    if |other| < |greedy| {
      assert Fits(greedy[|other|], budget);
      StaysAhead(greedy, other, budget, |other|);
      StartOfAll(other);
      GroupIsSlice(greedy, |other|);
    }
  }

  lemma NoneIsShorter(greedy: seq<seq<Segment>>, budget: nat)
    requires AllFit(greedy, budget) && Tight(greedy, budget)
    ensures forall other :: AllFit(other, budget) && Flatten(other) == Flatten(greedy) ==> |greedy| <= |other|
  {
    forall other | AllFit(other, budget) && Flatten(other) == Flatten(greedy)
      ensures |greedy| <= |other|
    {
      GreedyIsOptimal(greedy, other, budget);
    }
  }

  function SegmentsOf(chunks: seq<Document>): (groups: seq<seq<Segment>>)
    ensures |groups| == |chunks|
    ensures forall k :: 0 <= k < |chunks| ==> groups[k] == chunks[k].segments
  {
    seq(|chunks|, k requires 0 <= k < |chunks| => chunks[k].segments)
  }

  /** The state of the packing loop: closed groups and the open one cover `done`. */
  ghost predicate Packing(groups: seq<seq<Segment>>, current: seq<Segment>, done: seq<Segment>, budget: nat) {
    && AllFit(groups, budget) && Tight(groups, budget)
    && Flatten(groups) + current == done
    && (current == [] ==> groups == [])
    && (current != [] ==> Fits(current, budget))
    && (groups != [] && current != [] ==> Weight(groups[|groups| - 1]) + Size(current[0]) > budget)
  }

  /** Closing the open group keeps everything and leaves nothing open. */
  lemma CloseGroup(groups: seq<seq<Segment>>, current: seq<Segment>, done: seq<Segment>, budget: nat)
    requires Packing(groups, current, done, budget) && current != []
    ensures AllFit(groups + [current], budget) && Tight(groups + [current], budget)
    ensures Flatten(groups + [current]) == done
  {
    FlattenAppend(groups, current);
  }

  /** One pass of the packing loop. */
  lemma Pack(groups: seq<seq<Segment>>, current: seq<Segment>, segment: Segment, done: seq<Segment>, budget: nat)
    requires Packing(groups, current, done, budget)
    ensures current != [] && Weight(current) + Size(segment) > budget ==>
              && Packing(groups + [current], [] + [segment], done + [segment], budget)
              && Weight([] + [segment]) == Size(segment)
    ensures current == [] || Weight(current) + Size(segment) <= budget ==>
              && Packing(groups, current + [segment], done + [segment], budget)
              && Weight(current + [segment]) == Weight(current) + Size(segment)
  {
    WeightAppend(current, segment);
    WeightAppend([], segment);
    if current != [] && Weight(current) + Size(segment) > budget {
      CloseGroup(groups, current, done, budget);
    } else {
      assert Flatten(groups) + (current + [segment]) == done + [segment];
    }
  }

  /** The text of a chunk holds the texts of its segments, with a line break between any two. */
  lemma {:induction false} JoinedIsConcatenated(a: seq<Segment>, b: seq<Segment>)
    requires a != [] && b != []
    ensures Joined(a + b) == Joined(a) + "\n" + Joined(b)
    ensures |b| == 1 ==> Joined(b) == b[0].text
    decreases |b|
  {
    assert (a + b)[..|a + b| - 1] == a + b[..|b| - 1];
    if |b| == 1 {
      assert a + b[..0] == a;
    } else {
      JoinedIsConcatenated(a, b[..|b| - 1]);
    }
  }

  /** The budget counts forty for each segment: the line breaks and thirty-nine more for each, and one. */
  lemma {:induction false} WeightIsTextAndOverhead(group: seq<Segment>)
    requires group != []
    ensures Weight(group) == |Joined(group)| + 39 * |group| + 1
  {
    if |group| == 1 {
      assert group[..0] == [];
    } else {
      WeightIsTextAndOverhead(group[..|group| - 1]);
    }
  }

  /** Every chunk shows the texts of its own segments. */
  ghost predicate Labelled(chunks: seq<Document>) {
    forall k :: 0 <= k < |chunks| ==> chunks[k].text == Joined(chunks[k].segments)
  }

  method Emit(chunks: seq<Document>, group: seq<Segment>) returns (more: seq<Document>)
    requires Labelled(chunks)
    ensures Labelled(more) && SegmentsOf(more) == SegmentsOf(chunks) + [group]
  {
    more := chunks + [Document(Joined(group), group)];
  }

  /** The segment branch: lossless, within budget, and no partition within budget is shorter. */
  method PackSegments(segments: seq<Segment>, budget: nat) returns (chunks: seq<Document>)
    requires segments != []
    ensures Flatten(SegmentsOf(chunks)) == segments
    ensures AllFit(SegmentsOf(chunks), budget) && Labelled(chunks)
    ensures forall other :: AllFit(other, budget) && Flatten(other) == segments ==> |chunks| <= |other|
  {
    chunks := [];
    var current: seq<Segment>, size := [], 0;
    for i := 0 to |segments|
      invariant Packing(SegmentsOf(chunks), current, segments[..i], budget)
      invariant current == [] <==> i == 0
      invariant size == Weight(current) && Labelled(chunks)
    {
      var segment := segments[i];
      assert segments[..i + 1] == segments[..i] + [segment];
      Pack(SegmentsOf(chunks), current, segment, segments[..i], budget);
      var more := Size(segment);
      if current != [] && size + more > budget {
        chunks := Emit(chunks, current);
        current, size := [], 0;
      }
      current, size := current + [segment], size + more;
    }
    assert segments[..|segments|] == segments;
    CloseGroup(SegmentsOf(chunks), current, segments, budget);
    chunks := Emit(chunks, current);
    NoneIsShorter(SegmentsOf(chunks), budget);
  }

  function TextOf(chunks: seq<Document>): string {
    if chunks == [] then "" else TextOf(chunks[..|chunks| - 1]) + chunks[|chunks| - 1].text
  }

  lemma TextAppend(chunks: seq<Document>, chunk: Document, text: string, index: nat, end: nat)
    requires index <= end <= |text| && TextOf(chunks) == text[..index] && chunk.text == text[index..end]
    ensures TextOf(chunks + [chunk]) == text[..end]
  {
    assert (chunks + [chunk])[..|chunks|] == chunks;
    assert text[..index] + text[index..end] == text[..end];
  }

  /** The branch without segments: plain slices of the text. */
  method SliceText(text: string, budget: nat) returns (chunks: seq<Document>)
    requires budget > 0
    ensures TextOf(chunks) == text
    ensures forall k :: 0 <= k < |chunks| ==>
              chunks[k].segments == [] && 0 < |chunks[k].text| <= budget
              && (k < |chunks| - 1 ==> |chunks[k].text| == budget)
  {
    chunks := [];
    var index := 0;
    while index < |text|
      invariant index <= |text| || chunks != []
      invariant TextOf(chunks) == text[..if index <= |text| then index else |text|]
      invariant forall k :: 0 <= k < |chunks| ==>
                  chunks[k].segments == [] && 0 < |chunks[k].text| <= budget
                  && (k < |chunks| - 1 || index <= |text| ==> |chunks[k].text| == budget)
    {
      var end := if index + budget <= |text| then index + budget else |text|;
      var chunk := Document(text[index..end], []);
      TextAppend(chunks, chunk, text, index, end);
      chunks := chunks + [chunk];
      index := index + budget;
    }
    assert text[..|text|] == text;
  }

  /** `_document_chunks`. */
  method DocumentChunks(document: Document, budget: nat) returns (chunks: seq<Document>)
    requires budget > 0
    ensures chunks != []
    ensures document.segments != [] ==>
              && Flatten(SegmentsOf(chunks)) == document.segments && AllFit(SegmentsOf(chunks), budget)
              && Labelled(chunks)
              && (forall other :: AllFit(other, budget) && Flatten(other) == document.segments ==>
                    |chunks| <= |other|)
    ensures document.segments == [] ==> TextOf(chunks) == document.text
    ensures document.segments == [] && document.text == "" ==> chunks == [document]
  {
    if document.segments == [] {
      chunks := SliceText(document.text, budget);
      if chunks == [] {
        chunks := [document];
        assert TextOf(chunks) == TextOf(chunks[..0]) + document.text;
      }
      return;
    }
    chunks := PackSegments(document.segments, budget);
    assert chunks == [] ==> Flatten(SegmentsOf(chunks)) == [];
  }
}
