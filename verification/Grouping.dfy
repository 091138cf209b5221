/** Grouping transcript segments into at most `maxBlocks` blocks: the partition arithmetic and what it preserves. */
module Grouping {
  import opened Wrappers
  import opened Numbers
  import opened TimedText
  import opened TranscriptXml
  import opened Partition

  datatype BlockTiming = BlockTiming(blockIndex: nat, startMs: nat, endMs: nat)

  datatype Blocks = Blocks(texts: seq<string>, timings: seq<BlockTiming>)

  // ----- the texts

  /** Texts joined by single spaces. */
  function Joined(texts: seq<string>): string {
    if texts == [] then ""
    else if |texts| == 1 then texts[0]
    else Joined(texts[..|texts| - 1]) + " " + texts[|texts| - 1]
  }

  function Texts(segments: seq<Segment>): seq<string> {
    seq(|segments|, i requires 0 <= i < |segments| => segments[i].text)
  }

  function RangeText(segments: seq<Segment>, from: nat, to: nat): string
    requires from <= to <= |segments|
  {
    Joined(Texts(segments)[from..to])
  }

  lemma {:induction false} JoinedConcat(a: seq<string>, b: seq<string>)
    requires a != [] && b != []
    ensures Joined(a + b) == Joined(a) + " " + Joined(b)
    decreases |b|
  {
    var last := b[|b| - 1];
    assert (a + b)[..|a + b| - 1] == a + b[..|b| - 1];
    if |b| == 1 {
      assert a + b[..0] == a;
    } else {
      JoinedConcat(a, b[..|b| - 1]);
    }
  }

  /** Block `g` merges exactly the segments of group `g`. */
  predicate TextMerged(segments: seq<Segment>, bounds: seq<nat>, blocks: seq<string>, g: nat) {
    && g + 1 < |bounds| && g < |blocks|
    && bounds[g] < bounds[g + 1] <= |segments|
    && blocks[g] == RangeText(segments, bounds[g], bounds[g + 1])
  }

  lemma RangeConcat(segments: seq<Segment>, a: nat, b: nat)
    requires 0 < a < b <= |segments|
    ensures RangeText(segments, 0, b) == RangeText(segments, 0, a) + " " + RangeText(segments, a, b)
  {
    var texts := Texts(segments);
    JoinedConcat(texts[0..a], texts[a..b]);
    assert texts[0..a] + texts[a..b] == texts[0..b];
  }

  /** The block texts before a bound, joined, are the segment texts before it, joined. */
  lemma {:induction false} BlocksJoin(segments: seq<Segment>, bounds: seq<nat>, blocks: seq<string>, g: nat)
    requires Splits(bounds, |segments|) && 1 <= g < |bounds| && g <= |blocks| && bounds[g] <= |segments|
    requires forall k :: 0 <= k < g ==> TextMerged(segments, bounds, blocks, k)
    ensures Joined(blocks[..g]) == RangeText(segments, 0, bounds[g])
    decreases g
  {
    assert TextMerged(segments, bounds, blocks, g - 1);
    assert blocks[..g][..g - 1] == blocks[..g - 1];
    if g > 1 {
      BlocksJoin(segments, bounds, blocks, g - 1);
      BoundsIncrease(bounds, |segments|, 0, g - 1);
      RangeConcat(segments, bounds[g - 1], bounds[g]);
    }
  }

  // ----- the grouping itself

  function TimingOfGroup(segments: seq<Segment>, g: nat, from: nat, to: nat): BlockTiming
    requires from < to <= |segments|
  {
    BlockTiming(g, segments[from].startMs, SaturatingAdd(segments[to - 1].startMs, segments[to - 1].durationMs, U64_MAX))
  }

  /** The inner loop: one group's text and span. */
  method MergeGroup(segments: seq<Segment>, g: nat, from: nat, to: nat) returns (text: string, timing: BlockTiming)
    requires from < to <= |segments|
    ensures text == RangeText(segments, from, to) && timing == TimingOfGroup(segments, g, from, to)
  {
    var texts := Texts(segments);
    text := "";
    var startMs, endMs: nat := 0, 0;
    for i := from to to
      invariant text == RangeText(segments, from, i)
      invariant i > from ==> startMs == segments[from].startMs
      invariant i > from ==> endMs == SaturatingAdd(segments[i - 1].startMs, segments[i - 1].durationMs, U64_MAX)
    {
      assert texts[from..i + 1][..i - from] == texts[from..i];
      if i > from {
        text := text + " ";
      }
      text := text + segments[i].text;
      if i == from {
        startMs := segments[i].startMs;
      }
      endMs := SaturatingAdd(segments[i].startMs, segments[i].durationMs, U64_MAX);
    }
    timing := BlockTiming(g, startMs, endMs);
  }

  predicate TimingMerged(segments: seq<Segment>, bounds: seq<nat>, timings: seq<BlockTiming>, g: nat) {
    && g + 1 < |bounds| && g < |timings|
    && bounds[g] < bounds[g + 1] <= |segments|
    && timings[g] == TimingOfGroup(segments, g, bounds[g], bounds[g + 1])
  }

  /** Every block is the merge of its group and every timing spans it. */
  predicate Grouped(segments: seq<Segment>, bounds: seq<nat>, blocks: Blocks) {
    && |blocks.texts| == |blocks.timings| == |bounds| - 1
    && (forall g :: 0 <= g < |blocks.texts| ==> TextMerged(segments, bounds, blocks.texts, g))
    && (forall g :: 0 <= g < |blocks.timings| ==> TimingMerged(segments, bounds, blocks.timings, g))
  }

  /** The outer loop over the groups of a nonempty transcript, for any bounds that split it. */
  method MergeGroups(segments: seq<Segment>, bounds: seq<nat>) returns (r: Option<Blocks>)
    requires Splits(bounds, |segments|)
    ensures r.Some? <==> |bounds| - 1 <= U32_MAX + 1
    ensures r.Some? ==> Grouped(segments, bounds, r.value)
  {
    var groups := |bounds| - 1;
    var texts: seq<string>, timings: seq<BlockTiming> := [], [];
    for g := 0 to groups
      invariant |texts| == |timings| == g <= U32_MAX + 1
      invariant forall k :: 0 <= k < g ==> TextMerged(segments, bounds, texts, k)
      invariant forall k :: 0 <= k < g ==> TimingMerged(segments, bounds, timings, k)
    {
      BoundWithin(bounds, |segments|, g);
      var text, timing := MergeGroup(segments, g, bounds[g], bounds[g + 1]);
      if g > U32_MAX {
        return None;
      }
      texts, timings := Pushed(segments, bounds, texts, timings, text, timing);
    }
    r := Some(Blocks(texts, timings));
  }

  lemma BoundWithin(bounds: seq<nat>, n: nat, g: nat)
    requires Splits(bounds, n) && g + 1 < |bounds|
    ensures bounds[g] < bounds[g + 1] <= n
  {
    if g + 1 < |bounds| - 1 { BoundsIncrease(bounds, n, g + 1, |bounds| - 1); }
  }

  /** The two pushes at the end of a round. */
  method Pushed(segments: seq<Segment>, ghost bounds: seq<nat>, texts: seq<string>, timings: seq<BlockTiming>,
                text: string, timing: BlockTiming) returns (texts': seq<string>, timings': seq<BlockTiming>)
    requires |texts| == |timings| && |texts| + 1 < |bounds|
    requires forall k :: 0 <= k < |texts| ==> TextMerged(segments, bounds, texts, k)
    requires forall k :: 0 <= k < |timings| ==> TimingMerged(segments, bounds, timings, k)
    requires TextMerged(segments, bounds, texts + [text], |texts|)
    requires TimingMerged(segments, bounds, timings + [timing], |timings|)
    ensures texts' == texts + [text] && timings' == timings + [timing]
    ensures forall k :: 0 <= k < |texts'| ==> TextMerged(segments, bounds, texts', k)
    ensures forall k :: 0 <= k < |timings'| ==> TimingMerged(segments, bounds, timings', k)
  {
    texts', timings' := texts + [text], timings + [timing];
    forall k | 0 <= k < |texts| ensures TextMerged(segments, bounds, texts', k) {
      assert TextMerged(segments, bounds, texts, k);
    }
    forall k | 0 <= k < |timings| ensures TimingMerged(segments, bounds, timings', k) {
      assert TimingMerged(segments, bounds, timings, k);
    }
  }

  /**
    `grouped_blocks`: as many blocks as the budget allows, the groups split the segments evenly,
    each block is the merge of its group, and the joined block texts are the joined segment texts.
   */
  method GroupedBlocks(segments: seq<Segment>, maxBlocks: nat) returns (r: Result<Blocks, YoutubeError>)
    ensures r.Ok? <==> Min(maxBlocks, |segments|) <= U32_MAX + 1
    ensures r.Err? ==> r.error == ResourceLimit
    ensures r.Ok? ==> |r.value.texts| == |r.value.timings| == Min(maxBlocks, |segments|)
    ensures r.Ok? && r.value.texts != [] ==>
              var bounds := Bounds(|segments|, |r.value.texts|);
              Splits(bounds, |segments|) && Even(bounds) && Grouped(segments, bounds, r.value)
    ensures r.Ok? && maxBlocks >= 1 ==> Joined(r.value.texts) == Joined(Texts(segments))
  {
    var groups := Min(maxBlocks, |segments|);
    if groups == 0 {
      return Ok(Blocks([], []));
    }
    BoundsSplit(|segments|, groups);
    var merged := MergeGroups(segments, Bounds(|segments|, groups));
    if merged.None? {
      return Err(ResourceLimit);
    }
    AllJoined(segments, Bounds(|segments|, groups), merged.value);
    r := Ok(merged.value);
  }

  lemma AllJoined(segments: seq<Segment>, bounds: seq<nat>, blocks: Blocks)
    requires Splits(bounds, |segments|) && Grouped(segments, bounds, blocks)
    ensures Joined(blocks.texts) == Joined(Texts(segments))
  {
    BlocksJoin(segments, bounds, blocks.texts, |bounds| - 1);
    assert blocks.texts[..|bounds| - 1] == blocks.texts;
    assert Texts(segments)[0..|segments|] == Texts(segments);
  }
}
