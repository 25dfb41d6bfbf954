/** The `test/prioritize` tool of src/tools/prioritize.ts: scores each item with the RICE or
    the ICE heuristic and ranks the items by decreasing score. */
module Prioritize {
  import opened Wrappers
  import opened Seqs
  import opened Sorting

  datatype Strategy = RICE | ICE

  /** The optional numbers are the item's `reach`, `effort` and `ease`. */
  datatype PrioritizationItem = PrioritizationItem(
    id: string, reach: Option<real>, impact: real, confidence: real,
    effort: Option<real>, ease: Option<real>)

  datatype ScoredItem = ScoredItem(item: PrioritizationItem, score: real)

  datatype RankedItem = RankedItem(item: PrioritizationItem, score: real, rank: nat)

  /** The smallest divisor RICE uses for the effort. */
  const MinEffort: real := 0.1

  /** RICE: reach times impact times confidence over the effort, with a missing reach or
      effort counting as 1 and an effort below 0.1 counting as 0.1.
      ICE: impact times confidence times ease, with a missing ease counting as 1. */
  function Score(strategy: Strategy, item: PrioritizationItem): (score: real)
    ensures strategy == RICE ==>
              var effort := item.effort.GetOr(1.0);
              score * (if effort < MinEffort then MinEffort else effort)
              == item.reach.GetOr(1.0) * item.impact * item.confidence
    ensures strategy == ICE ==> score == item.impact * item.confidence * item.ease.GetOr(1.0)
  {
    match strategy
    case RICE =>
      var effort := item.effort.GetOr(1.0);
      (item.reach.GetOr(1.0) * item.impact * item.confidence) / (if effort >= MinEffort then effort else MinEffort)
    case ICE => item.impact * item.confidence * item.ease.GetOr(1.0)
  }

  function ScoreOf(strategy: Strategy): PrioritizationItem -> real {
    (i: PrioritizationItem) => Score(strategy, i)
  }

  function WithScore(strategy: Strategy): PrioritizationItem -> ScoredItem {
    (i: PrioritizationItem) => ScoredItem(i, Score(strategy, i))
  }

  function ScoredKey(): ScoredItem -> real {
    (s: ScoredItem) => s.score
  }

  function RankedItemOf(): RankedItem -> PrioritizationItem {
    (r: RankedItem) => r.item
  }

  /** The scored items in their order, ranked 1, 2, ... */
  function Ranked(sorted: seq<ScoredItem>): (ranked: seq<RankedItem>)
    ensures |ranked| == |sorted|
    ensures forall k :: 0 <= k < |ranked| ==> ranked[k] == RankedItem(sorted[k].item, sorted[k].score, k + 1)
  {
    seq(|sorted|, k requires 0 <= k < |sorted| => RankedItem(sorted[k].item, sorted[k].score, k + 1))
  }

  /** The handler: the items with their scores, highest score first, ties in input order
      (the sort is stable), and ranks 1, 2, ... in that order. */
  function Prioritize(strategy: Strategy, items: seq<PrioritizationItem>): (ranked: seq<RankedItem>)
    ensures |ranked| == |items|
    ensures forall k :: 0 <= k < |ranked| ==> ranked[k].rank == k + 1
    ensures forall k :: 0 <= k < |ranked| ==> ranked[k].score == Score(strategy, ranked[k].item)
    ensures forall k, l :: 0 <= k < l < |ranked| ==> ranked[k].score >= ranked[l].score
    ensures multiset(MapSeq(ranked, RankedItemOf())) == multiset(items)
    ensures forall k :: 0 <= k < |ranked| ==> ranked[k].item == SortDesc(items, ScoreOf(strategy))[k]
  {
    var scored := MapSeq(items, WithScore(strategy));
    var sorted := SortDesc(scored, ScoredKey());
    SortDescMap(items, WithScore(strategy), ScoreOf(strategy), ScoredKey());
    var ranked := Ranked(sorted);
    assert MapSeq(ranked, RankedItemOf()) == SortDesc(items, ScoreOf(strategy));
    ranked
  }

  /** Ranking is the stable sort by descending score: there is a one-to-one map from ranks
      to input positions, and items with equal scores keep their input order. */
  lemma PrioritizeIsStable(strategy: Strategy, items: seq<PrioritizationItem>)
    ensures var ranked := Prioritize(strategy, items);
            var perm := SortOrder(items, ScoreOf(strategy));
            && |perm| == |items|
            && (forall k :: 0 <= k < |ranked| ==> perm[k] < |items| && ranked[k].item == items[perm[k]])
            && (forall k, l :: 0 <= k < l < |ranked| && ranked[k].score == ranked[l].score ==> perm[k] < perm[l])
            && (forall k, l :: 0 <= k < l < |ranked| ==> perm[k] != perm[l])
  {
    var ranked := Prioritize(strategy, items);
    var perm := SortOrder(items, ScoreOf(strategy));
    forall k, l | 0 <= k < l < |ranked| && ranked[k].score == ranked[l].score ensures perm[k] < perm[l] {
      assert ranked[k].item == items[perm[k]] && ranked[l].item == items[perm[l]];
      assert ScoreOf(strategy)(items[perm[k]]) == ScoreOf(strategy)(items[perm[l]]);
    }
  }

  /** The top-ranked item has the highest score of all the items. */
  lemma TopRankedHasHighestScore(strategy: Strategy, items: seq<PrioritizationItem>, i: nat)
    requires i < |items|
    ensures Prioritize(strategy, items)[0].rank == 1
    ensures Prioritize(strategy, items)[0].score >= Score(strategy, items[i])
  {
    var ranked := Prioritize(strategy, items);
    assert items[i] in multiset(items);
    assert items[i] in multiset(MapSeq(ranked, RankedItemOf()));
    var k :| 0 <= k < |ranked| && MapSeq(ranked, RankedItemOf())[k] == items[i];
    assert ranked[k].item == items[i];
  }

  function ExampleA(): PrioritizationItem { PrioritizationItem("a", Some(10.0), 2.0, 0.5, Some(5.0), None) }
  function ExampleB(): PrioritizationItem { PrioritizationItem("b", Some(30.0), 5.0, 0.9, Some(8.0), None) }
  function ExampleC(): PrioritizationItem { PrioritizationItem("c", Some(5.0), 3.0, 0.7, Some(2.0), None) }

  lemma ExampleScores()
    ensures Score(RICE, ExampleA()) == 2.0
    ensures Score(RICE, ExampleB()) == 16.875
    ensures Score(RICE, ExampleC()) == 5.25
  {
  }

  lemma ExampleSorted()
    ensures SortDesc([ExampleA(), ExampleB(), ExampleC()], ScoreOf(RICE)) == [ExampleB(), ExampleC(), ExampleA()]
  {
    var a, b, c, key := ExampleA(), ExampleB(), ExampleC(), ScoreOf(RICE);
    ExampleScores();
    assert [a, b, c][1..] == [b, c] && [b, c][1..] == [c] && [c][1..] == [];
    assert SortDesc([c], key) == [c];
    assert SortDesc([b, c], key) == [b, c];
    assert InsertDesc(a, [c], key) == [c, a];
    assert InsertDesc(a, [b, c], key) == [b, c, a];
  }

  /** The RICE example of tests/server.test.ts: item "b" ranks first with score 16.875,
      then "c" with 5.25, then "a" with 2. */
  lemma RiceExample()
    ensures var r := Prioritize(RICE, [ExampleA(), ExampleB(), ExampleC()]);
            && |r| == 3 && r[0].item == ExampleB() && r[1].item == ExampleC() && r[2].item == ExampleA()
            && r[0].score == 16.875 && r[1].score == 5.25 && r[2].score == 2.0
            && r[0].rank == 1 && r[1].rank == 2 && r[2].rank == 3
  {
    var r := Prioritize(RICE, [ExampleA(), ExampleB(), ExampleC()]);
    ExampleSorted();
    assert r[0].item == ExampleB() && r[1].item == ExampleC() && r[2].item == ExampleA();
    ExampleScores();
  }
}
