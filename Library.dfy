/**
 * The inspiration-library merge of src/services/workflow.service.ts: a fresh
 * batch of generated categories replaces every earlier generated category
 * (those whose id starts with "ai-gen") and goes in front of the rest.
 */
module Library {
  import opened JsText
  import opened WorkflowTypes

  predicate IsAiGenerated(c: InspirationCategory) {
    IsPrefix("ai-gen", c.id)
  }

  /** `current.filter(c => !c.id.startsWith('ai-gen'))`. */
  function NonAi(cs: seq<InspirationCategory>): (r: seq<InspirationCategory>)
    ensures |r| <= |cs|
    ensures forall c :: c in r <==> c in cs && !IsAiGenerated(c)
  {
    if cs == [] then []
    else if IsAiGenerated(cs[0]) then NonAi(cs[1..])
    else [cs[0]] + NonAi(cs[1..])
  }

  /** The filter works piece by piece, so it keeps the library's order. */
  lemma {:induction false} NonAiAppend(a: seq<InspirationCategory>, b: seq<InspirationCategory>)
    ensures NonAi(a + b) == NonAi(a) + NonAi(b)
    decreases |a|
  {
    if a == [] {
      assert a + b == b;
    } else {
      assert (a + b)[1..] == a[1..] + b;
      NonAiAppend(a[1..], b);
    }
  }

  /** Filtering twice is filtering once. */
  lemma {:induction false} NonAiIdempotent(cs: seq<InspirationCategory>)
    ensures NonAi(NonAi(cs)) == NonAi(cs)
    decreases |cs|
  {
    if cs != [] {
      NonAiIdempotent(cs[1..]);
      if !IsAiGenerated(cs[0]) {
        assert ([cs[0]] + NonAi(cs[1..]))[1..] == NonAi(cs[1..]);
      }
    }
  }

  /** A batch made only of generated categories is filtered away entirely. */
  lemma {:induction false} NonAiOfGenerated(cs: seq<InspirationCategory>)
    requires forall i :: 0 <= i < |cs| ==> IsAiGenerated(cs[i])
    ensures NonAi(cs) == []
    decreases |cs|
  {
    if cs != [] {
      NonAiOfGenerated(cs[1..]);
    }
  }

  /** `[...aiCategories, ...nonAiCategories]`. */
  function MergeAIBatch(batch: seq<InspirationCategory>, current: seq<InspirationCategory>): (r: seq<InspirationCategory>)
    ensures |r| == |batch| + |NonAi(current)|
    ensures r[..|batch|] == batch && r[|batch|..] == NonAi(current)
  {
    batch + NonAi(current)
  }

  /**
   * When every generated batch uses "ai-gen" ids, as the generation prompt
   * demands, a second refresh replaces the first batch completely: the
   * library is what one refresh with the second batch would give.
   */
  lemma SecondRefreshReplacesFirst(b1: seq<InspirationCategory>, b2: seq<InspirationCategory>, current: seq<InspirationCategory>)
    requires forall i :: 0 <= i < |b1| ==> IsAiGenerated(b1[i])
    ensures MergeAIBatch(b2, MergeAIBatch(b1, current)) == MergeAIBatch(b2, current)
  {
    NonAiAppend(b1, NonAi(current));
    NonAiOfGenerated(b1);
    NonAiIdempotent(current);
    assert NonAi(b1 + NonAi(current)) == NonAi(current);
  }
}
