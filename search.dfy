/** First-match linear scans, the shape of every slot search in the game loop. */
module Search {
  import opened Wrappers

  /** The lowest index at or after `from` where `m` holds, if any. */
  function FirstTrue(m: seq<bool>, from: nat): (r: Option<nat>)
    ensures r.Some? ==> from <= r.value < |m| && m[r.value]
    decreases |m| - from
  {
    if from >= |m| then None
    else if m[from] then Some(from)
    else FirstTrue(m, from + 1)
  }

  lemma {:induction false} FirstTrueIsLowest(m: seq<bool>, from: nat)
    requires from <= |m|
    ensures FirstTrue(m, from).None? <==> forall k :: from <= k < |m| ==> !m[k]
    ensures FirstTrue(m, from).Some? ==> forall k :: from <= k < FirstTrue(m, from).value ==> !m[k]
    decreases |m| - from
  {
    if from < |m| && !m[from] {
      FirstTrueIsLowest(m, from + 1);
    }
  }
}
