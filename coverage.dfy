/** Topic coverage (`check_coverage`, scorer.py:61-72). The embedding model
    and `cos_sim` are not modelled: their output, one row of similarities per
    topic with one entry per sentence, is an input. */
module Coverage {

  /** `row.max()` of a non-empty row of similarities. */
  function RowMax(row: seq<real>): (m: real)
    requires |row| > 0
    ensures forall j :: 0 <= j < |row| ==> row[j] <= m
    ensures exists j :: 0 <= j < |row| && row[j] == m
  {
    if |row| == 1 then row[0]
    else
      var rest := RowMax(row[1..]);
      assert forall j :: 1 <= j < |row| ==> row[j] == row[1..][j - 1];
      if row[0] >= rest then row[0] else rest
  }

  /** A topic counts as found when its best sentence similarity is strictly
      above the threshold, that is, when some sentence is. */
  predicate TopicFound(row: seq<real>, threshold: real)
    requires |row| > 0
    ensures TopicFound(row, threshold) <==> exists j :: 0 <= j < |row| && row[j] > threshold
  {
    RowMax(row) > threshold
  }

  /** The shape `cos_sim` produces: a non-empty row for every topic. */
  ghost predicate WellShaped(sims: seq<seq<real>>)
  {
    forall i :: 0 <= i < |sims| ==> |sims[i]| > 0
  }

  /** Positions of the found topics, in increasing order: exactly the rows
      whose maximum is above the threshold. */
  function CoveredIndices(sims: seq<seq<real>>, threshold: real): (idx: seq<nat>)
    requires WellShaped(sims)
    ensures |idx| <= |sims|
    ensures forall k :: 0 <= k < |idx| ==> idx[k] < |sims|
    ensures forall k, l :: 0 <= k < l < |idx| ==> idx[k] < idx[l]
    ensures forall i :: 0 <= i < |sims| ==> (i in idx <==> TopicFound(sims[i], threshold))
    decreases |sims|
  {
    if sims == [] then []
    else
      var n := |sims| - 1;
      assert forall i :: 0 <= i < n ==> sims[..n][i] == sims[i];
      CoveredIndices(sims[..n], threshold) + (if TopicFound(sims[n], threshold) then [n] else [])
  }

  /** The set of found topic positions, independent of any order. */
  ghost function CoveredSet(sims: seq<seq<real>>, threshold: real): set<nat>
    requires WellShaped(sims)
  {
    set i: nat | i < |sims| && TopicFound(sims[i], threshold)
  }

  /** The found list `found_list`: the labels at the covered positions. */
  function FoundTopics(topics: seq<string>, sims: seq<seq<real>>, threshold: real): (found: seq<string>)
    requires |sims| == |topics| && WellShaped(sims)
    ensures |found| == |CoveredSet(sims, threshold)|
  {
    CoveredCount(sims, threshold);
    var idx := CoveredIndices(sims, threshold);
    seq(|idx|, k requires 0 <= k < |idx| => topics[idx[k]])
  }

  /** a is b with some elements dropped, the rest kept in order, via positions idx. */
  ghost predicate SubsequenceAt<T>(a: seq<T>, b: seq<T>, idx: seq<nat>)
  {
    && |idx| == |a|
    && (forall k :: 0 <= k < |idx| ==> idx[k] < |b| && a[k] == b[idx[k]])
    && (forall k, l :: 0 <= k < l < |idx| ==> idx[k] < idx[l])
  }

  ghost predicate IsSubsequence<T>(a: seq<T>, b: seq<T>)
  {
    exists idx :: SubsequenceAt(a, b, idx)
  }

  /** Adding the last row adds its position to the set exactly when it is found. */
  lemma CoveredSetStep(sims: seq<seq<real>>, threshold: real)
    requires WellShaped(sims) && sims != []
    ensures WellShaped(sims[..|sims| - 1])
    ensures CoveredSet(sims, threshold)
         == CoveredSet(sims[..|sims| - 1], threshold)
            + (if TopicFound(sims[|sims| - 1], threshold) then {|sims| - 1} else {})
  {
  }

  /** The number of found topics is the number of topics above the threshold. */
  lemma {:induction false} CoveredCount(sims: seq<seq<real>>, threshold: real)
    requires WellShaped(sims)
    ensures |CoveredIndices(sims, threshold)| == |CoveredSet(sims, threshold)|
    decreases |sims|
  {
    if sims != [] {
      var n := |sims| - 1;
      CoveredSetStep(sims, threshold);
      CoveredCount(sims[..n], threshold);
      assert n !in CoveredSet(sims[..n], threshold);
    }
  }

  /** The found list keeps the found topics in their original order and
      leaves out every other one. */
  lemma FoundInOrder(topics: seq<string>, sims: seq<seq<real>>, threshold: real)
    requires |sims| == |topics| && WellShaped(sims)
    ensures SubsequenceAt(FoundTopics(topics, sims, threshold), topics, CoveredIndices(sims, threshold))
    ensures IsSubsequence(FoundTopics(topics, sims, threshold), topics)
    ensures |FoundTopics(topics, sims, threshold)| <= |topics|
  {
    assert SubsequenceAt(FoundTopics(topics, sims, threshold), topics, CoveredIndices(sims, threshold));
  }

  /** One more topic extends the found list by that topic when it is found. */
  lemma FoundTopicsStep(topics: seq<string>, sims: seq<seq<real>>, threshold: real, i: nat)
    requires |sims| == |topics| && WellShaped(sims) && i < |topics|
    ensures WellShaped(sims[..i]) && WellShaped(sims[..i + 1])
    ensures FoundTopics(topics[..i + 1], sims[..i + 1], threshold)
         == FoundTopics(topics[..i], sims[..i], threshold)
            + (if TopicFound(sims[i], threshold) then [topics[i]] else [])
  {
    assert sims[..i + 1][..i] == sims[..i];
    var idx := CoveredIndices(sims[..i], threshold);
    var idx' := CoveredIndices(sims[..i + 1], threshold);
    assert idx' == idx + (if TopicFound(sims[i], threshold) then [i] else []);
  }

  /** `check_coverage`: walks the topics once, counting and collecting those
      whose best similarity is above the threshold. */
  method CheckCoverage(topics: seq<string>, sims: seq<seq<real>>, threshold: real)
    returns (count: nat, found: seq<string>)
    requires |sims| == |topics| && WellShaped(sims)
    ensures found == FoundTopics(topics, sims, threshold)
    ensures count == |found| == |CoveredSet(sims, threshold)|
    ensures count <= |topics|
  {
    count, found := 0, [];
    for i := 0 to |topics|
      invariant WellShaped(sims[..i])
      invariant found == FoundTopics(topics[..i], sims[..i], threshold)
      invariant count == |found|
    {
      FoundTopicsStep(topics, sims, threshold, i);
      var maxVal := RowMax(sims[i]);
      if maxVal > threshold {
        count := count + 1;
        found := found + [topics[i]];
      }
    }
    assert topics[..|topics|] == topics && sims[..|sims|] == sims;
    FoundInOrder(topics, sims, threshold);
  }
}
