/** `byte_compare` of edit.py: it compares two buffers of equal length byte by byte,
    reports each index where they differ, and ends with the number of modified bytes or
    the remark that there are none. */
module Edit {
  import opened Errors
  import opened Bytes

  /** The closing line: no modifications, or how many bytes were modified. */
  datatype Verdict = NoModifications | ModifiedBytes(count: nat)

  /** What `byte_compare` reports: the differing indices in the order it visits them,
      its `modify_count`, and the closing line. */
  datatype Comparison = Comparison(reported: seq<nat>, count: nat, verdict: Verdict)

  /** `byte_compare(left, right)` without the printing; AssertionError for buffers of
      different lengths. */
  method ByteCompare(left: seq<byte>, right: seq<byte>) returns (r: Result<Comparison>)
    ensures r == Err(LengthAssertion) <==> |left| != |right|
    ensures r.Ok? ==> r.value.reported == DiffsBelow(left, right, |left|)
    ensures r.Ok? ==> r.value.count == |r.value.reported|
    ensures r.Ok? ==> (r.value.verdict == NoModifications <==> r.value.count == 0)
    ensures r.Ok? && r.value.count > 0 ==> r.value.verdict == ModifiedBytes(r.value.count)
  {
    if |left| != |right| {
      return Err(LengthAssertion);
    }
    var modifyCount := 0;
    var reported: seq<nat> := [];
    for i := 0 to |left|
      invariant reported == DiffsBelow(left, right, i)
      invariant modifyCount == |reported|
    {
      if left[i] == right[i] {
        continue;
      }
      modifyCount := modifyCount + 1;
      reported := reported + [i];
    }
    var verdict := if modifyCount == 0 then NoModifications else ModifiedBytes(modifyCount);
    r := Ok(Comparison(reported, modifyCount, verdict));
  }

  /** The indices below `n` where the buffers differ, as a set. */
  ghost function DifferingBelow(left: seq<byte>, right: seq<byte>, n: nat): set<nat>
    requires n <= |left| && n <= |right|
  {
    set i: nat | i < n && left[i] != right[i]
  }

  /** The count `byte_compare` reaches is the number of indices where the buffers differ. */
  lemma {:induction false} CountIsDifferences(left: seq<byte>, right: seq<byte>, n: nat)
    requires n <= |left| && n <= |right|
    ensures |DiffsBelow(left, right, n)| == |DifferingBelow(left, right, n)|
  {
    if n > 0 {
      CountIsDifferences(left, right, n - 1);
      var before := DifferingBelow(left, right, n - 1);
      if left[n - 1] != right[n - 1] {
        assert DifferingBelow(left, right, n) == before + {n - 1};
      } else {
        assert DifferingBelow(left, right, n) == before;
      }
    }
  }

  /** On buffers of equal length the reported indices are exactly the differing ones,
      each once and ascending, and there are no modifications exactly when the buffers
      are equal. */
  lemma ByteCompareMeaning(left: seq<byte>, right: seq<byte>)
    requires |left| == |right|
    ensures var found := DiffsBelow(left, right, |left|);
      && (forall i: nat :: i in found <==> i < |left| && left[i] != right[i])
      && (forall j, k :: 0 <= j < k < |found| ==> found[j] < found[k])
      && |found| == |DifferingBelow(left, right, |left|)|
      && (|found| == 0 <==> left == right)
  {
    DiffsBelowExact(left, right, |left|);
    CountIsDifferences(left, right, |left|);
    var found := DiffsBelow(left, right, |left|);
    if |found| == 0 {
      assert forall i :: 0 <= i < |left| ==> left[i] == right[i] by {
        forall i | 0 <= i < |left|
          ensures left[i] == right[i]
        {
          assert i !in found;
        }
      }
    } else {
      assert found[0] in found;
    }
  }
}
