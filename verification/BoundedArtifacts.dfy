/** Bounding the artifacts of a result by their total serialised size. */
module BoundedArtifacts {
  import opened Wrappers

  function Total<T>(size: T -> nat, s: seq<T>): nat {
    if s == [] then 0 else Total(size, s[..|s| - 1]) + size(s[|s| - 1])
  }

  // A missing or zero limit means no limit.
  predicate Fits<T>(size: T -> nat, s: seq<T>, maxBytes: Option<nat>) {
    maxBytes.None? || maxBytes.value == 0 || Total(size, s) <= maxBytes.value
  }

  // `k` elements fit and, unless that is everything, no longer prefix does.
  ghost predicate LongestFittingPrefix<T>(size: T -> nat, s: seq<T>, maxBytes: Option<nat>, k: nat) {
    && k <= |s|
    && Fits(size, s[..k], maxBytes)
    && (forall m :: k < m <= |s| ==> !Fits(size, s[..m], maxBytes))
  }

  lemma {:induction false} TotalGrows<T>(size: T -> nat, s: seq<T>, i: nat, k: nat)
    requires i <= k <= |s|
    ensures Total(size, s[..i]) <= Total(size, s[..k])
    decreases k - i
  {
    if i < k {
      TotalGrows(size, s, i, k - 1);
      assert s[..k][..k - 1] == s[..k - 1];
    }
  }

  // The longest fitting prefix is proper exactly when the whole does not fit.
  lemma ProperExactlyWhenOverLimit<T>(size: T -> nat, s: seq<T>, maxBytes: Option<nat>, k: nat)
    requires LongestFittingPrefix(size, s, maxBytes, k)
    ensures k < |s| <==> !Fits(size, s, maxBytes)
    ensures forall m :: 0 <= m <= |s| && LongestFittingPrefix(size, s, maxBytes, m) ==> m == k
  {
    assert s[..|s|] == s;
    if k < |s| {
      assert !Fits(size, s[..|s|], maxBytes);
    }
  }

  method BoundArtifacts<T>(size: T -> nat, artifacts: seq<T>, maxBytes: Option<nat>) returns (result: seq<T>)
    ensures result <= artifacts && LongestFittingPrefix(size, artifacts, maxBytes, |result|)
    ensures maxBytes.None? || maxBytes.value == 0 ==> result == artifacts
    ensures maxBytes.Some? && maxBytes.value != 0 ==>
              && Total(size, result) <= maxBytes.value
              && (|result| < |artifacts| ==> Total(size, result) + size(artifacts[|result|]) > maxBytes.value)
  {
    if maxBytes.None? || maxBytes.value == 0 {
      assert artifacts[..|artifacts|] == artifacts;
      return artifacts;
    }
    result := [];
    var bytes := 0;
    var i := 0;
    while i < |artifacts|
      invariant 0 <= i <= |artifacts| && result == artifacts[..i]
      invariant bytes == Total(size, artifacts[..i]) <= maxBytes.value
    {
      assert artifacts[..i + 1][..i] == artifacts[..i];
      if bytes + size(artifacts[i]) > maxBytes.value {
        forall m | i < m <= |artifacts| ensures !Fits(size, artifacts[..m], maxBytes) {
          TotalGrows(size, artifacts, i + 1, m);
        }
        break;
      }
      result := result + [artifacts[i]];
      bytes := bytes + size(artifacts[i]);
      i := i + 1;
    }
  }

  method AreArtifactsOverLimit<T>(size: T -> nat, artifacts: seq<T>, maxBytes: Option<nat>) returns (over: bool)
    ensures over <==> !Fits(size, artifacts, maxBytes)
    ensures over <==> maxBytes.Some? && maxBytes.value != 0 && Total(size, artifacts) > maxBytes.value
  {
    if maxBytes.None? || maxBytes.value == 0 {
      return false;
    }
    var bytes := 0;
    var i := 0;
    while i < |artifacts|
      invariant 0 <= i <= |artifacts|
      invariant bytes == Total(size, artifacts[..i]) <= maxBytes.value
    {
      assert artifacts[..i + 1][..i] == artifacts[..i];
      bytes := bytes + size(artifacts[i]);
      i := i + 1;
      if bytes > maxBytes.value {
        TotalGrows(size, artifacts, i, |artifacts|);
        assert artifacts[..|artifacts|] == artifacts;
        return true;
      }
    }
    assert artifacts[..|artifacts|] == artifacts;
    return false;
  }
}
