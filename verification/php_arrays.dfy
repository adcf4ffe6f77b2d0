/** PHP associative arrays built by assignment in order. */
module PhpArrays {

  /** Index i holds the last pair with its key: no later pair reuses that key. */
  ghost predicate IsLastOfKey<K, V>(pairs: seq<(K, V)>, i: int)
    requires 0 <= i < |pairs|
  {
    forall j | i < j < |pairs| :: pairs[j].0 != pairs[i].0
  }

  /** The keys of a sequence of pairs. */
  ghost function KeysOf<K, V>(pairs: seq<(K, V)>): set<K>
  {
    set i | 0 <= i < |pairs| :: pairs[i].0
  }

  /** The array `$a` left by `$a[k] = v` for every pair in order, starting
      from an empty array: a later assignment to a key overwrites an earlier one. */
  function LastWins<K, V>(pairs: seq<(K, V)>): (m: map<K, V>)
    ensures m.Keys == KeysOf(pairs)
    ensures forall i | 0 <= i < |pairs| && IsLastOfKey(pairs, i) :: m[pairs[i].0] == pairs[i].1
    decreases |pairs|
  {
    if |pairs| == 0 then map[]
    else
      var init := pairs[..|pairs| - 1];
      var last := pairs[|pairs| - 1];
      assert forall i | 0 <= i < |init| :: init[i] == pairs[i];
      assert KeysOf(pairs) == KeysOf(init) + {last.0};
      LastWins(init)[last.0 := last.1]
  }

  /** Every key of the array is held by exactly one last pair. */
  lemma {:induction false} LastOfKeyExists<K, V>(pairs: seq<(K, V)>, k: K)
    requires k in KeysOf(pairs)
    ensures exists i | 0 <= i < |pairs| :: pairs[i].0 == k && IsLastOfKey(pairs, i)
    decreases |pairs|
  {
    var n := |pairs| - 1;
    if pairs[n].0 == k {
      assert IsLastOfKey(pairs, n);
    } else {
      var init := pairs[..n];
      assert forall i | 0 <= i < n :: init[i] == pairs[i];
      var j :| 0 <= j < |pairs| && pairs[j].0 == k;
      assert j < n && init[j].0 == k;
      LastOfKeyExists(init, k);
      var i :| 0 <= i < |init| && init[i].0 == k && IsLastOfKey(init, i);
      assert IsLastOfKey(pairs, i);
    }
  }

  /** Keys that are pairwise distinct, as in any PHP array. */
  ghost predicate DistinctKeys<K, V>(pairs: seq<(K, V)>)
  {
    forall i, j | 0 <= i < j < |pairs| :: pairs[i].0 != pairs[j].0
  }

  /** With distinct keys nothing is overwritten: every pair survives with its
      own value and the array has one entry per pair. */
  lemma {:induction false} LastWinsDistinct<K, V>(pairs: seq<(K, V)>)
    requires DistinctKeys(pairs)
    ensures |LastWins(pairs)| == |pairs|
    ensures forall i | 0 <= i < |pairs| :: LastWins(pairs)[pairs[i].0] == pairs[i].1
    decreases |pairs|
  {
    if |pairs| > 0 {
      var n := |pairs| - 1;
      var init := pairs[..n];
      assert forall i | 0 <= i < n :: init[i] == pairs[i];
      LastWinsDistinct(init);
      assert pairs[n].0 !in LastWins(init);
      assert LastWins(pairs) == LastWins(init)[pairs[n].0 := pairs[n].1];
      forall i | 0 <= i < |pairs|
        ensures IsLastOfKey(pairs, i)
      {
      }
    }
  }
}
