/** The probe's batch buffers: the provisioning fill of `map_batch_update`, the
    two-pass validator `map_batch_verify`, and what a batch lookup leaves in the
    buffers after `main` has zeroed them.

    A buffer is the prefix of a shared mapping that holds `n` C ints; it is
    modelled as a sequence value, so an operation that "writes" a buffer returns
    its new contents and every buffer it does not return is left as it was. */
module Batch {
  import opened Common

  /** One key/value pair as the kernel stores it. */
  datatype Pair = Pair(key: Int32, value: Int32)

  /** Position `i` holds a pair the probe accepts: the value is the key plus one.
      The sum is taken over mathematical integers (see README, Left out). */
  predicate PairOk(keys: seq<Int32>, values: seq<Int32>, i: nat)
    requires i < |keys| && i < |values|
  {
    keys[i] as int + 1 == values[i] as int
  }

  /** Every one of the first `n` positions holds an accepted pair. */
  predicate PairsMatch(keys: seq<Int32>, values: seq<Int32>, n: nat)
    requires n <= |keys| && n <= |values|
  {
    forall i :: 0 <= i < n ==> PairOk(keys, values, i)
  }

  /** The first `n` positions hold key `i + 1` and value `i + 2`: the contents
      the provisioning loop writes before the batch update. */
  predicate Provisioned(keys: seq<Int32>, values: seq<Int32>, n: nat)
  {
    && n <= |keys| && n <= |values|
    && forall i :: 0 <= i < n ==> keys[i] == i + 1 && values[i] == i + 2
  }

  /** The fill loop of `map_batch_update`. The buffers may be longer than `n`;
      positions past `n` are not written. `i + 2` must fit in a C int. */
  method FillBatch(keys: seq<Int32>, values: seq<Int32>, n: UInt32)
    returns (keys': seq<Int32>, values': seq<Int32>)
    requires n <= |keys| && n <= |values|
    requires n < 0x7fff_ffff
    ensures |keys'| == |keys| && |values'| == |values|
    ensures Provisioned(keys', values', n)
    ensures keys'[n..] == keys[n..] && values'[n..] == values[n..]
  {
    keys', values' := keys, values;
    var i: nat := 0;
    while i < n
      invariant i <= n
      invariant |keys'| == |keys| && |values'| == |values|
      invariant forall j :: 0 <= j < i ==> keys'[j] == j + 1 && values'[j] == j + 2
      invariant forall j :: i <= j < |keys| ==> keys'[j] == keys[j]
      invariant forall j :: i <= j < |values| ==> values'[j] == values[j]
    {
      keys' := keys'[i := i + 1];
      values' := values'[i := i + 2];
      i := i + 1;
    }
  }

  /** `map_batch_update`: fill the buffers, hand them to the kernel's batch
      update (whose outcome is the parameter `update`), and report 0 unless the
      update failed with an errno other than `ENOENT`, in which case -1. */
  method MapBatchUpdate(keys: seq<Int32>, values: seq<Int32>, n: UInt32, update: CallResult)
    returns (status: int, keys': seq<Int32>, values': seq<Int32>)
    requires n <= |keys| && n <= |values|
    requires n < 0x7fff_ffff
    ensures status == 0 || status == -1
    ensures status == -1 <==> update.ret != 0 && update.errno != ENOENT
    ensures status == 0 <==> BatchCallOk(update)
    ensures |keys'| == |keys| && |values'| == |values|
    ensures Provisioned(keys', values', n)
  {
    keys', values' := FillBatch(keys, values, n);
    if update.ret != 0 && update.errno != ENOENT {
      status := -1;
    } else {
      status := 0;
    }
  }

  /** The index of the first of the first `n` positions whose pair is not
      accepted, if there is one. */
  function FirstBad(keys: seq<Int32>, values: seq<Int32>, n: nat): (r: Option<nat>)
    requires n <= |keys| && n <= |values|
    ensures r.None? <==> PairsMatch(keys, values, n)
    ensures r.Some? ==> r.value < n && !PairOk(keys, values, r.value) && PairsMatch(keys, values, r.value)
  {
    if n == 0 then None
    else match FirstBad(keys, values, n - 1)
      case Some(i) => Some(i)
      case None => if PairOk(keys, values, n - 1) then None else Some(n - 1)
  }

  /** What the validator reports: success, a position whose value is not its
      key plus one (with that key and value), or a position left unvisited. */
  datatype Verdict = Passed | ValueMismatch(index: nat, key: Int32, value: Int32) | IndexMissing(index: nat)

  /** The C return value of `map_batch_verify` for a verdict. */
  function Ret(v: Verdict): (r: int)
    ensures r == 0 <==> v.Passed?
    ensures r == 0 || r == -1
  {
    if v.Passed? then 0 else -1
  }

  /** The reference verdict, defined from the contents alone: the first
      mismatching position if any, else success. */
  function Expected(keys: seq<Int32>, values: seq<Int32>, n: nat): (r: Verdict)
    requires n <= |keys| && n <= |values|
    ensures r.Passed? <==> PairsMatch(keys, values, n)
    ensures r.ValueMismatch? ==>
      && r.index < n
      && r.key == keys[r.index] && r.value == values[r.index]
      && r.key as int + 1 != r.value as int
      && PairsMatch(keys, values, r.index)
    ensures !r.IndexMissing?
  {
    match FirstBad(keys, values, n)
    case None => Passed
    case Some(i) => ValueMismatch(i, keys[i], values[i])
  }

  /** `map_batch_verify`: zero the first `n` entries of `visited`, then mark
      each position whose pair is accepted, stopping at the first that is not;
      then look for an unmarked position. Returns the verdict and the new
      contents of `visited`; `keys` and `values` are only read. */
  method BatchVerify(visited: seq<int>, n: UInt32, keys: seq<Int32>, values: seq<Int32>)
    returns (v: Verdict, visited': seq<int>)
    requires n <= |visited| && n <= |keys| && n <= |values|
    ensures v == Expected(keys, values, n)
    ensures !v.IndexMissing?
    ensures |visited'| == |visited| && visited'[n..] == visited[n..]
    ensures v.Passed? ==> forall i :: 0 <= i < n ==> visited'[i] == 1
    ensures v.ValueMismatch? ==> forall i :: 0 <= i < n ==> visited'[i] == (if i < v.index then 1 else 0)
  {
    visited' := seq(n, _ => 0) + visited[n..];
    var i: nat := 0;
    while i < n
      invariant i <= n
      invariant |visited'| == |visited| && visited'[n..] == visited[n..]
      invariant PairsMatch(keys, values, i)
      invariant forall j :: 0 <= j < n ==> visited'[j] == (if j < i then 1 else 0)
    {
      if keys[i] as int + 1 != values[i] as int {
        FirstBadAt(keys, values, n, i);
        return ValueMismatch(i, keys[i], values[i]), visited';
      }
      visited' := visited'[i := 1];
      i := i + 1;
    }
    i := 0;
    while i < n
      invariant i <= n
      invariant forall j :: 0 <= j < n ==> visited'[j] == 1
    {
      if visited'[i] != 1 {
        return IndexMissing(i), visited';
      }
      i := i + 1;
    }
    v := Passed;
  }

  /** Round trip: whatever the fill loop wrote passes the validator. */
  lemma ProvisionedPasses(keys: seq<Int32>, values: seq<Int32>, n: nat)
    requires Provisioned(keys, values, n)
    ensures Expected(keys, values, n) == Passed
  {
  }

  /** The set of keys held in the first `n` positions. */
  function KeySet(keys: seq<Int32>, n: nat): set<int>
    requires n <= |keys|
  {
    set i | 0 <= i < n :: keys[i] as int
  }

  /** The provisioned keys are pairwise distinct and, as a set, are exactly
      `1..n`: no duplicates and no gaps. */
  lemma ProvisionedKeysExact(keys: seq<Int32>, values: seq<Int32>, n: nat)
    requires Provisioned(keys, values, n)
    ensures forall i, j :: 0 <= i < j < n ==> keys[i] != keys[j]
    ensures forall k :: k in KeySet(keys, n) <==> 1 <= k <= n
  {
    forall k: int | 1 <= k <= n
      ensures k in KeySet(keys, n)
    {
      assert keys[k - 1] == k;
    }
  }

  /** The validator is positional: it does not look for duplicate keys, so a
      buffer repeating one key passes. */
  lemma DuplicateKeysPass()
    ensures Expected([1, 1], [2, 2], 2) == Passed
  {
  }

  /** The keys of a run of pairs, in order. */
  function KeysOf(ps: seq<Pair>): (ks: seq<Int32>)
    ensures |ks| == |ps| && forall i :: 0 <= i < |ps| ==> ks[i] == ps[i].key
  {
    seq(|ps|, i requires 0 <= i < |ps| => ps[i].key)
  }

  /** The values of a run of pairs, in order. */
  function ValuesOf(ps: seq<Pair>): (vs: seq<Int32>)
    ensures |vs| == |ps| && forall i :: 0 <= i < |ps| ==> vs[i] == ps[i].value
  {
    seq(|ps|, i requires 0 <= i < |ps| => ps[i].value)
  }

  /** A buffer of `n` C ints set to zero. */
  function Zeros(n: nat): (z: seq<Int32>)
    ensures |z| == n && forall i :: 0 <= i < n ==> z[i] == 0
  {
    seq(n, _ => 0)
  }

  /** The buffer `buf` after something writes `xs` at its start. */
  function Store(buf: seq<Int32>, xs: seq<Int32>): (r: seq<Int32>)
    requires |xs| <= |buf|
    ensures |r| == |buf|
    ensures forall i :: 0 <= i < |xs| ==> r[i] == xs[i]
    ensures forall i :: |xs| <= i < |buf| ==> r[i] == buf[i]
  {
    xs + buf[|xs|..]
  }

  /** The keys buffer once `main` has zeroed it and the batch lookup has
      written the pairs `ps`. */
  function LookedUpKeys(ps: seq<Pair>, n: nat): (keys: seq<Int32>)
    requires |ps| <= n
    ensures |keys| == n
    ensures forall i :: 0 <= i < |ps| ==> keys[i] == ps[i].key
    ensures forall i :: |ps| <= i < n ==> keys[i] == 0
  {
    Store(Zeros(n), KeysOf(ps))
  }

  /** The values buffer once `main` has zeroed it and the batch lookup has
      written the pairs `ps`. */
  function LookedUpValues(ps: seq<Pair>, n: nat): (values: seq<Int32>)
    requires |ps| <= n
    ensures |values| == n
    ensures forall i :: 0 <= i < |ps| ==> values[i] == ps[i].value
    ensures forall i :: |ps| <= i < n ==> values[i] == 0
  {
    Store(Zeros(n), ValuesOf(ps))
  }

  /** The first rejected position is determined by the contents: a position
      that is rejected, with every earlier one accepted, is the one reported. */
  lemma FirstBadAt(keys: seq<Int32>, values: seq<Int32>, n: nat, i: nat)
    requires n <= |keys| && n <= |values|
    requires i < n && !PairOk(keys, values, i) && PairsMatch(keys, values, i)
    ensures FirstBad(keys, values, n) == Some(i)
  {
  }

  /** A lookup shorter than the buffers leaves a zero key and a zero value at
      the first position it did not write, and 0 + 1 != 0. */
  lemma NotPairsMatchPastRead(ps: seq<Pair>, n: nat)
    requires |ps| <= n
    ensures |ps| < n ==> !PairOk(LookedUpKeys(ps, n), LookedUpValues(ps, n), |ps|)
    ensures |ps| < n ==> !PairsMatch(LookedUpKeys(ps, n), LookedUpValues(ps, n), n)
  {
  }

  /** Every pair in `ps` has value key + 1. */
  predicate AllPairsOk(ps: seq<Pair>)
  {
    forall i :: 0 <= i < |ps| ==> ps[i].key as int + 1 == ps[i].value as int
  }

  /** After a lookup into zeroed buffers the validator passes exactly when the
      lookup filled all `n` positions with accepted pairs. A short read whose
      pairs are all accepted is reported at the first position it did not
      write, as key 0 and value 0, and never as a missing index. */
  lemma LookupVerdict(ps: seq<Pair>, n: nat)
    requires |ps| <= n
    ensures Expected(LookedUpKeys(ps, n), LookedUpValues(ps, n), n) == Passed
            <==> |ps| == n && AllPairsOk(ps)
    ensures |ps| < n && AllPairsOk(ps) ==>
            Expected(LookedUpKeys(ps, n), LookedUpValues(ps, n), n) == ValueMismatch(|ps|, 0, 0)
  {
    var keys, values := LookedUpKeys(ps, n), LookedUpValues(ps, n);
    var m := |ps|;
    assert forall i :: 0 <= i < m ==> keys[i] == ps[i].key && values[i] == ps[i].value;
    if PairsMatch(keys, values, n) {
      assert m == n by {
        NotPairsMatchPastRead(ps, n);
      }
      forall i | 0 <= i < m
        ensures ps[i].key as int + 1 == ps[i].value as int
      {
        assert PairOk(keys, values, i);
      }
    }
    if AllPairsOk(ps) {
      assert PairsMatch(keys, values, m) by {
        forall i | 0 <= i < m
          ensures PairOk(keys, values, i)
        {
          assert ps[i].key as int + 1 == ps[i].value as int;
        }
      }
      if m < n {
        NotPairsMatchPastRead(ps, n);
        FirstBadAt(keys, values, n, m);
      }
    }
  }

  /** A full lookup in which exactly one pair has a value other than its key
      plus one is reported at the position that pair was returned at, with
      that pair's key and value. The position is wherever the lookup put the
      pair, not where it was provisioned. */
  lemma CorruptedValueReported(ps: seq<Pair>, n: nat, j: nat)
    requires |ps| == n && j < n
    requires ps[j].key as int + 1 != ps[j].value as int
    requires forall i :: 0 <= i < n && i != j ==> ps[i].key as int + 1 == ps[i].value as int
    ensures Expected(LookedUpKeys(ps, n), LookedUpValues(ps, n), n) == ValueMismatch(j, ps[j].key, ps[j].value)
  {
    var keys, values := LookedUpKeys(ps, n), LookedUpValues(ps, n);
    assert forall i :: 0 <= i < n ==> keys[i] == ps[i].key && values[i] == ps[i].value;
    assert !PairOk(keys, values, j);
    assert PairsMatch(keys, values, j) by {
      forall i | 0 <= i < j
        ensures PairOk(keys, values, i)
      {
        assert ps[i].key as int + 1 == ps[i].value as int;
      }
    }
    FirstBadAt(keys, values, n, j);
  }
}
