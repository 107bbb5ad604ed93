/** The probe's `main`: allocate the three buffers, create and provision the
    map, wait for checkpoint/restore, then check the map's schema and contents.
    Every failure jumps to one error exit; both exits release all three buffers.

    The kernel and C library calls are not modelled; what they return is an
    `Environment`, one field per call site, fixed before the run starts. */
module Probe {
  import opened Common
  import opened Batch
  import opened Schema

  /** What the outside world hands back to `main`, call by call. */
  datatype Environment = Environment(
    mmapOk: bool,          // all three anonymous shared mappings were created
    mapFd: int,            // return value of map creation
    update: CallResult,    // batch update of the provisioned buffers
    infoRet: int,          // return value of the info query after resume
    info: MapInfo,         // the info record that query filled in
    lookup: CallResult,    // batch lookup from the start of the map
    lookedUp: seq<Pair>)   // the pairs the lookup wrote, in buffer order

  /** Why a run took the error exit. */
  datatype Failure =
    | MmapFailed
    | CreateFailed
    | UpdateFailed
    | InfoFailed
    | SchemaMismatch(error: SchemaError)
    | LookupFailed
    | ContentMismatch(verdict: Verdict)

  /** The three shared mappings `main` allocates. */
  datatype Buffer = KeysBuf | ValuesBuf | VisitedBuf

  /** Observable steps of a run, in order. */
  datatype Event =
    | Suspended           // handed over to the checkpoint/restore controller and resumed
    | InfoQueried         // asked the kernel for the map's info record
    | LookupIssued        // read the map's contents back with one batch lookup
    | Unmapped(buffer: Buffer)

  /** The cleanup both exits perform. */
  const Release: seq<Event> := [Unmapped(KeysBuf), Unmapped(ValuesBuf), Unmapped(VisitedBuf)]

  /** The run gets as far as the checkpoint: buffers allocated, map created
      (as far as the `!map_fd` test can tell), contents loaded. */
  predicate ReachesSuspend(env: Environment)
  {
    env.mmapOk && env.mapFd != 0 && BatchCallOk(env.update)
  }

  /** The run gets as far as reading the contents back: the info query
      succeeded and the reported schema matches the created one. */
  predicate ReachesLookup(env: Environment)
  {
    ReachesSuspend(env) && env.infoRet == 0 && MatchesCreated(env.info)
  }

  /** Every check passes: the lookup went through and returned a full buffer
      of pairs whose values are their keys plus one. */
  predicate AllChecksPass(env: Environment)
  {
    && ReachesLookup(env)
    && BatchCallOk(env.lookup)
    && |env.lookedUp| == MAX_ENTRIES
    && AllPairsOk(env.lookedUp)
  }

  /** One run of `main`. Each stage runs only while no earlier stage has
      failed, which is what each `goto err` achieves. */
  method Run(env: Environment) returns (exitCode: int, failure: Option<Failure>, trace: seq<Event>)
    requires |env.lookedUp| <= MAX_ENTRIES
    ensures exitCode == 0 || exitCode == 1
    ensures exitCode == 0 <==> failure.None?
    ensures failure.None? <==> AllChecksPass(env)
    ensures |trace| >= |Release| && trace[|trace| - |Release|..] == Release
    ensures forall i :: 0 <= i < |trace| - |Release| ==> !trace[i].Unmapped?
    ensures Suspended in trace <==> ReachesSuspend(env)
    ensures LookupIssued in trace <==> ReachesLookup(env)
    ensures failure == Some(MmapFailed) <==> !env.mmapOk
    ensures failure == Some(CreateFailed) <==> env.mmapOk && env.mapFd == 0
    ensures failure == Some(UpdateFailed) <==> env.mmapOk && env.mapFd != 0 && !BatchCallOk(env.update)
    ensures failure == Some(InfoFailed) <==> ReachesSuspend(env) && env.infoRet != 0
    ensures (failure.Some? && failure.value.SchemaMismatch?) <==>
      ReachesSuspend(env) && env.infoRet == 0 && !MatchesCreated(env.info)
    ensures failure.Some? && failure.value.SchemaMismatch? ==>
      CheckSchema(env.info) == Some(failure.value.error) && LookupIssued !in trace
    ensures failure == Some(LookupFailed) <==> ReachesLookup(env) && !BatchCallOk(env.lookup)
    ensures (failure.Some? && failure.value.ContentMismatch?) <==>
      ReachesLookup(env) && BatchCallOk(env.lookup) && !(|env.lookedUp| == MAX_ENTRIES && AllPairsOk(env.lookedUp))
    ensures failure.Some? && failure.value.ContentMismatch? ==>
      && failure.value.verdict.ValueMismatch?
      && failure.value.verdict ==
           Expected(LookedUpKeys(env.lookedUp, MAX_ENTRIES), LookedUpValues(env.lookedUp, MAX_ENTRIES), MAX_ENTRIES)
  {
    var n := MAX_ENTRIES;
    // anonymous mappings start out zero-filled
    var keys, values := Zeros(n), Zeros(n);
    var visited: seq<int> := seq(n, _ => 0);
    trace := [];
    failure := None;

    if !env.mmapOk {
      failure := Some(MmapFailed);
    }
    if failure.None? && env.mapFd == 0 {
      failure := Some(CreateFailed);
    }
    if failure.None? {
      var status;
      status, keys, values := MapBatchUpdate(keys, values, n, env.update);
      if status != 0 {
        failure := Some(UpdateFailed);
      }
    }
    if failure.None? {
      trace := trace + [Suspended, InfoQueried];
      if env.infoRet != 0 {
        failure := Some(InfoFailed);
      }
    }
    if failure.None? {
      var mismatch := CheckSchema(env.info);
      if mismatch.Some? {
        failure := Some(SchemaMismatch(mismatch.value));
      }
    }
    if failure.None? {
      keys, values := Zeros(n), Zeros(n);
      trace := trace + [LookupIssued];
      keys := Store(keys, KeysOf(env.lookedUp));
      values := Store(values, ValuesOf(env.lookedUp));
      if env.lookup.ret != 0 && env.lookup.errno != ENOENT {
        failure := Some(LookupFailed);
      }
    }
    if failure.None? {
      var verdict;
      verdict, visited := BatchVerify(visited, n, keys, values);
      if Ret(verdict) != 0 {
        failure := Some(ContentMismatch(verdict));
      }
      LookupVerdict(env.lookedUp, n);
    }

    if failure.None? {
      trace := trace + Release;
      exitCode := 0;
    } else {
      trace := trace + Release;
      exitCode := 1;
    }
  }

  /** The pairs the provisioning loop loads, `(i + 1, i + 2)` for `i < n`. */
  function ProvisionedPairs(n: nat): (ps: seq<Pair>)
    requires n < 0x7fff_ffff
    ensures |ps| == n && AllPairsOk(ps)
  {
    seq(n, i requires 0 <= i < n => Pair(i + 1, i + 2))
  }

  /** The pairs of `ProvisionedPairs`, written into zeroed buffers, are
      exactly the contents the fill loop of `map_batch_update` produces. */
  lemma ProvisionedPairsAreProvisioned(n: nat)
    requires n < 0x7fff_ffff
    ensures Provisioned(LookedUpKeys(ProvisionedPairs(n), n), LookedUpValues(ProvisionedPairs(n), n), n)
  {
  }

  /** An environment in which every call succeeds and the map comes back from
      restore exactly as it was provisioned. */
  const Intact: Environment :=
    Environment(true, 3, CallResult(0, 0), 0, CreateAttr, CallResult(0, 0), ProvisionedPairs(MAX_ENTRIES))

  /** Happy path: the map survives untouched and the run exits 0. */
  method ScenarioIntact() returns (exitCode: int, failure: Option<Failure>)
    ensures exitCode == 0 && failure == None
  {
    CreatedSchemaAccepted(Intact.info);
    assert MatchesCreated(Intact.info);
    var trace;
    exitCode, failure, trace := Run(Intact);
  }

  /** Corruption: the value stored under key 5 comes back as 999, and the
      lookup returns the pairs in key order. The run reports the pair at
      position 4 with key 5 and value 999 and exits 1. */
  method ScenarioCorruptedValue() returns (exitCode: int, failure: Option<Failure>)
    ensures exitCode == 1 && failure == Some(ContentMismatch(ValueMismatch(4, 5, 999)))
  {
    var ps := ProvisionedPairs(MAX_ENTRIES);
    var env := Intact.(lookedUp := ps[4 := Pair(5, 999)]);
    CorruptedValueReported(env.lookedUp, MAX_ENTRIES, 4);
    CreatedSchemaAccepted(env.info);
    var trace;
    exitCode, failure, trace := Run(env);
  }

  /** The same corruption when the lookup returns the pairs in reverse key
      order, as a hash map may: the pair with key 5 now sits at position 5,
      and that is the position reported. */
  method ScenarioCorruptedValueReversed() returns (exitCode: int, failure: Option<Failure>)
    ensures exitCode == 1 && failure == Some(ContentMismatch(ValueMismatch(5, 5, 999)))
  {
    var ps := ProvisionedPairs(MAX_ENTRIES)[4 := Pair(5, 999)];
    var rev := seq(MAX_ENTRIES, i requires 0 <= i < MAX_ENTRIES => ps[MAX_ENTRIES - 1 - i]);
    var env := Intact.(lookedUp := rev);
    CorruptedValueReported(env.lookedUp, MAX_ENTRIES, 5);
    CreatedSchemaAccepted(env.info);
    var trace;
    exitCode, failure, trace := Run(env);
  }

  /** Loss: key 7 is gone, so the lookup returns nine pairs. Positions are
      compared, not keys: the zeroed tenth position is what fails, as key 0
      with value 0, and no index is reported missing. */
  method ScenarioLostKey() returns (exitCode: int, failure: Option<Failure>)
    ensures exitCode == 1 && failure == Some(ContentMismatch(ValueMismatch(9, 0, 0)))
  {
    var ps := ProvisionedPairs(MAX_ENTRIES);
    var env := Intact.(lookedUp := ps[..6] + ps[7..]);
    assert AllPairsOk(env.lookedUp);
    LookupVerdict(env.lookedUp, MAX_ENTRIES);
    CreatedSchemaAccepted(env.info);
    var trace;
    exitCode, failure, trace := Run(env);
  }

  /** Schema drift: the map reports a capacity of 9. The run fails on that
      check and never reads the contents back. */
  method ScenarioShrunkMap() returns (exitCode: int, failure: Option<Failure>, trace: seq<Event>)
    ensures exitCode == 1 && failure == Some(SchemaMismatch(WrongMaxEntries))
    ensures LookupIssued !in trace
  {
    var env := Intact.(info := CreateAttr.(maxEntries := 9));
    SingleDriftReported(env.info, WrongMaxEntries);
    exitCode, failure, trace := Run(env);
  }
}
