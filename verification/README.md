# BPF hash map checkpoint/restore probe — Dafny model

This project models the zdtm test `bpf_hash`. The test creates a BPF hash
map and loads ten key/value pairs into it with one batch update. It then lets
the checkpoint/restore controller freeze and restore the process. After
resume it checks that the map kept its schema and its contents.

The model has four modules:

- `Common` (`common.dfy`): C integer ranges, `ENOENT`, and the
  (return value, errno) pair a libbpf call leaves behind. A batch call counts
  as failed only when it returned non-zero and errno is not `ENOENT`.
- `Batch` (`batch.dfy`): the fill loop and result test of
  `map_batch_update`, and the two-pass validator `map_batch_verify`.
  Buffers are sequence values, so an operation returns every buffer it
  writes. `map_batch_verify` returns the new `visited` and only reads `keys`
  and `values`. The module also gives a reference verdict (`FirstBad`,
  `Expected`) and models what the batch lookup leaves in the zeroed buffers.
- `Schema` (`schema.dfy`): the creation attributes, the info record and
  the six schema checks `main` runs after resume.
- `Probe` (`probe.dfy`): `main` as one run over an `Environment`. The
  environment holds whatever each kernel or C library call returns. Every
  `goto err` is a stage that is skipped once an earlier stage has failed.
  Both exits record the release of the three buffers. The run also records
  the suspend point, the info query and the lookup, so contracts can say which
  stages ran.

Constants: `BPF_MAP_TYPE_HASH` = 1, `BPF_F_NO_PREALLOC` = bit 0,
`BPF_F_NUMA_NODE` = bit 2, `ENOENT` = 2, `sizeof(int)` = 4, `max_entries` = 10.

The model follows the code, including where it checks less than its
messages suggest:

- The validator compares positions, not keys. A lookup that lost key 7
  returns nine pairs. The zeroed tenth position then fails the value check as
  key 0 with value 0. The "missing index" branch is never reached, because
  the first pass marks every position it gets past (`Batch.BatchVerify`,
  `Probe.ScenarioLostKey`).
- The validator does not check that the keys are distinct or cover `1..10`.
  Duplicate keys pass (`Batch.DuplicateKeysPass`). Only the provisioning side
  guarantees distinct keys in `1..n` (`Batch.ProvisionedKeysExact`).
- The lookup's returned count is never checked. A short read is still always
  caught, because `main` zeroes the buffers before the lookup and
  0 + 1 != 0 (`Batch.LookupVerdict`). So a passing run means the lookup wrote
  all ten positions.
- Map creation is rejected only when it returns 0 (`!map_fd`). A negative
  descriptor passes that test. The model keeps this as written. The next
  failure then comes from the batch update's result, which the model takes as
  an input.

## Model

| member | source | states |
|---|---|---|
| Batch.FillBatch | test/zdtm/static/bpf_hash.c:19-22 | for every `i < max_entries`, key `i + 1` and value `i + 2` are written; positions past `max_entries` keep their contents |
| Batch.MapBatchUpdate | test/zdtm/static/bpf_hash.c:11-30 | buffers come back provisioned; the result is -1 exactly when the batch update returned non-zero with an errno other than `ENOENT`, else 0 |
| Batch.FirstBad | test/zdtm/static/bpf_hash.c:35-40 | no index is returned exactly when every position has value = key + 1; a returned index fails that test and every earlier position passes it |
| Batch.Expected | test/zdtm/static/bpf_hash.c:32-50 | reference verdict: success exactly when every pair matches; otherwise the first mismatching position with its key and value; never a missing index |
| Batch.BatchVerify | test/zdtm/static/bpf_hash.c:32-50 | the two-pass loop returns the reference verdict, so the missing-index branch is unreachable; `visited` is zeroed then marked up to the failing position (all of it on success); entries past `max_entries` are untouched |
| Batch.ProvisionedPasses | test/zdtm/static/bpf_hash.c:19-42 | round trip: buffers as the fill loop leaves them always pass the validator |
| Batch.ProvisionedKeysExact | test/zdtm/static/bpf_hash.c:19-22 | provisioned keys are pairwise distinct and, as a set, exactly `1..max_entries` |
| Batch.DuplicateKeysPass | test/zdtm/static/bpf_hash.c:35-48 | the check is positional: keys `[1, 1]` with values `[2, 2]` pass |
| Batch.Ret | test/zdtm/static/bpf_hash.c:37-50 | `map_batch_verify` returns 0 exactly on success and -1 on either failure |
| Batch.KeysOf | test/zdtm/static/bpf_hash.c:135 | the keys of the looked-up pairs, position by position |
| Batch.ValuesOf | test/zdtm/static/bpf_hash.c:135 | the values of the looked-up pairs, position by position |
| Batch.Zeros | test/zdtm/static/bpf_hash.c:132-133 | a zeroed buffer of `max_entries` ints, as `memset` leaves it |
| Batch.Store | test/zdtm/static/bpf_hash.c:135 | writing a run at the start of a buffer sets those positions and leaves the rest as they were |
| Batch.LookedUpKeys | test/zdtm/static/bpf_hash.c:132-135 | after zeroing and the lookup, the keys buffer holds the returned keys as a prefix and 0 after them |
| Batch.LookedUpValues | test/zdtm/static/bpf_hash.c:133-135 | after zeroing and the lookup, the values buffer holds the returned values as a prefix and 0 after them |
| Batch.FirstBadAt | test/zdtm/static/bpf_hash.c:35-40 | a rejected position whose predecessors all pass is the one the scan stops at |
| Batch.NotPairsMatchPastRead | test/zdtm/static/bpf_hash.c:132-141 | after zeroing, the first position a short lookup did not write holds key 0 and value 0, which is rejected |
| Batch.LookupVerdict | test/zdtm/static/bpf_hash.c:132-142 | after zeroing and a lookup, the validator passes iff the lookup wrote all positions with pairs of value = key + 1; an otherwise good short read is reported at its length as key 0, value 0 |
| Batch.CorruptedValueReported | test/zdtm/static/bpf_hash.c:35-40 | a full lookup whose only bad pair is at position `j` is reported at `j`, with that pair's key and value, whatever order the lookup returned the pairs in |
| Schema.CheckSchema | test/zdtm/static/bpf_hash.c:107-130 | accepts exactly when type, key size, value size and capacity equal the creation attributes and both created flag bits are still set; a reported mismatch names a check that fails |
| Schema.AcceptedIffEveryCheckPasses | test/zdtm/static/bpf_hash.c:107-130 | the chain accepts exactly when each of the six checks passes on its own |
| Schema.FirstFailingCheckReported | test/zdtm/static/bpf_hash.c:107-130 | every check that runs before the reported one passes: the first failing check in source order is the one reported |
| Schema.CreatedSchemaAccepted | test/zdtm/static/bpf_hash.c:62-68 | schema round trip: the attributes the map is created with pass every check |
| Schema.OtherFlagBitsIgnored | test/zdtm/static/bpf_hash.c:123-130 | flag bits other than `BPF_F_NO_PREALLOC` and `BPF_F_NUMA_NODE` never change the outcome |
| Schema.SingleDriftReported | test/zdtm/static/bpf_hash.c:107-130 | when exactly one of the six checks fails, that check is the one reported |
| Probe.Run | test/zdtm/static/bpf_hash.c:53-158 | exit code is 0 or 1, and 0 exactly when every check passes (full lookup of pairs with value = key + 1); each failure is the first failing stage in source order; a schema mismatch skips the lookup; every run ends by unmapping all three buffers, and only there |
| Probe.ProvisionedPairs | test/zdtm/static/bpf_hash.c:19-22 | the ten pairs the map is loaded with satisfy value = key + 1 |
| Probe.ProvisionedPairsAreProvisioned | test/zdtm/static/bpf_hash.c:19-22 | those pairs, written into zeroed buffers, are exactly what the fill loop produces |
| Probe.ScenarioIntact | test/zdtm/static/bpf_hash.c:94-149 | a map restored unchanged makes the run exit 0 |
| Probe.ScenarioCorruptedValue | test/zdtm/static/bpf_hash.c:135-142 | key 5 restored with value 999, looked up in key order, makes the run fail with a mismatch at position 4, key 5, value 999 |
| Probe.ScenarioCorruptedValueReversed | test/zdtm/static/bpf_hash.c:135-142 | the same corruption looked up in reverse key order is reported at position 5: the reported position is where the lookup put the pair |
| Probe.ScenarioLostKey | test/zdtm/static/bpf_hash.c:132-142 | key 7 lost makes the run fail with a value mismatch at position 9, key 0, value 0, not with a missing index |
| Probe.ScenarioShrunkMap | test/zdtm/static/bpf_hash.c:119-122 | a restored capacity of 9 fails the capacity check, and the lookup never runs |

## Left out

- The BPF system calls (map creation, batch update, batch lookup, info query) are kernel code. Their results are fields of `Probe.Environment`, not computed.
- `mmap`/`munmap` are modelled only as one "all three mappings succeeded" flag and the release events. New anonymous mappings are taken to be zero-filled.
- `test_init`, `test_daemon` and `test_waitsig` are the harness and the wait for the external checkpoint/restore controller. They become the single `Suspended` event. The restore itself shows up only through the info record and looked-up pairs it leaves behind.
- Logging (`pr_err`, `pr_perror`) and the `pass`/`fail` reports are left out. Only the exit code and the failure reason are kept.
- The lookup's `batch` cursor and `count` are not modelled. `count` is passed in uninitialised and never checked. `Probe.Run` requires the lookup to write at most `max_entries` pairs, which the kernel does only if `count` bounds it.
- Batch.PairOk: computes `keys[i] + 1` over unbounded integers. In C the sum overflows, which is undefined behaviour, when a key is `INT_MAX`.
- Batch.FillBatch: requires `max_entries < 0x7fffffff` so that `i + 2` fits in a C int. `main` passes 10.
