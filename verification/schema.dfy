/** The map's schema: the attributes `main` creates the map with, the info
    record the kernel reports after resume, and the checks `main` runs on it. */
module Schema {
  import opened Common

  /** `BPF_MAP_TYPE_HASH` in the kernel's `enum bpf_map_type`. */
  const BPF_MAP_TYPE_HASH: UInt32 := 1
  /** `BPF_F_NO_PREALLOC`, bit 0 of the map flags. */
  const BPF_F_NO_PREALLOC: bv32 := 1
  /** `BPF_F_NUMA_NODE`, bit 2 of the map flags. */
  const BPF_F_NUMA_NODE: bv32 := 4
  /** `sizeof(int)`, the size of every key and every value. */
  const INT_SIZE: UInt32 := 4
  /** The map's capacity, `max_entries` in `main`. */
  const MAX_ENTRIES: UInt32 := 10

  /** The fields of `struct bpf_map_info` that the probe reads. */
  datatype MapInfo = MapInfo(
    mapType: UInt32,
    keySize: UInt32,
    valueSize: UInt32,
    maxEntries: UInt32,
    mapFlags: bv32)

  /** The attributes `main` passes when it creates the map. */
  const CreateAttr: MapInfo :=
    MapInfo(BPF_MAP_TYPE_HASH, INT_SIZE, INT_SIZE, MAX_ENTRIES, BPF_F_NO_PREALLOC | BPF_F_NUMA_NODE)

  /** The schema checks, one per way the reported info can disagree with the
      created map. */
  datatype SchemaError =
    | WrongType
    | WrongKeySize
    | WrongValueSize
    | WrongMaxEntries
    | NoPreallocUnset
    | NumaNodeUnset

  /** Position of a check in the order `main` runs them. */
  function Rank(e: SchemaError): nat
  {
    match e
    case WrongType => 0
    case WrongKeySize => 1
    case WrongValueSize => 2
    case WrongMaxEntries => 3
    case NoPreallocUnset => 4
    case NumaNodeUnset => 5
  }

  /** The reported info passes check `e` on its own. */
  predicate Passes(info: MapInfo, e: SchemaError)
  {
    match e
    case WrongType => info.mapType == CreateAttr.mapType
    case WrongKeySize => info.keySize == CreateAttr.keySize
    case WrongValueSize => info.valueSize == CreateAttr.valueSize
    case WrongMaxEntries => info.maxEntries == CreateAttr.maxEntries
    case NoPreallocUnset => info.mapFlags & BPF_F_NO_PREALLOC == BPF_F_NO_PREALLOC
    case NumaNodeUnset => info.mapFlags & BPF_F_NUMA_NODE == BPF_F_NUMA_NODE
  }

  /** The reported info describes the map as created: same type, sizes and
      capacity, and every flag it was created with still set. Flags it was not
      created with are not looked at. */
  predicate MatchesCreated(info: MapInfo)
  {
    && info.mapType == CreateAttr.mapType
    && info.keySize == CreateAttr.keySize
    && info.valueSize == CreateAttr.valueSize
    && info.maxEntries == CreateAttr.maxEntries
    && info.mapFlags & CreateAttr.mapFlags == CreateAttr.mapFlags
  }

  /** The chain of checks `main` runs on the info record after resume; the
      first that fails is reported, and none is reported when all pass. */
  function CheckSchema(info: MapInfo): (r: Option<SchemaError>)
    ensures r.None? <==> MatchesCreated(info)
    ensures r.Some? ==> !Passes(info, r.value)
  {
    if info.mapType != BPF_MAP_TYPE_HASH then Some(WrongType)
    else if info.keySize != INT_SIZE then Some(WrongKeySize)
    else if info.valueSize != INT_SIZE then Some(WrongValueSize)
    else if info.maxEntries != MAX_ENTRIES then Some(WrongMaxEntries)
    else if info.mapFlags & BPF_F_NO_PREALLOC == 0 then Some(NoPreallocUnset)
    else if info.mapFlags & BPF_F_NUMA_NODE == 0 then Some(NumaNodeUnset)
    else None
  }

  /** The reported mismatch is the first failing check in the order `main`
      runs them: every earlier check passed, so each single mismatch sends the
      run to its error exit before any later check or the content lookup. */
  lemma FirstFailingCheckReported(info: MapInfo, e: SchemaError)
    requires CheckSchema(info).Some?
    requires Rank(e) < Rank(CheckSchema(info).value)
    ensures Passes(info, e)
  {
  }

  /** The check chain accepts exactly when each check, taken on its own,
      passes. */
  lemma AcceptedIffEveryCheckPasses(info: MapInfo)
    ensures CheckSchema(info).None? <==> forall e :: Passes(info, e)
  {
  }

  /** Schema round trip: the info of a map that kept its creation attributes
      passes every check. */
  lemma CreatedSchemaAccepted(info: MapInfo)
    requires info == CreateAttr
    ensures CheckSchema(info) == None
  {
  }

  /** Flag bits outside the two the map was created with never change the
      outcome of the schema check. */
  lemma OtherFlagBitsIgnored(info: MapInfo, flags: bv32)
    requires flags & CreateAttr.mapFlags == info.mapFlags & CreateAttr.mapFlags
    ensures CheckSchema(info.(mapFlags := flags)) == CheckSchema(info)
  {
  }

  /** A single drifted field is reported as that field's mismatch: when
      check `e` is the only one that fails, `e` is what the chain reports. */
  lemma SingleDriftReported(info: MapInfo, e: SchemaError)
    requires !Passes(info, e)
    requires forall e' :: e' != e ==> Passes(info, e')
    ensures CheckSchema(info) == Some(e)
  {
    var r := CheckSchema(info);
    assert r.Some? by {
      AcceptedIffEveryCheckPasses(info);
    }
    assert !Passes(info, r.value);
  }
}
