/** The in-memory profile data model: value-profile kinds, the symbol table,
    the profile, and named instrumentation records with their
    context-sensitive flag. */
module Types {
  import opened Wrappers

  /** Rust's `u64`. */
  newtype u64 = x: int | 0 <= x < 0x1_0000_0000_0000_0000

  // ---------------------------------------------------------------------
  // Value-profile kinds
  // ---------------------------------------------------------------------

  datatype ValueKind = IndirectCallTarget | MemOpSize

  /** `ValueKind::len()`: the number of kinds, used to size per-kind arrays. */
  const ValueKindLen: nat := 2

  /** The explicit discriminant of each kind (`IndirectCallTarget = 0`,
      `MemOpSize = 1`), the index of its slot in a per-kind array. */
  function Ordinal(k: ValueKind): (i: nat)
    ensures i < ValueKindLen
    ensures i == 0 <==> k == IndirectCallTarget
  {
    match k
    case IndirectCallTarget => 0
    case MemOpSize => 1
  }

  /** Every kind, in declaration order. */
  const AllKinds: seq<ValueKind> := [IndirectCallTarget, MemOpSize]

  /** The ordinals index a per-kind array exactly: distinct kinds get
      distinct slots, and listing the kinds in order puts each in the slot
      its ordinal names, filling all `len()` slots. */
  lemma OrdinalIsBijection()
    ensures forall a: ValueKind, b: ValueKind :: Ordinal(a) == Ordinal(b) ==> a == b
    ensures |AllKinds| == ValueKindLen
    ensures forall k: ValueKind :: k in AllKinds
    ensures forall i :: 0 <= i < |AllKinds| ==> Ordinal(AllKinds[i]) == i
  {
    forall k: ValueKind
      ensures k in AllKinds
    {
      assert AllKinds[Ordinal(k)] == k;
    }
  }

  // ---------------------------------------------------------------------
  // Symbol table
  // ---------------------------------------------------------------------

  /** Function-name hash to name. */
  datatype Symtab = Symtab(names: map<u64, string>)

  /** `Symtab::len` */
  function Len(t: Symtab): nat {
    |t.names|
  }

  /** Resolve a name hash back to the function name, if recorded. */
  function Lookup(t: Symtab, h: u64): (r: Option<string>)
    ensures r.Some? <==> h in t.names
    ensures r.Some? ==> r.value == t.names[h]
  {
    if h in t.names then Some(t.names[h]) else None
  }

  /** `Symtab::add_func_name`. The name's hash (the first eight bytes of its
      MD5 digest in the source) is supplied as `hash`. The name lands under
      its hash, replacing whatever name was there; every other entry is
      kept. */
  function AddFuncName(t: Symtab, name: string, hash: string -> u64): (r: Symtab)
    ensures hash(name) in r.names && r.names[hash(name)] == name
    ensures r.names.Keys == t.names.Keys + {hash(name)}
    ensures forall k :: k in t.names && k != hash(name) ==> r.names[k] == t.names[k]
    ensures Len(r) == if hash(name) in t.names then Len(t) else Len(t) + 1
  {
    var h := hash(name);
    Symtab(t.names[h := name])
  }

  /** Adding a name and looking up its hash returns that name, even when a
      different name was stored under the same hash before (last write wins). */
  lemma LookupAfterAdd(t: Symtab, name: string, hash: string -> u64, h: u64)
    ensures Lookup(AddFuncName(t, name, hash), hash(name)) == Some(name)
    ensures h != hash(name) ==> Lookup(AddFuncName(t, name, hash), h) == Lookup(t, h)
    ensures Len(t) <= Len(AddFuncName(t, name, hash)) <= Len(t) + 1
  {
  }

  // ---------------------------------------------------------------------
  // Records
  // ---------------------------------------------------------------------

  /** `InstrProfValueData`: one observed value and how often it was seen. */
  datatype ValueData = ValueData(value: u64, count: u64)

  /** `InstrProfValueSiteRecord`: the samples of one instrumented site. */
  type ValueSite = seq<ValueData>

  /** `ValueProfDataRecord`: the value sites of one function, per kind. */
  datatype ValueProfDataRecord =
    ValueProfDataRecord(indirectCallsites: seq<ValueSite>, memOpSizes: seq<ValueSite>)

  /** The sites of a payload laid out as an array indexed by kind ordinal. */
  function SitesByOrdinal(d: ValueProfDataRecord): (a: seq<seq<ValueSite>>)
    ensures |a| == ValueKindLen
  {
    [d.indirectCallsites, d.memOpSizes]
  }

  /** `InstrProfRecord`: counters (slot 0 is the entry count for front-end
      profiles) and an optional value-profile payload. */
  datatype InstrProfRecord = InstrProfRecord(counts: seq<u64>, data: Option<ValueProfDataRecord>)

  /** `NamedInstrProfRecord`. */
  datatype NamedRecord = NamedRecord(name: Option<string>, hash: Option<bv64>, record: InstrProfRecord)

  /** `CS_FLAG_IN_FUNC_HASH`. The source uses this one constant both as the
      bit position read by `has_cs_flag` and as the mask `set_cs_flag`
      ANDs into the hash. */
  const CsFlagInFuncHash: bv64 := 60

  /** Bit `i` of `h` is one. */
  predicate BitSet(h: bv64, i: nat)
    requires i < 64
  {
    h & (1 << i) != 0
  }

  /** `has_cs_flag`: an absent hash reads as 0. */
  function HasCsFlag(r: NamedRecord): (b: bool)
    ensures b <==> r.hash.Some? && BitSet(r.hash.value, 60)
  {
    var hash := r.hash.GetOr(0);
    ((hash >> CsFlagInFuncHash) & 1) != 0
  }

  /** `set_cs_flag`, as the source writes it: an absent hash becomes 0, then
      the hash is ANDed with the constant 60. The result keeps only bits 2..5
      of the old hash, so the context-sensitive bit ends up clear. */
  function SetCsFlag(r: NamedRecord): (s: NamedRecord)
    ensures s.hash.Some?
    ensures s.hash.value & !CsFlagInFuncHash == 0
    ensures s.hash.value & r.hash.GetOr(0) == s.hash.value
    ensures s.hash.value | (r.hash.GetOr(0) & !CsFlagInFuncHash) == r.hash.GetOr(0)
    ensures r.hash.Some? && r.hash.value & !CsFlagInFuncHash == 0 ==> s.hash == r.hash
    ensures r.hash.None? ==> s.hash == Some(0)
    ensures !HasCsFlag(s)
    ensures s.name == r.name && s.record == r.record
  {
    var x := r.hash.GetOr(0);
    r.(hash := Some(x & CsFlagInFuncHash))
  }

  /** Setting the flag a second time changes nothing. */
  lemma SetCsFlagIdempotent(r: NamedRecord)
    ensures SetCsFlag(SetCsFlag(r)) == SetCsFlag(r)
  {
  }

  /** A record whose hash already carries the context-sensitive bit loses it
      when `set_cs_flag` is applied. */
  lemma SetCsFlagClearsFlag()
    ensures var r := NamedRecord(Some("f"), Some(1 << 60), InstrProfRecord([], None));
            HasCsFlag(r) && !HasCsFlag(SetCsFlag(r)) && SetCsFlag(r).hash == Some(0)
  {
  }

  /** The setter the reserved-bit comment on `CS_FLAG_IN_FUNC_HASH` implies:
      OR in the single bit 60 (an absent hash still starts from 0). */
  function SetCsFlagIntended(r: NamedRecord): (s: NamedRecord)
    ensures HasCsFlag(s)
    ensures s.hash.Some? && s.hash.value & !(1 << 60) == r.hash.GetOr(0) & !(1 << 60)
    ensures s.name == r.name && s.record == r.record
  {
    var x := r.hash.GetOr(0);
    r.(hash := Some(x | (1 << 60)))
  }

  /** The corrected setter is idempotent and leaves a flagged hash alone. */
  lemma SetCsFlagIntendedKeepsFlagged(r: NamedRecord)
    ensures SetCsFlagIntended(SetCsFlagIntended(r)) == SetCsFlagIntended(r)
    ensures HasCsFlag(r) ==> SetCsFlagIntended(r) == r
  {
  }

  /** `num_value_sites`: 0 without a payload, otherwise the number of sites
      of the requested kind. */
  function NumValueSites(r: NamedRecord, kind: ValueKind): (n: nat)
    ensures r.record.data.None? ==> n == 0
    ensures r.record.data.Some? ==> n == |SitesByOrdinal(r.record.data.value)[Ordinal(kind)]|
  {
    match r.record.data
    case None => 0
    case Some(d) =>
      match kind
      case IndirectCallTarget => |d.indirectCallsites|
      case MemOpSize => |d.memOpSizes|
  }

  /** `counts`: the record's counter slice. */
  function Counts(r: NamedRecord): seq<u64> {
    r.record.counts
  }

  /** `set_cs_flag` touches only the hash: counters and value sites are what
      they were. */
  lemma SetCsFlagKeepsCounters(r: NamedRecord, kind: ValueKind)
    ensures Counts(SetCsFlag(r)) == Counts(r)
    ensures NumValueSites(SetCsFlag(r), kind) == NumValueSites(r, kind)
  {
  }

  // ---------------------------------------------------------------------
  // Profile
  // ---------------------------------------------------------------------

  datatype InstrumentationLevel = FrontEnd | Ir

  /** `InstrumentationProfile`. */
  datatype Profile = Profile(
    version: Option<u64>,
    hasCsir: bool,
    isIr: bool,
    records: seq<NamedRecord>,
    symtab: Symtab)

  /** `get_level`: derived from the IR flag alone. */
  function GetLevel(p: Profile): (l: InstrumentationLevel)
    ensures l == Ir <==> p.isIr
    ensures l == FrontEnd <==> !p.isIr
  {
    if p.isIr then Ir else FrontEnd
  }
}
