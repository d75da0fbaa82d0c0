/** The `show` subcommand: which records of a decoded profile are fed to
    the profile summary, which are shown, and what is reported for each
    shown one. Printing is replaced by returning the reported values. */
module Show {
  import opened Wrappers
  import opened Types
  import opened Seqs

  // ---------------------------------------------------------------------
  // Substring matching (`str::contains`, `check_function`)
  // ---------------------------------------------------------------------

  /** `p` occurs in `s` starting at position `i`. */
  ghost predicate OccursAt(p: string, s: string, i: int) {
    0 <= i <= |s| - |p| && s[i..i + |p|] == p
  }

  /** `p` occurs in `s` at some position. */
  ghost predicate IsSubstring(p: string, s: string) {
    exists i :: OccursAt(p, s, i)
  }

  /** Moving the window one character right: `p` occurs in `s` but not as
      its prefix exactly when it occurs in the tail of `s`. */
  lemma SubstringOfTail(p: string, s: string)
    requires |p| <= |s| && s[..|p|] != p
    ensures IsSubstring(p, s) <==> IsSubstring(p, s[1..])
  {
    if IsSubstring(p, s) {
      var i :| OccursAt(p, s, i);
      assert i != 0;
      assert s[1..][i - 1..i - 1 + |p|] == p;
      assert OccursAt(p, s[1..], i - 1);
    }
    if IsSubstring(p, s[1..]) {
      var i :| OccursAt(p, s[1..], i);
      assert s[i + 1..i + 1 + |p|] == p;
      assert OccursAt(p, s, i + 1);
    }
  }

  /** `s.contains(p)`: scan the start positions of `s` left to right. */
  function Contains(s: string, p: string): (b: bool)
    ensures b <==> IsSubstring(p, s)
    decreases |s|
  {
    if |p| > |s| then false
    else if s[..|p|] == p then
      assert OccursAt(p, s, 0);
      true
    else
      SubstringOfTail(p, s);
      Contains(s[1..], p)
  }

  /** `check_function`: a function matches when both its name and the
      `--function` pattern are present and the pattern occurs in the name. */
  function CheckFunction(name: Option<string>, pattern: Option<string>): (b: bool)
    ensures b <==> pattern.Some? && name.Some? && IsSubstring(pattern.value, name.value)
  {
    match pattern
    case Some(pat) =>
      (match name
       case Some(n) => Contains(n, pat)
       case None => false)
    case None => false
  }

  /** No pattern matches nothing, an absent name matches nothing, and the
      empty pattern matches every present name. */
  lemma CheckFunctionEdgeCases(name: Option<string>, pattern: Option<string>, n: string)
    ensures !CheckFunction(name, None)
    ensures !CheckFunction(None, pattern)
    ensures CheckFunction(Some(n), Some(""))
  {
  }

  // ---------------------------------------------------------------------
  // Record selection
  // ---------------------------------------------------------------------

  /** The options of `ShowCommand` that affect which records are selected
      and what is reported for them. */
  datatype ShowOptions = ShowOptions(
    showCounts: bool,        // --counts
    allFunctions: bool,      // --all-functions
    icTargets: bool,         // --ic-targets
    memopSizes: bool,        // --memop-sizes
    showcs: bool,            // --showcs
    pattern: Option<string>  // --function
  )

  /** Records without a name or a hash are skipped. */
  predicate Usable(r: NamedRecord) {
    r.name.Some? && r.hash.Some?
  }

  /** A record reaches `summary.add_record`: it is usable and, in an IR-level
      profile, its context-sensitive flag agrees with `--showcs`. */
  predicate Summarized(isIr: bool, opts: ShowOptions, r: NamedRecord) {
    Usable(r) && (!isIr || HasCsFlag(r) == opts.showcs)
  }

  /** `--all-functions`, or a name matching `--function`. */
  predicate Selected(opts: ShowOptions, r: NamedRecord) {
    opts.allFunctions || CheckFunction(r.name, opts.pattern)
  }

  /** A record is summarized and selected, so it is shown. */
  predicate IsShown(isIr: bool, opts: ShowOptions, r: NamedRecord) {
    Summarized(isIr, opts, r) && Selected(opts, r)
  }

  function SummarizedBy(isIr: bool, opts: ShowOptions): NamedRecord -> bool {
    r => Summarized(isIr, opts, r)
  }

  function SelectedBy(opts: ShowOptions): NamedRecord -> bool {
    r => Selected(opts, r)
  }

  function ShownBy(isIr: bool, opts: ShowOptions): NamedRecord -> bool {
    r => IsShown(isIr, opts, r)
  }

  /** The records fed to the summary, in profile order. */
  function SummaryRecords(isIr: bool, opts: ShowOptions, rs: seq<NamedRecord>): seq<NamedRecord> {
    Filter(rs, SummarizedBy(isIr, opts))
  }

  /** The records shown, in profile order. */
  function ShownRecords(isIr: bool, opts: ShowOptions, rs: seq<NamedRecord>): seq<NamedRecord> {
    Filter(rs, ShownBy(isIr, opts))
  }

  /** A record with no name or no hash is neither summarized nor shown. */
  lemma UnusableNeverListed(isIr: bool, opts: ShowOptions, rs: seq<NamedRecord>, r: NamedRecord)
    requires !Usable(r)
    ensures r !in SummaryRecords(isIr, opts, rs)
    ensures r !in ShownRecords(isIr, opts, rs)
  {
  }

  /** In an IR-level profile every summarized record has its flag equal to
      `--showcs`; in a front-end profile `--showcs` changes nothing. */
  lemma CsFilterOnlyForIr(isIr: bool, opts: ShowOptions, rs: seq<NamedRecord>)
    ensures isIr ==> forall r :: r in SummaryRecords(isIr, opts, rs) ==> HasCsFlag(r) == opts.showcs
    ensures !isIr ==> SummaryRecords(isIr, opts, rs) == SummaryRecords(isIr, opts.(showcs := !opts.showcs), rs)
    ensures !isIr ==> ShownRecords(isIr, opts, rs) == ShownRecords(isIr, opts.(showcs := !opts.showcs), rs)
  {
    if isIr {
      forall r | r in SummaryRecords(isIr, opts, rs)
        ensures HasCsFlag(r) == opts.showcs
      {
        FilterMembership(rs, SummarizedBy(isIr, opts), r);
      }
    } else {
      var flipped := opts.(showcs := !opts.showcs);
      FilterSame(rs, SummarizedBy(isIr, opts), SummarizedBy(isIr, flipped));
      FilterSame(rs, ShownBy(isIr, opts), ShownBy(isIr, flipped));
    }
  }

  /** Showing is a further selection among the summarized records, so no
      more records are shown than summarized, and no more summarized than
      the profile holds. */
  lemma ShownAreSummarized(isIr: bool, opts: ShowOptions, rs: seq<NamedRecord>)
    ensures ShownRecords(isIr, opts, rs) == Filter(SummaryRecords(isIr, opts, rs), SelectedBy(opts))
    ensures |ShownRecords(isIr, opts, rs)| <= |SummaryRecords(isIr, opts, rs)| <= |rs|
  {
    FilterFilter(rs, SummarizedBy(isIr, opts), SelectedBy(opts), ShownBy(isIr, opts));
  }

  /** With `--all-functions` every summarized record is shown; without it,
      exactly the summarized records whose name contains the `--function`
      pattern are, and none at all when no pattern is given. */
  lemma SelectionRule(isIr: bool, opts: ShowOptions, rs: seq<NamedRecord>)
    ensures opts.allFunctions ==> ShownRecords(isIr, opts, rs) == SummaryRecords(isIr, opts, rs)
    ensures !opts.allFunctions ==>
      forall r :: r in ShownRecords(isIr, opts, rs) <==>
        r in SummaryRecords(isIr, opts, rs) && opts.pattern.Some? && r.name.Some?
        && IsSubstring(opts.pattern.value, r.name.value)
    ensures !opts.allFunctions && opts.pattern.None? ==> ShownRecords(isIr, opts, rs) == []
  {
    if opts.allFunctions {
      FilterSame(rs, ShownBy(isIr, opts), SummarizedBy(isIr, opts));
    } else {
      forall r
        ensures r in ShownRecords(isIr, opts, rs) <==>
          r in SummaryRecords(isIr, opts, rs) && opts.pattern.Some? && r.name.Some?
          && IsSubstring(opts.pattern.value, r.name.value)
      {
        FilterMembership(rs, ShownBy(isIr, opts), r);
        FilterMembership(rs, SummarizedBy(isIr, opts), r);
      }
      if opts.pattern.None? {
        FilterKeepsNone(rs, ShownBy(isIr, opts));
      }
    }
  }

  // ---------------------------------------------------------------------
  // What is reported for a shown record
  // ---------------------------------------------------------------------

  /** The counters listed under "Block counts": the iteration skips the
      first slot of a front-end record, which holds the entry count. */
  function BlockCounts(isIr: bool, counts: seq<u64>): (b: seq<u64>)
    ensures isIr ==> b == counts
    ensures !isIr && |counts| > 0 ==> [counts[0]] + b == counts
    ensures !isIr && |counts| == 0 ==> b == []
  {
    var start := if isIr then 0 else 1;
    if start <= |counts| then counts[start..] else []
  }

  /** The values printed for one shown function. */
  datatype ShownFunction = ShownFunction(
    name: string,
    hash: bv64,
    numCounters: nat,
    functionCount: Option<u64>,      // front-end profiles only
    indirectCallSites: Option<nat>,  // with --ic-targets
    memOpCalls: Option<nat>,         // with --memop-sizes, when there are any
    blockCounts: Option<seq<u64>>    // with --counts
  )

  /** The report for one shown record. A front-end record must have its
      entry-count slot, which the source reads unconditionally. */
  function Describe(isIr: bool, opts: ShowOptions, r: NamedRecord): (f: ShownFunction)
    requires Usable(r)
    requires isIr || |Counts(r)| > 0
    ensures f.name == r.name.value && f.hash == r.hash.value
    ensures f.numCounters == |Counts(r)|
    ensures f.functionCount.Some? <==> !isIr
    ensures f.functionCount.Some? ==> f.functionCount.value == Counts(r)[0]
    ensures f.indirectCallSites.Some? <==> opts.icTargets
    ensures f.indirectCallSites.Some? ==> f.indirectCallSites.value == NumValueSites(r, IndirectCallTarget)
    ensures f.memOpCalls.Some? <==> opts.memopSizes && NumValueSites(r, MemOpSize) > 0
    ensures f.memOpCalls.Some? ==> f.memOpCalls.value == NumValueSites(r, MemOpSize) && f.memOpCalls.value > 0
    ensures f.blockCounts.Some? <==> opts.showCounts
    ensures f.blockCounts.Some? && isIr ==> f.blockCounts.value == Counts(r)
    ensures f.blockCounts.Some? && !isIr ==> [f.functionCount.value] + f.blockCounts.value == Counts(r)
  {
    var numMemopCalls := NumValueSites(r, MemOpSize);
    ShownFunction(
      r.name.value,
      r.hash.value,
      |Counts(r)|,
      if isIr then None else Some(Counts(r)[0]),
      if opts.icTargets then Some(NumValueSites(r, IndirectCallTarget)) else None,
      if opts.memopSizes && numMemopCalls > 0 then Some(numMemopCalls) else None,
      if opts.showCounts then Some(BlockCounts(isIr, Counts(r))) else None)
  }

  // ---------------------------------------------------------------------
  // The run
  // ---------------------------------------------------------------------

  /** What `show` reports: the instrumentation level, the records handed to
      the summary, and the shown functions (their number is `shown_funcs`). */
  datatype ShowReport = ShowReport(
    level: InstrumentationLevel,
    summarized: seq<InstrProfRecord>,
    shown: seq<ShownFunction>)

  /** Indexing the empty counter vector of a shown front-end record panics;
      `position` is the record's index in the profile. */
  datatype ShowPanic = CounterIndexOutOfBounds(position: nat)

  /** Shown in a front-end profile with no counters at all. */
  predicate Panics(isIr: bool, opts: ShowOptions, r: NamedRecord) {
    !isIr && IsShown(isIr, opts, r) && |Counts(r)| == 0
  }

  function RecordsOf(rs: seq<NamedRecord>): (s: seq<InstrProfRecord>)
    ensures |s| == |rs|
  {
    seq(|rs|, i requires 0 <= i < |rs| => rs[i].record)
  }

  /** `shown` is the report of the records `recs`, one entry each, in order. */
  ghost predicate Reports(isIr: bool, opts: ShowOptions, recs: seq<NamedRecord>, shown: seq<ShownFunction>) {
    && |shown| == |recs|
    && forall k :: 0 <= k < |recs| ==>
         IsShown(isIr, opts, recs[k]) && !Panics(isIr, opts, recs[k])
         && shown[k] == Describe(isIr, opts, recs[k])
  }

  /** One more record through the summary and show filters. */
  lemma SelectionStep(isIr: bool, opts: ShowOptions, prefix: seq<NamedRecord>, r: NamedRecord)
    ensures SummaryRecords(isIr, opts, prefix + [r])
         == SummaryRecords(isIr, opts, prefix) + (if Summarized(isIr, opts, r) then [r] else [])
    ensures ShownRecords(isIr, opts, prefix + [r])
         == ShownRecords(isIr, opts, prefix) + (if IsShown(isIr, opts, r) then [r] else [])
    ensures RecordsOf(SummaryRecords(isIr, opts, prefix) + [r])
         == RecordsOf(SummaryRecords(isIr, opts, prefix)) + [r.record]
  {
  }

  /** Extending the shown records by a record that is shown without
      panicking extends the report by its description. */
  lemma ReportsStep(isIr: bool, opts: ShowOptions, recs: seq<NamedRecord>, shown: seq<ShownFunction>, r: NamedRecord)
    requires Reports(isIr, opts, recs, shown)
    requires IsShown(isIr, opts, r) && !Panics(isIr, opts, r)
    ensures Reports(isIr, opts, recs + [r], shown + [Describe(isIr, opts, r)])
  {
  }

  /** `ShowCommand::run` over an already decoded profile. */
  method ShowRun(profile: Profile, opts: ShowOptions) returns (res: Result<ShowReport, ShowPanic>)
    ensures res.Failure? <==>
      exists i :: 0 <= i < |profile.records| && Panics(profile.isIr, opts, profile.records[i])
    ensures res.Failure? ==>
      var i := res.error.position;
      i < |profile.records| && Panics(profile.isIr, opts, profile.records[i])
      && forall j :: 0 <= j < i ==> !Panics(profile.isIr, opts, profile.records[j])
    ensures res.Success? ==>
      && res.value.level == GetLevel(profile)
      && res.value.summarized == RecordsOf(SummaryRecords(profile.isIr, opts, profile.records))
      && Reports(profile.isIr, opts, ShownRecords(profile.isIr, opts, profile.records), res.value.shown)
  {
    var rs := profile.records;
    var isIr := profile.isIr;
    var summarized: seq<InstrProfRecord> := [];
    var shown: seq<ShownFunction> := [];
    var i := 0;
    while i < |rs|
      invariant 0 <= i <= |rs|
      invariant forall j :: 0 <= j < i ==> !Panics(isIr, opts, rs[j])
      invariant summarized == RecordsOf(SummaryRecords(isIr, opts, rs[..i]))
      invariant Reports(isIr, opts, ShownRecords(isIr, opts, rs[..i]), shown)
    {
      var func := rs[i];
      assert rs[..i + 1] == rs[..i] + [func];
      SelectionStep(isIr, opts, rs[..i], func);
      if func.name.None? || func.hash.None? {
        i := i + 1;
        continue;
      }
      if isIr && HasCsFlag(func) != opts.showcs {
        i := i + 1;
        continue;
      }
      var show := opts.allFunctions || CheckFunction(func.name, opts.pattern);
      summarized := summarized + [func.record];
      if show {
        if !isIr && |Counts(func)| == 0 {
          return Failure(CounterIndexOutOfBounds(i));
        }
        ReportsStep(isIr, opts, ShownRecords(isIr, opts, rs[..i]), shown, func);
        shown := shown + [Describe(isIr, opts, func)];
      }
      i := i + 1;
    }
    assert rs[..i] == rs;
    res := Success(ShowReport(GetLevel(profile), summarized, shown));
  }
}
