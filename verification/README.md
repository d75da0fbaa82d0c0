# llvm-profparser: profile data model and `show` record selection

This project models two parts of `llvm-profparser`, a Rust reader for LLVM
instrumentation profiles, and proves properties of the model.

1. **The profile data model** (`types.dfy`, module `Types`):
   - the value-profile kinds and their array ordinals;
   - the symbol table that maps a function-name hash to the name;
   - the derived instrumentation level of a profile;
   - named records, including the context-sensitive ("CS") flag carried in
     bit 60 of a record's structural hash;
   - the per-kind value-site count of a record.
2. **The `show` command's record selection** (`show.dfy`, module `Show`):
   - `check_function`, the substring match against `--function`;
   - the loop of `ShowCommand::run`, modelled as `ShowRun`. It returns three
     things: the records handed to the profile summary, a description of each
     shown function, and the instrumentation level. Each description holds
     the printed values: name, hash, number of counters, entry count, site
     counts and block counts.

`seqs.dfy` (module `Seqs`) provides an order-preserving `Filter` and its
lemmas. `wrappers.dfy` provides `Option` and `Result`.

Modelling choices:
- The record hash is a `bv64`, so the flag code is modelled bit for bit.
- Counters, value samples and symbol-table keys use a `u64` newtype.
- The name hash used by `add_func_name` is a function parameter
  `hash: string -> u64`. In the source it is the first eight bytes of an MD5
  digest.
- `ShowRun` takes an already decoded `Profile` and the options that affect
  selection. Every `println!` is replaced by a value in the returned report.
- `summary.add_record` becomes "append the record to `summarized`".
- `--showcs` is documented only as "Show context sensitive counts"
  (src/main.rs:53). The code compares it with a record's CS flag only in
  IR-level profiles (src/main.rs:137): there a record is kept exactly when
  its flag equals `--showcs`; in front-end profiles the option has no
  effect. The model follows the code.
- Indexing `counts[0]` of a shown front-end record with no counters panics
  in Rust. The model returns `Failure(CounterIndexOutOfBounds(i))` for this
  case, where `i` is the position of the first such record.

## Model

| member | source | states |
|---|---|---|
| Types.Ordinal | src/instrumentation_profile/types.rs:5-15 | A kind's ordinal is below `len() == 2`, so it is a valid index into a per-kind array; ordinal 0 is `IndirectCallTarget` and only it |
| Types.OrdinalIsBijection | src/instrumentation_profile/types.rs:5-15 | Distinct kinds have distinct ordinals, and listing the kinds in order fills all `len()` slots, each kind in the slot its ordinal names |
| Types.AddFuncName | src/instrumentation_profile/types.rs:28-34 | After insertion the name is stored under its hash, even if another name was there before; the keys become the old keys plus that hash; other entries keep their names; the length grows by one only when the hash was new |
| Types.LookupAfterAdd | src/instrumentation_profile/types.rs:22-33 | Looking up the inserted name's hash gives the name back (last write wins); lookups of other hashes are unchanged; `len` grows by at most one |
| Types.HasCsFlag | src/instrumentation_profile/types.rs:103-106 | The flag reads true exactly when a hash is present and its bit 60 is one; an absent hash reads as false |
| Types.SetCsFlag | src/instrumentation_profile/types.rs:108-111 | Afterwards the hash is present and equals the old hash (0 if absent) ANDed with 60: it has no bit outside the mask 60, no bit the old hash lacked, and every bit of the old hash inside the mask survives. An absent hash becomes 0. A hash already inside the mask is unchanged. The CS flag then reads false. Name and counters are untouched |
| Types.SetCsFlagIdempotent | src/instrumentation_profile/types.rs:108-111 | Applying `set_cs_flag` twice gives the same record as applying it once |
| Types.SetCsFlagClearsFlag | src/instrumentation_profile/types.rs:91-111 | A record whose hash is exactly bit 60 has the CS flag before `set_cs_flag` and lacks it afterwards; its hash becomes 0 |
| Types.SetCsFlagIntended | src/instrumentation_profile/types.rs:103-111 | The OR-based setter leaves the CS flag reading true, keeps every other bit of the old hash, and keeps name and counters |
| Types.SetCsFlagIntendedKeepsFlagged | src/instrumentation_profile/types.rs:103-111 | The OR-based setter is idempotent and does not change a record that already has the flag |
| Types.NumValueSites | src/instrumentation_profile/types.rs:93-101 | The count is 0 without value-profile data. Otherwise it is the number of sites in the kind's slot of the per-kind array, at the kind's ordinal |
| Types.SetCsFlagKeepsCounters | src/instrumentation_profile/types.rs:108-115 | `set_cs_flag` leaves the record's `counts()` and its value-site counts of every kind unchanged |
| Types.GetLevel | src/instrumentation_profile/types.rs:73-79 | The level is IR exactly when the profile's IR flag is set, and front-end otherwise |
| Show.Contains | src/main.rs:120 | The left-to-right scan answers true exactly when the pattern occurs in the name at some position |
| Show.CheckFunction | src/main.rs:118-123 | A function matches exactly when both the pattern and the name are present and the pattern occurs in the name |
| Show.CheckFunctionEdgeCases | src/main.rs:118-123 | With no pattern nothing matches; an absent name never matches; the empty pattern matches every present name |
| Show.UnusableNeverListed | src/main.rs:133-136 | A record without a name or without a hash is neither fed to the summary nor shown |
| Show.CsFilterOnlyForIr | src/main.rs:131-139 | In an IR-level profile every summarized record's CS flag equals `--showcs`. In a front-end profile, flipping `--showcs` changes neither the summarized nor the shown records |
| Show.ShownAreSummarized | src/main.rs:140-147 | The shown records are exactly the summarized records that pass the show rule, in the same order; so shown ≤ summarized ≤ all records |
| Show.SelectionRule | src/main.rs:140-141 | With `--all-functions` the shown records equal the summarized ones. Without it, a record is shown exactly when it is summarized and its name contains the `--function` pattern. With no pattern, nothing is shown |
| Show.BlockCounts | src/main.rs:174-183 | IR profiles list every counter. Front-end profiles list every counter after the entry slot, so the entry count followed by the list rebuilds the counter vector. An empty vector lists nothing |
| Show.Describe | src/main.rs:148-183 | A shown function reports its name, hash and counter count. The entry count `counts[0]` is reported for front-end profiles only. The indirect-call site count is reported with `--ic-targets`. The memory-intrinsic count is reported with `--memop-sizes` when it is non-zero. Block counts are reported with `--counts`; for front-end profiles, entry count plus block counts rebuild the counters |
| Show.ShowRun | src/main.rs:126-193 | The run fails exactly when some shown front-end record has no counters, and the failure names the first such record. Otherwise it reports the profile's level, passes to the summary exactly the filtered records in profile order, and describes exactly the shown records in order |

## Findings

| source | as written | input that shows it | evidently intended | confidence | as-written member | corrected member |
|---|---|---|---|---|---|---|
| src/instrumentation_profile/types.rs:108-111 | `set_cs_flag` ANDs the hash with the constant 60. That constant is the bit position, not the bit mask. The result keeps only bits 2..5, so the CS bit (bit 60) always ends up clear | a record with hash `1 << 60`: the flag reads true before and false after, and the hash becomes 0 | OR in the single bit `1 << 60`, leaving the other bits alone | high (not executed) | Types.SetCsFlagClearsFlag | Types.SetCsFlagIntended |

`Types.SetCsFlag` models the code as written. No other part of the model
calls either setter, because `ShowCommand::run` only reads the flag.

## Left out

- The MD5 digest in `add_func_name`: a foreign crypto call, replaced by the `hash` parameter.
- Command-line parsing (`Command`, `ShowCommand`, `MergeCommand`, `OverlapCommand`, `Opts`) and the `main` dispatch. This is argument glue. `main` panics for every command except `show`. Only the options that affect record selection are in `ShowOptions`.
- The merge and overlap commands: the `main` dispatch panics for them, so no merging or overlap code is modelled.
- `parse`: decoding the input file is not part of this model. `ShowRun` starts from a decoded `Profile`, and the parse error path is not modelled.
- `ProfileSummary`: it is not part of this model. Its statistics (function count, maximum counts) are left out; the model records which records are handed to it.
- `ValueSiteStats::traverse_sites` and the statistics it prints: not part of this model. Only the site counts printed alongside are modelled.
- All printed text, including the `Display` of `InstrumentationLevel`. The model returns the values instead of formatting them.
- `--topn` and `--show_detailed_summary`: stubs that compute nothing. `--text`, `--detailed_summary_cutoffs`, `--show_hot_fn_list`, `--output`, `--value_cutoff`, `--only_list_below`, `--show_profile_sym_list` and `--show_section_info_only` are parsed but never read by `run`.
- `ValueProfData`: an unused struct with no behaviour.
- The `version` and `has_csir` accessors: plain field reads. The fields are kept in `Profile`.
- `Symtab::len` and `NamedInstrProfRecord::counts` are plain field reads, modelled as `Types.Len` and `Types.Counts` without contracts of their own. Their meaning is stated where they are used: `Types.AddFuncName` and `Types.LookupAfterAdd` for `len`, `Show.BlockCounts`, `Show.Describe` and `Types.SetCsFlagKeepsCounters` for `counts`.
