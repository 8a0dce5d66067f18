# apex-stats query engine, modelled in Dafny

This project models the core of `apex-stats`, a small tool that logs one
`Observation` per Apex Legends match (kills, damage, squad position, legend,
squad type, notes, time) and answers aggregate queries over the log.

Modelled:

- **`Apex`** (`apex.dfy`, from `src/apex.rs`): the nine `Legend`s and the
  `SquadType`s. It also models the two `from_str` parsers and their error
  payloads. Both parsers lower-case the input, trim it, and match it against
  a closed word list. On failure they return an error that carries the raw
  input.
- **`Observations`** (`observation.dfy`, from `src/observation.rs`): the
  `Observation` record and the placement predicates `IsWin`, `IsTopThree`
  and `IsLast`.
- **`Stats`** (`stats.dfy`, from `src/stats.rs`): `QueryResult`, and the
  `Query` builder as an immutable value with its builder functions.
  `Execute` is written the way the source computes it: four chained filters
  (`FilterChain`), then a left fold (`Fold`/`Step`). Its contract states the
  answer against a reference semantics: `Matches`, the four conditions
  AND-combined; `Matching`, the subsequence of records that match; and
  `Sum`/`Max` over that subsequence.
- **`StatsProperties`** (`stats_properties.dfy`): properties of `Execute`:
  - "no data" exactly when nothing matches;
  - the maxima are attained;
  - an empty legend or squad-type set restricts nothing;
  - the time bounds are strict;
  - builder laws;
  - the source's five unit tests over its four-record fixture.
- **`Wrappers`** (`wrappers.dfy`): `Option` and `Result`.

Representation choices:

- The log is the `records: seq<Observation>` argument of `Execute`.
- Timestamps are integer instants in any order-preserving unit (for
  example nanoseconds since the epoch), since the filters only compare
  them. The fixture's instants are whole seconds and are written in seconds;
  scaling them to a finer unit keeps their order.
- The `u64` counters are `nat`.
- Strings are `seq<char>`.

## Model

| member | source | states |
|---|---|---|
| Apex.ToLower | src/apex.rs:43 | lower-casing keeps the length and maps each character independently (ASCII letters to their lower case, all else unchanged) |
| Apex.TrimStart | src/apex.rs:43 | the result is the suffix left after dropping only whitespace, and it does not start with whitespace |
| Apex.TrimEnd | src/apex.rs:43 | the result is the prefix left after dropping only whitespace, and it does not end with whitespace |
| Apex.TrimPadded | src/apex.rs:43 | whitespace added on either side of any string does not change what `trim` returns |
| Apex.Normalize | src/apex.rs:43 | the match key (lower-case, then trim) holds no upper-case ASCII letter and neither starts nor ends with whitespace; it is no longer than the input, a property of the ASCII lower-casing |
| Apex.NormalizeIdempotent | src/apex.rs:97 | normalising a match key again leaves it unchanged |
| Apex.NormalizeIgnoresCaseAndPadding | src/apex.rs:43 | two inputs that lower-case alike, one padded with whitespace, give the same match key |
| Apex.LegendOfKey | src/apex.rs:43-53 | the legend match table yields a legend exactly when the key is one of the nine names, and then the legend of that name |
| Apex.ParseLegend | src/apex.rs:39-56 | `Legend::from_str` succeeds exactly when the lower-cased, trimmed input names a legend, and then returns that legend; otherwise the error carries the unmodified input |
| Apex.LegendOfName | src/apex.rs:44-52 | every legend's name is a non-empty lower-case word, and the match table maps it back to that legend |
| Apex.ParseLegendName | src/apex.rs:44-52 | round trip: parsing a legend's canonical name returns that legend |
| Apex.ParseLegendIgnoresCaseAndPadding | src/apex.rs:42-55 | legend parsing is case-insensitive and ignores surrounding whitespace: it succeeds on both inputs or on neither, with the same legend |
| Apex.SquadTypeOfKey | src/apex.rs:97-102 | the squad-type match table yields a type exactly for "solo", "duo" and "trio", and never `Unknown` |
| Apex.ParseSquadType | src/apex.rs:93-104 | `SquadType::from_str` succeeds exactly when the normalised input is "solo", "duo" or "trio", never returns `Unknown`, and otherwise returns an error carrying the unmodified input |
| Apex.SquadTypeOfName | src/apex.rs:98-100 | the names of `Solo`, `Duo` and `Trio` are lower-case words that the match table maps back to those types |
| Apex.ParseSquadTypeName | src/apex.rs:98-100 | round trip: parsing "solo", "duo" or "trio" returns `Solo`, `Duo` or `Trio` |
| Apex.ParseSquadTypeIgnoresCaseAndPadding | src/apex.rs:96-103 | squad-type parsing is case-insensitive and ignores surrounding whitespace |
| Apex.UnknownIsNotParsed | src/apex.rs:89-101 | the stored word "unknown", in any case and with any padding, is rejected with an error carrying the raw input |
| Apex.LegendErrorMessage | src/apex.rs:31-35 | the legend error text ends with the rejected input, verbatim |
| Apex.SquadTypeErrorMessage | src/apex.rs:69-77 | the squad-type error text quotes the rejected input verbatim after its fixed 20-character lead-in |
| Observations.IsTopThree | src/observation.rs:34-36 | there is no lower bound, so position 0 counts as top three |
| Observations.IsWin | src/observation.rs:30-32 | every win is a top-three finish |
| Observations.IsLast | src/observation.rs:38-40 | a last-place finish (position 20 or more, whatever the lobby size) is neither a win nor a top-three finish |
| Observations.PlacementBands | src/observation.rs:29-41 | win implies top three; top three and last never overlap; exactly positions 4 to 19 are neither; position 0 counts as top three but not as a win |
| Stats.NewQuery | src/stats.rs:36-43 | a fresh query accepts every record |
| Stats.MatchLegend | src/stats.rs:45-49 | adds exactly one legend to the accepted set and leaves the other three fields alone |
| Stats.MatchLegends | src/stats.rs:51-58 | grows the accepted legends by exactly the listed legends and leaves the other fields alone |
| Stats.MatchSquadType | src/stats.rs:60-64 | adds exactly one squad type to the accepted set and leaves the other three fields alone |
| Stats.MatchSquadTypes | src/stats.rs:66-73 | grows the accepted squad types by exactly the listed types and leaves the other fields alone |
| Stats.After | src/stats.rs:75-79 | sets the lower bound to the given instant, replacing any earlier one, and leaves the other fields alone |
| Stats.Before | src/stats.rs:81-85 | sets the upper bound to the given instant, replacing any earlier one, and leaves the other fields alone |
| Stats.Keep | src/stats.rs:88-112 | one `filter` stage returns only records of its input that satisfy its predicate, every such record appears, and it never grows the input |
| Stats.KeepCounts | src/stats.rs:88-112 | one `filter` stage keeps every copy of a record that satisfies its predicate and no copy of one that does not, so identical records are each counted |
| Stats.Max | src/stats.rs:116-126 | the running maximum bounds every value, is 0 for no records, and otherwise is attained by some record |
| Stats.FilterChainIsMatching | src/stats.rs:88-112 | the four chained filters keep exactly the records that satisfy the conjunction of the four conditions, in order |
| Stats.FoldComputesTotals | src/stats.rs:113-136 | the fold adds the exact damage and kill sums to the totals and the record count to the count, and raises the maxima to the records' maxima |
| Stats.Execute | src/stats.rs:87-151 | `None` exactly when no record matches; otherwise the count, the damage and kill totals, and the damage and kill maxima of exactly the matching records |
| StatsProperties.ExecuteNoneIffNothingMatches | src/stats.rs:138-139 | "no data" is returned exactly when no input record passes all four filters, and never as a zero-filled result |
| StatsProperties.ExecuteMaximaAreAttained | src/stats.rs:116-126 | each returned maximum is at least every matching record's value and equals some matching record's value |
| StatsProperties.UnrestrictedQueryCoversAll | src/stats.rs:36-43 | a fresh query answers "no data" only for an empty log, and otherwise counts, sums and maximises over every record |
| StatsProperties.EmptyLegendSetAcceptsAll | src/stats.rs:89-95 | an empty legend set gives the same answer as the set of all nine legends |
| StatsProperties.EmptySquadTypeSetAcceptsAll | src/stats.rs:96-102 | an empty squad-type set gives the same answer as the set of all four squad types |
| StatsProperties.NonEmptySetsAdmitMembers | src/stats.rs:89-102 | for any query, a non-empty legend set admits exactly its members on that dimension, and likewise a non-empty squad-type set: the record matches exactly when it is a member and passes the query with that set emptied |
| StatsProperties.BoundsAreStrict | src/stats.rs:103-112 | every matching record lies strictly before `before` and strictly after `after` when they are set, so never exactly on a bound |
| StatsProperties.RecordOnBoundIsDropped | src/stats.rs:103-112 | a record lying exactly on either bound is dropped: alone, it yields "no data" |
| StatsProperties.MatchLegendIdempotent | src/stats.rs:45-49 | adding the same legend twice equals adding it once |
| StatsProperties.MatchSquadTypeIdempotent | src/stats.rs:60-64 | adding the same squad type twice equals adding it once |
| StatsProperties.MatchListsIgnoreOrderAndDuplicates | src/stats.rs:51-73 | the list builders give the same query for any two lists with the same members |
| StatsProperties.LaterBoundReplaces | src/stats.rs:75-85 | a second `after` or `before` replaces the first |
| StatsProperties.FixtureUnfiltered | src/stats.rs:205-219 | the unrestricted query over the fixture gives {1032, 9, 2566, 18, 4} |
| StatsProperties.FixtureOnlySolo | src/stats.rs:221-235 | the solo query over the fixture gives {891, 5, 1014, 6, 2} |
| StatsProperties.FixtureOnlyNonSolo | src/stats.rs:237-251 | the duo-and-trio query over the fixture gives {1032, 9, 1552, 12, 2} |
| StatsProperties.FixtureOnlySoloWraith | src/stats.rs:253-269 | the solo Wraith query over the fixture gives {123, 1, 123, 1, 1} |
| StatsProperties.FixtureAfterAndBefore | src/stats.rs:271-287 | the time-window query over the fixture gives {123, 1, 123, 1, 1}: the record exactly at `before` is dropped |

## Left out

- The floating-point averages (`average_damager_per_round`, `average_kills_per_round`, and the unused `f64` locals in `execute`) are left out because they are float division.
- Stats.Execute: the totals are unbounded naturals. The source adds `u64` values, which panics on overflow in debug builds and wraps around in release builds; neither is modelled.
- Apex.ToLower: lower-cases the ASCII range only; Rust's `to_lowercase` covers all of Unicode. The two agree on acceptance as far as the word lists go: all the words are ASCII, and the one non-ASCII character whose Unicode lower case is an ASCII letter (KELVIN SIGN, to `k`) occurs in none of them.
- Apex.Normalize: builds the key with the ASCII-only `ToLower`, so on non-ASCII input its content and length can differ from `s.to_lowercase().trim()` (Rust lower-cases `É` to `é` and `İ` to two characters). Which inputs are accepted, and as what, does not differ.
- The record store (`src/backend/mod.rs`, `src/backend/csv_log.rs`) is left out: it is CSV file I/O through foreign crates. `all_records` is not implemented in the source, and `CSVLog::record` does not match the `Backend` trait's signature. The log is the `seq<Observation>` given to `Execute`.
- The CSV column names (serde renames) are left out with the store. `SquadType`'s variants are serde-renamed to lower case (src/apex.rs:83-90), but `Legend` has no rename (src/apex.rs:7-18), so the store would write `Bangalore`; the model uses the parser's lower-case words.
- The interactive prompt (`src/interface/`), the data-directory lookup (`src/config.rs`) and the wiring (`src/main.rs`, `src/lib.rs`) are left out: they are stdin/stdout and file-system I/O.
- Time zones (`chrono::DateTime<Local>`) are reduced to an integer instant, because only the order of instants is used.
