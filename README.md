# Portland STV ensemble bookkeeping, in Dafny

This project models the bookkeeping that the two `etools_zbz.py` driver modules
of the Portland replication study wrap around their simulated ranked-choice
(STV) elections. One module has three voter blocs: candidates of colour `C`,
White progressive `WP` and White moderate `WM`. The other has two blocs, `C`
and White `W`. Both do the same work:

- they cut each bloc's slate from a fixed pool of ten names (`C1` … `C10`, …);
- in each of the four Portland zones they run a number of trials, and after
  each trial they count how many winners each bloc took (`count_winners`);
- they append those counts to the zone's per-bloc lists (`simulate_ensembles`);
- they add the zones' lists element by element into city-wide lists
  (`condense_results`);
- they also define `convert_tuples_in_keys`, which replaces every dictionary
  key (ints and other non-strings included) by its `str()` and every tuple
  value by its `str()`, recursing through dict values and list elements, so a
  structure can be written as JSON; no code in the repository files modelled
  here calls it, but it is modelled all the same.

Ballot generation and the STV count run in an external library. Here they are
one opaque parameter, `Winners.TrialFn`: given the zone number, the zone's bloc
shares, the slates and the trial index, it returns the winner sets of that
trial. Everything else is modelled as the code does it:

- the nested counting loop;
- the zone and trial loops;
- the accumulator dictionary with numpy's broadcasting `np.add`;
- Python's `s[:k]` slicing, including negative `k`;
- dict comprehensions whose later keys overwrite earlier ones.

A Python exception is an `Option` value `None`. These calls in the modelled
code can raise (errors inside the external library are not modelled; see
"Left out"):

- `condense_results` raises KeyError when there were no trials, because no zone
  then has the generator's `"sp"` entry; `simulate_ensembles` then raises too
  and returns nothing, so its model returns `None` for the whole call;
- `condense_results` raises KeyError for a bloc tag it does not know;
- `np.add` raises ValueError when two shapes cannot be broadcast together.

Two IndexError paths are excluded by contracts instead (see "Left out"): a
`candidates` list too short for the slate sizes it is indexed at, and an empty
candidate name.

Files:

- `pyops.dfy` (module `PyOps`): `Option`, Python prefix slicing, and `np.add`
  on one-dimensional arrays.
- `winners.dfy` (module `Winners`):
  - candidate names and the trial function;
  - the specification of `count_winners` (`Count`), parametrised by the name
    test;
  - the per-trial count lists;
  - the cover lemmas.
- `tally.dfy` (module `Tally`): zone records, the specification `Condense`
  and the `condense_results` loop. Both variants share this code; they differ
  only in the tags their sum starts from.
- `keyconversion.dfy` (module `KeyConversion`): `convert_tuples_in_keys` over
  a Python value datatype.
- `threebloc.dfy` and `twobloc.dfy` (modules `ThreeBloc`, `TwoBloc`): for each
  variant:
  - the pool, the zone shares and the name test;
  - `count_winners` as a method;
  - the slates;
  - `simulate_ensembles` as methods proved against `PlanResults` and
    `Condense`;
  - the properties of the whole run.

## Model

| member | source | states |
|---|---|---|
| PyOps.PySliceTo | Cluster_Work/1000_Elections_Final/3_Bloc/etools_zbz.py:69-71 | `s[:k]` is a prefix of `s`. Its length is `min(k, len(s))` for `k >= 0` and `max(0, len(s)+k)` for negative `k`. |
| PyOps.NpAdd | Cluster_Work/1000_Elections_Final/3_Bloc/etools_zbz.py:162 | `np.add` of two 1-D arrays succeeds exactly when their shapes are broadcast-compatible (equal, or one of them is 1). Otherwise it raises. |
| PyOps.NpAddBroadcasts | Cluster_Work/1000_Elections_Final/3_Bloc/etools_zbz.py:162 | A successful `np.add` has the broadcast length. Each entry is the sum of the broadcast operands at that index. |
| Winners.CountSnoc | Cluster_Work/1000_Elections_Final/3_Bloc/etools_zbz.py:175-178 | One more winner set adds exactly that set's matching names to the count, and its size to the total. |
| Winners.MatchingAddOne | Cluster_Work/1000_Elections_Final/3_Bloc/etools_zbz.py:176-178 | Visiting one new name of a set adds one to the count exactly when the name matches. |
| Winners.CountBounded | Cluster_Work/1000_Elections_Final/2_Bloc/etools_zbz.py:161-172 | For any name test, the count lies between 0 and the total size of the winner sets. |
| Winners.CountCover2 | Cluster_Work/1000_Elections_Final/2_Bloc/etools_zbz.py:99-100 | When every winner matches exactly one of two parties, the two counts sum to the number of winners. |
| Winners.CountCover3 | Cluster_Work/1000_Elections_Final/3_Bloc/etools_zbz.py:101-103 | When every winner matches exactly one of three parties, the three counts sum to the number of winners. |
| Winners.TrialCountsAt | Cluster_Work/1000_Elections_Final/3_Bloc/etools_zbz.py:111-113 | A bloc's list after `n` trials has exactly `n` entries. Entry `t` is the bloc's count in trial `t`. |
| Tally.SumTagNoneStays | Cluster_Work/1000_Elections_Final/3_Bloc/etools_zbz.py:152-162 | Once an `np.add` in the zone loop has raised, the whole sum has raised, whatever zones follow. |
| Tally.SumTagUniform | Cluster_Work/1000_Elections_Final/2_Bloc/etools_zbz.py:144-154 | Take zone lists that all have one length `n`. The running sum for a tag has length `n` (0 with no zones), and each of its entries is the sum of the zones' entries at that index. The empty start list acts as the identity. |
| Tally.CondenseSums | Cluster_Work/1000_Elections_Final/2_Bloc/etools_zbz.py:139-158 | Take zones that all hold exactly the tags, each with `n` entries. `condense_results` then succeeds, its only key is `"sp"`, and its tag keys are exactly the tags. Each city-wide list has `n` entries (0 with no zones), and entry `i` is the sum over zones of entry `i`. |
| Tally.CondenseMissingModel | Cluster_Work/1000_Elections_Final/3_Bloc/etools_zbz.py:155 | A zone without an `"sp"` entry makes `condense_results` raise KeyError. |
| Tally.ZoneSumOfFour | Cluster_Work/1000_Elections_Final/3_Bloc/etools_zbz.py:152-162 | Over four zones, the zone sum is the entry of zone 1 plus zone 2 plus zone 3 plus zone 4. |
| Tally.SumTagStep | Cluster_Work/1000_Elections_Final/3_Bloc/etools_zbz.py:155-162 | One more zone folds its list for a tag into the running sum, or leaves the sum alone when it has no list for that tag. |
| Tally.AddZone | Cluster_Work/1000_Elections_Final/3_Bloc/etools_zbz.py:155-162 | The inner loop over one zone's tags: when it raises (unknown tag, or `np.add` raises), `condense_results` raises too. Otherwise every tag of the zone is known, and each running sum now includes this zone. |
| Tally.CondenseResults | Cluster_Work/1000_Elections_Final/3_Bloc/etools_zbz.py:146-166 | The accumulator loop returns exactly `Condense`, including each of its error cases. |
| KeyConversion.Insert | Cluster_Work/1000_Elections_Final/3_Bloc/etools_zbz.py:185 | The dict store `d[k] = v` that the comprehension performs for each pair; its properties are stated by `InsertKeys` and `InsertDistinct`. |
| KeyConversion.InsertKeys | Cluster_Work/1000_Elections_Final/3_Bloc/etools_zbz.py:185 | After `d[k] = v`, `k` holds `v`. A new key is appended at the end. An existing key keeps its place, so the key sequence and the length are unchanged. Entries under other keys stay, and no other entry appears. |
| KeyConversion.InsertDistinct | Cluster_Work/1000_Elections_Final/2_Bloc/etools_zbz.py:177 | Storing a key keeps a dict's keys distinct. |
| KeyConversion.BuildDict | Cluster_Work/1000_Elections_Final/3_Bloc/etools_zbz.py:185 | A dict comprehension: the pairs stored one after the other. Its properties are stated by `BuildDictFacts`, `BuildDictLastWins` and `BuildDictDistinct`. |
| KeyConversion.BuildDictLastWins | Cluster_Work/1000_Elections_Final/2_Bloc/etools_zbz.py:177 | Later keys overwrite earlier ones: for each key, the built dict holds the last pair given with that key. |
| KeyConversion.BuildDictSubset | Cluster_Work/1000_Elections_Final/3_Bloc/etools_zbz.py:185 | Every entry of a built dict is one of the pairs it was built from. |
| KeyConversion.BuildDictKeys | Cluster_Work/1000_Elections_Final/3_Bloc/etools_zbz.py:185 | A built dict has exactly the keys of the pairs it was built from. |
| KeyConversion.BuildDictLength | Cluster_Work/1000_Elections_Final/3_Bloc/etools_zbz.py:185 | A built dict has no more entries than pairs. |
| KeyConversion.BuildDictNoDuplicates | Cluster_Work/1000_Elections_Final/3_Bloc/etools_zbz.py:185 | No key occurs twice in a built dict. |
| KeyConversion.BuildDictFacts | Cluster_Work/1000_Elections_Final/3_Bloc/etools_zbz.py:185 | A dict comprehension has exactly the keys it was given, with no duplicates. It has no more entries than pairs, and every entry is one of the pairs. |
| KeyConversion.BuildDictDistinct | Cluster_Work/1000_Elections_Final/2_Bloc/etools_zbz.py:177 | Pairs with distinct keys build exactly that dict, in that order. |
| KeyConversion.Convert | Cluster_Work/1000_Elections_Final/3_Bloc/etools_zbz.py:182-191 | `convert_tuples_in_keys` on a Python value. Its properties are stated by `ConvertShapes`, `ConvertDictKeys`, `ConvertDictLastWins`, `ConvertDictInjective`, `ConvertJsonReady`, `ConvertFixesJsonReady` and `ConvertIdempotent`. |
| KeyConversion.ConvertJsonReady | Cluster_Work/1000_Elections_Final/3_Bloc/etools_zbz.py:182-191 | For every value built from the modelled types (none, bool, int, float, str, list, tuple, dict), no tuple is left anywhere after conversion, and every dict key at every depth is a string. |
| KeyConversion.ConvertFixesJsonReady | Cluster_Work/1000_Elections_Final/2_Bloc/etools_zbz.py:174-183 | A value that has no tuples and only string keys is returned unchanged. |
| KeyConversion.ConvertIdempotent | Cluster_Work/1000_Elections_Final/2_Bloc/etools_zbz.py:176-183 | Converting twice gives the same value as converting once. |
| KeyConversion.ConvertShapes | Cluster_Work/1000_Elections_Final/3_Bloc/etools_zbz.py:186-191 | A summary of the cases of the conversion: a list is converted element by element and keeps its length. A tuple becomes its `str()`. `None`, booleans, numbers and strings are returned unchanged. |
| KeyConversion.ConvertDictKeys | Cluster_Work/1000_Elections_Final/3_Bloc/etools_zbz.py:184-185 | A converted dict has as keys exactly the `str()` of the original keys. They have no duplicates, and there are at most as many as before. |
| KeyConversion.ConvertDictLastWins | Cluster_Work/1000_Elections_Final/3_Bloc/etools_zbz.py:185 | When several keys have the same `str()`, the converted dict holds under that string the converted value of the last of them. |
| KeyConversion.ConvertDictInjective | Cluster_Work/1000_Elections_Final/2_Bloc/etools_zbz.py:176-177 | When no two keys have the same `str()`, the converted dict holds every entry in order, with key `str(key)` and the converted value. |
| ThreeBloc.MatchesIsShortPrefix | Cluster_Work/1000_Elections_Final/3_Bloc/etools_zbz.py:177 | A name counts for a party exactly when the party is a one- or two-character prefix of the name. |
| ThreeBloc.MatchExamples | Cluster_Work/1000_Elections_Final/3_Bloc/etools_zbz.py:177 | `WP3` counts for `WP` and not for `WM` or `C`. `WM1` counts for `WM` and not for `WP`. `C10` counts for `C` and not for `WP`. |
| ThreeBloc.TaggedNameMatchesItsTag | Cluster_Work/1000_Elections_Final/3_Bloc/etools_zbz.py:177 | A name that starts with one of `C`, `WP`, `WM` counts for that tag and for neither of the other two. |
| ThreeBloc.CountWinners | Cluster_Work/1000_Elections_Final/3_Bloc/etools_zbz.py:169-180 | The nested loop returns `Count` with the one-or-two-character test. The result is at most the total size of the winner sets. |
| ThreeBloc.PoolNaming | Cluster_Work/1000_Elections_Final/3_Bloc/etools_zbz.py:21-25 | The pool has the keys `C`, `WP`, `WM`, with ten names each. Name `j` (from 0) is the tag followed by `j+1`. |
| ThreeBloc.PoolNameMatchesOneTag | Cluster_Work/1000_Elections_Final/3_Bloc/etools_zbz.py:21-25 | Every pool name matches exactly one of `C`, `WP`, `WM`. |
| ThreeBloc.CountsPartitionWinners | Cluster_Work/1000_Elections_Final/3_Bloc/etools_zbz.py:101-103 | For winners drawn from the pool, the `C`, `WP` and `WM` counts sum to the number of winners. |
| ThreeBloc.SlateShape | Cluster_Work/1000_Elections_Final/3_Bloc/etools_zbz.py:68-72 | The slate for size `k >= 0` has `min(k, 10)` names, and a negative `k` drops names from the end. Its names, in order, are the tag followed by 1, 2, …. |
| ThreeBloc.CandSlate | Cluster_Work/1000_Elections_Final/3_Bloc/etools_zbz.py:68-72 | The slate map has exactly the keys `C`, `WP`, `WM`. Each slate is a prefix of its bloc's pool, of the length `[:k]` keeps, with `k` taken from `candidates[0]`, `[1]` and `[2]` respectively. |
| ThreeBloc.SlateNamesInPool | Cluster_Work/1000_Elections_Final/3_Bloc/etools_zbz.py:68-72 | Every slate name is a pool name. |
| ThreeBloc.ZoneTalliesStep | Cluster_Work/1000_Elections_Final/3_Bloc/etools_zbz.py:105-113 | The three lists start empty. Each trial appends exactly one count to each of them. |
| ThreeBloc.RunTrial | Cluster_Work/1000_Elections_Final/3_Bloc/etools_zbz.py:76-113 | One pass of the trial loop: the zone's entry is created on the first trial, and afterwards holds the three lists of `t + 1` counts, trial `t`'s counts appended. |
| ThreeBloc.RunZone | Cluster_Work/1000_Elections_Final/3_Bloc/etools_zbz.py:75-115 | The trial loop leaves the zone record `ZoneResult`. When no trial ran it holds only `"zone"`. Otherwise it also holds `"sp"` with the three per-trial count lists. |
| ThreeBloc.SimulateEnsembles | Cluster_Work/1000_Elections_Final/3_Bloc/etools_zbz.py:59-123 | The modelled code raises (`None`) exactly when `num_elections <= 0`. Otherwise it returns exactly `PlanResults` together with the value `Condense` gives for it. |
| ThreeBloc.PlanShape | Cluster_Work/1000_Elections_Final/3_Bloc/etools_zbz.py:59-115 | There are four records, for zones 1 to 4 in order. With no trials each record holds only `"zone"`. Otherwise each holds exactly `C`, `WP`, `WM`, with `num_elections` entries each, and entry `t` is `count_winners` of trial `t` in that zone. |
| ThreeBloc.ZoneEntries | Cluster_Work/1000_Elections_Final/3_Bloc/etools_zbz.py:105-113 | After at least one trial, zone `z` has its `"sp"` entry, and its list for each bloc has one entry per trial: the bloc's winners in that trial. |
| ThreeBloc.EntryAtZone | Cluster_Work/1000_Elections_Final/3_Bloc/etools_zbz.py:105-113 | Zone `z`'s entry for a bloc at trial `t` is that bloc's number of winners in the zone's trial `t`. |
| ThreeBloc.ZoneSumAt | Cluster_Work/1000_Elections_Final/3_Bloc/etools_zbz.py:152-162 | The sum over the four zones of a bloc's entries at trial `t` is the sum of that bloc's winners in trial `t` of zones 1 to 4. |
| ThreeBloc.NoTrialsNoCondense | Cluster_Work/1000_Elections_Final/3_Bloc/etools_zbz.py:75-118 | With `num_elections <= 0`, `condense_results` raises KeyError. |
| ThreeBloc.CondenseIffTrials | Cluster_Work/1000_Elections_Final/3_Bloc/etools_zbz.py:117-118 | `condense_results` on the run's records succeeds exactly when at least one trial ran. |
| ThreeBloc.CityWideTotals | Cluster_Work/1000_Elections_Final/3_Bloc/etools_zbz.py:117-118 | With at least one trial, the city-wide result exists. It has key `"sp"` holding exactly `C`, `WP`, `WM`, each with `num_elections` entries. Entry `t` is the sum over the four zones of that bloc's winners in trial `t`. |
| ThreeBloc.TrialCountsAddUp | Cluster_Work/1000_Elections_Final/3_Bloc/etools_zbz.py:101-103 | When winners come from the slates, the three counts of any trial sum to that trial's number of winners. |
| ThreeBloc.ZoneCountsAddUp | Cluster_Work/1000_Elections_Final/3_Bloc/etools_zbz.py:101-113 | When winners come from the slates, a zone's three entries at trial `t` sum to that trial's number of winners. |
| ThreeBloc.FourZoneCountsAddUp | Cluster_Work/1000_Elections_Final/3_Bloc/etools_zbz.py:101-103 | When winners come from the slates, the `C`, `WP` and `WM` counts of trial `t`, each summed over the four zones, add up to the winners of all four zones. |
| ThreeBloc.CityWideAt | Cluster_Work/1000_Elections_Final/3_Bloc/etools_zbz.py:146-166 | One bloc's city-wide entry at trial `t` is the sum of its four zone counts. |
| ThreeBloc.CityWideCountsAddUp | Cluster_Work/1000_Elections_Final/3_Bloc/etools_zbz.py:101-118 | When winners come from the slates, the three city-wide entries at trial `t` sum to the winners of all four zones in trial `t`. |
| TwoBloc.MatchesIsFirstChar | Cluster_Work/1000_Elections_Final/2_Bloc/etools_zbz.py:169 | A name counts for a party exactly when the party is the name's first character. |
| TwoBloc.MatchExamples | Cluster_Work/1000_Elections_Final/2_Bloc/etools_zbz.py:169 | `W3` counts for `W` and not for `C`. `C10` counts for `C` and not for `W`. A two-character party such as `C1` matches nothing. |
| TwoBloc.TaggedNameMatchesItsTag | Cluster_Work/1000_Elections_Final/2_Bloc/etools_zbz.py:169 | A name that starts with `C` or `W` counts for that tag and not for the other. |
| TwoBloc.CountWinners | Cluster_Work/1000_Elections_Final/2_Bloc/etools_zbz.py:161-172 | The nested loop returns `Count` with the first-character test. The result is at most the total size of the winner sets. |
| TwoBloc.PoolNaming | Cluster_Work/1000_Elections_Final/2_Bloc/etools_zbz.py:19-22 | The pool has the keys `C` and `W`, with ten names each. Name `j` is the tag followed by `j+1`. |
| TwoBloc.PoolNameMatchesOneTag | Cluster_Work/1000_Elections_Final/2_Bloc/etools_zbz.py:19-22 | Every pool name matches exactly one of `C`, `W`. |
| TwoBloc.CountsPartitionWinners | Cluster_Work/1000_Elections_Final/2_Bloc/etools_zbz.py:99-100 | For winners drawn from the pool, the `C` and `W` counts sum to the number of winners. |
| TwoBloc.SlateShape | Cluster_Work/1000_Elections_Final/2_Bloc/etools_zbz.py:69-72 | The slate for size `k >= 0` has `min(k, 10)` names, and a negative `k` drops names from the end. Its names, in order, are the tag followed by 1, 2, …. |
| TwoBloc.CandSlate | Cluster_Work/1000_Elections_Final/2_Bloc/etools_zbz.py:69-72 | The slate map has exactly the keys `C` and `W`. Each slate is a prefix of its bloc's pool, of the length `[:k]` keeps, with `k` taken from `candidates[0]` and `[1]` respectively. |
| TwoBloc.SlateNamesInPool | Cluster_Work/1000_Elections_Final/2_Bloc/etools_zbz.py:69-72 | Every slate name is a pool name. |
| TwoBloc.ZoneTalliesStep | Cluster_Work/1000_Elections_Final/2_Bloc/etools_zbz.py:102-108 | The two lists start empty. Each trial appends exactly one count to each of them. |
| TwoBloc.RunTrial | Cluster_Work/1000_Elections_Final/2_Bloc/etools_zbz.py:75-108 | One pass of the trial loop: the zone's entry is created on the first trial, and afterwards holds the two lists of `t + 1` counts, trial `t`'s counts appended. |
| TwoBloc.RunZone | Cluster_Work/1000_Elections_Final/2_Bloc/etools_zbz.py:74-110 | The trial loop leaves the zone record `ZoneResult`: only `"zone"` with no trials, otherwise also `"sp"` with the two per-trial count lists. |
| TwoBloc.SimulateEnsembles | Cluster_Work/1000_Elections_Final/2_Bloc/etools_zbz.py:60-117 | The modelled code raises (`None`) exactly when `num_elections <= 0`. Otherwise it returns exactly `PlanResults` together with the value `Condense` gives for it. |
| TwoBloc.PlanShape | Cluster_Work/1000_Elections_Final/2_Bloc/etools_zbz.py:60-110 | There are four records, for zones 1 to 4 in order. With no trials each record holds only `"zone"`. Otherwise each holds exactly `C` and `W`, with `num_elections` entries each, and entry `t` is `count_winners` of trial `t`. |
| TwoBloc.ZoneEntries | Cluster_Work/1000_Elections_Final/2_Bloc/etools_zbz.py:102-108 | After at least one trial, zone `z` has its `"sp"` entry, and its list for each bloc has one entry per trial: the bloc's winners in that trial. |
| TwoBloc.EntryAtZone | Cluster_Work/1000_Elections_Final/2_Bloc/etools_zbz.py:102-108 | Zone `z`'s entry for a bloc at trial `t` is that bloc's number of winners in the zone's trial `t`. |
| TwoBloc.ZoneSumAt | Cluster_Work/1000_Elections_Final/2_Bloc/etools_zbz.py:144-154 | The sum over the four zones of a bloc's entries at trial `t` is the sum of that bloc's winners in trial `t` of zones 1 to 4. |
| TwoBloc.NoTrialsNoCondense | Cluster_Work/1000_Elections_Final/2_Bloc/etools_zbz.py:74-112 | With `num_elections <= 0`, `condense_results` raises KeyError. |
| TwoBloc.CondenseIffTrials | Cluster_Work/1000_Elections_Final/2_Bloc/etools_zbz.py:112 | `condense_results` on the run's records succeeds exactly when at least one trial ran. |
| TwoBloc.CityWideTotals | Cluster_Work/1000_Elections_Final/2_Bloc/etools_zbz.py:112 | With at least one trial, the city-wide result has key `"sp"` holding exactly `C` and `W`, each with `num_elections` entries. Each entry is the sum of the four zones' counts. |
| TwoBloc.TrialCountsAddUp | Cluster_Work/1000_Elections_Final/2_Bloc/etools_zbz.py:99-100 | When winners come from the slates, the two counts of any trial sum to that trial's number of winners. |
| TwoBloc.ZoneCountsAddUp | Cluster_Work/1000_Elections_Final/2_Bloc/etools_zbz.py:99-108 | When winners come from the slates, a zone's two entries at trial `t` sum to that trial's number of winners. |
| TwoBloc.FourZoneCountsAddUp | Cluster_Work/1000_Elections_Final/2_Bloc/etools_zbz.py:99-100 | When winners come from the slates, the `C` and `W` counts of trial `t`, each summed over the four zones, add up to the winners of all four zones. |
| TwoBloc.CityWideAt | Cluster_Work/1000_Elections_Final/2_Bloc/etools_zbz.py:139-158 | One bloc's city-wide entry at trial `t` is the sum of its four zone counts. |
| TwoBloc.CityWideCountsAddUp | Cluster_Work/1000_Elections_Final/2_Bloc/etools_zbz.py:99-112 | When winners come from the slates, the two city-wide entries at trial `t` sum to the winners of all four zones in trial `t`. |

## Left out

- The external ballot generator and STV count are not modelled. `SlatePreference.from_params`, `generate_profile`, `STV(...).run_election()`, `fractional_transfer`, the Droop quota and random tie-breaking are all the opaque `TrialFn`.
  - The parameters that reach only those calls are not modelled: cohesion, alphas, seats and number of ballots.
- `low_turnout` and `alternate_slate` are not modelled: they are accepted and never used (three-bloc lines 34-35, two-bloc lines 33-34).
- The trial index stands in for the library's own randomness. The model says nothing about how winners depend on it.
- There is only one generator in the registry (`"sp"`). The loop over the registry is therefore written as a single pass of its body.
- The zone-share sum check is not modelled. It is floating-point arithmetic that only prints a warning. The shares themselves are passed to the trial function unchanged.
- The `assert` that the zone keys are `{1, 2, 3, 4}` is not modelled, because it always holds for the literal dictionary.
- `print` calls and the `os.path` lookups are not modelled: they are output and file-system access only.
- `condense_results_single_cand` is not modelled: no code path calls it.
- `slate_by_share` is not modelled: it is a stub whose body is `pass`.
- KeyConversion.Convert: sets, frozensets, bytes, numpy arrays and every other type outside `PyValue` are not modelled. The final `else: return obj` (3_Bloc/etools_zbz.py:190-191; 2_Bloc/etools_zbz.py:182-183) returns such a value unchanged without looking inside it, so a tuple inside a set survives, as in `{"k": {(1, 2)}}`. `ConvertJsonReady`, `ConvertIdempotent` and the other lemmas about `Convert` hold only for values built from the modelled types.
- `str()` of a non-string value is an abstract `repr` parameter. The model makes no claim about Python's formatting.
- The `simulate_elections_zbz.py` scripts are not part of this model: they are argument parsing, JSON files and histograms. The same holds for `hist_gen_3_bloc.py` and `table_gen_2_bloc.py`, which are file reading, pandas and plotting.
- Counts are unbounded integers, and numpy's `int64` is not modelled. This loses nothing here: an entry never grows with the number of trials. Each city-wide entry is the sum of four per-trial counts, and every visible caller asks for 3 seats (`Cluster_Work/1000_Elections_Final/3_Bloc/simulate_elections_zbz.py` line 57, `Cluster_Work/1000_Elections_Final/2_Bloc/simulate_elections_zbz.py` line 51).
- The model does not capture aliasing between `plan_results` and the condensed lists. On the first zone, `summed_zone_results[cand_type] = win_list` shares the zone's list, but nothing mutates it afterwards (`np.add` builds new arrays), so value semantics give the same results and leave `plan_results` unchanged.
- Python `set` iteration order is not modelled, because counting does not depend on it.
- Dict ordering is modelled only in the key conversion, where it depends on the input. The zone records (`"zone"` before `"sp"`) and the condensed dict (`C`, `WP`, `WM`; two-bloc `C`, `W`) also have a key order that the caller writes out, but it is the same in every run, so Dafny's unordered maps lose nothing that varies.
- The three-bloc test is not a longest-prefix match: it compares the first one or two characters with the party (three-bloc line 177), so a party `"W"` would also count `WP3`. The driver only asks for `C`, `WP` and `WM`, and for those `ThreeBloc.TaggedNameMatchesItsTag` shows the counts are exact.
- `condense_results` does not check that every zone has the same number of trials: `np.add` broadcasts or raises. `Tally.SumTagUniform` covers the equal-length case, and `PyOps.NpAdd` covers the rest.
- ThreeBloc.SimulateEnsembles: requires `|candidates| >= 3` (TwoBloc: `>= 2`), so the IndexError that `candidates[i]` raises on a shorter list (three-bloc lines 69-71, two-bloc lines 70-71) is not modelled. Every visible caller reads `candidates[0]` to `candidates[2]` (two-bloc: `[1]`) before the call (`Cluster_Work/1000_Elections_Final/3_Bloc/simulate_elections_zbz.py` lines 20-22, `Cluster_Work/1000_Elections_Final/2_Bloc/simulate_elections_zbz.py` lines 24-25), so a shorter list never reaches it.
- ThreeBloc.SimulateEnsembles: the trial function `Winners.TrialFn` is total, so an error raised inside the ballot generator or the STV count (for example a configuration with more seats than candidates, such as `--candidates "0 0 0"` with 3 seats) is not modelled. The `None` exactly when `num_elections <= 0` holds under that assumption: it is about the errors of the modelled code.
- TwoBloc.SimulateEnsembles: the same holds; errors of the external library, such as too few candidates for the seats, are not modelled, and the `<==>` of its contract holds under the assumption that `Winners.TrialFn` never fails.
- Candidate names are non-empty (`Winners.Name`), so the IndexError that `cand[0]` raises on `""` (three-bloc line 177, two-bloc line 169) is not modelled. Winners come from the slates, whose names are never empty.
