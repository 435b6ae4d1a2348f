/**
  The two-bloc ensemble driver: candidates of colour ("C") and White
  candidates ("W"), four Portland zones, many simulated STV elections per
  zone, and the per-bloc winner counts of each trial, per zone and summed
  city-wide.
 */
module TwoBloc {
  import opened PyOps
  import opened Winners
  import opened Tally

  /** The fixed pool each bloc's slate is cut from. */
  const CandidatesToSelect: map<string, seq<Name>> := map[
    "W" := ["W1", "W2", "W3", "W4", "W5", "W6", "W7", "W8", "W9", "W10"],
    "C" := ["C1", "C2", "C3", "C4", "C5", "C6", "C7", "C8", "C9", "C10"]
  ]

  /** The bloc tags, and the keys the city-wide sum starts from. */
  const Tags: set<string> := {"C", "W"}

  /** The zones in iteration order with their bloc shares of the voting-age
      population. */
  const ZoneShares: seq<(int, map<string, real>)> := [
    (1, map["C" := 0.38, "W" := 0.62]),
    (2, map["C" := 0.26, "W" := 0.74]),
    (3, map["C" := 0.20, "W" := 0.8]),
    (4, map["C" := 0.17, "W" := 0.83])
  ]

  /** The test `count_winners` applies to a winner: its first character equals
      the party. */
  predicate Matches(cand: Name, party: string)
  {
    [cand[0]] == party
  }

  /** A name matches a party exactly when the party is the name's one-character
      prefix; a party of any other length matches nothing. */
  lemma MatchesIsFirstChar(cand: Name, party: string)
    ensures Matches(cand, party) <==> |party| == 1 && party <= cand
  {
    if |party| == 1 && party <= cand {
      assert party[0] == cand[0];
    }
  }

  lemma MatchExamples()
    ensures Matches("W3", "W") && !Matches("W3", "C")
    ensures Matches("C10", "C") && !Matches("C10", "W")
    ensures !Matches("C10", "C1")
  {
    MatchesIsFirstChar("W3", "W");
    MatchesIsFirstChar("W3", "C");
    MatchesIsFirstChar("C10", "C");
    MatchesIsFirstChar("C10", "W");
  }

  /** A name that starts with one bloc tag matches that tag and no other. */
  lemma TaggedNameMatchesItsTag(tag: string, rest: string, party: string)
    requires tag in Tags && party in Tags
    ensures Matches(tag + rest, party) <==> party == tag
  {
    var cand: Name := tag + rest;
    MatchesIsFirstChar(cand, party);
    assert cand[..1] == tag;
    if party <= cand {
      assert cand[..1] == party;
    }
  }

  /** `count_winners`: one pass over every name of every winner set. */
  method CountWinners(elected: seq<set<Name>>, party: string) returns (winnerCount: nat)
    ensures winnerCount == Count(elected, party, Matches)
    ensures winnerCount <= TotalSize(elected)
  {
    winnerCount := 0;
    var i := 0;
    while i < |elected|
      invariant 0 <= i <= |elected|
      invariant winnerCount == Count(elected[..i], party, Matches)
    {
      var winnerSet := elected[i];
      var todo := winnerSet;
      ghost var done: set<Name> := {};
      while todo != {}
        invariant todo + done == winnerSet && todo !! done
        invariant winnerCount == Count(elected[..i], party, Matches) + |Matching(done, party, Matches)|
        decreases todo
      {
        var cand :| cand in todo;
        MatchingAddOne(done, cand, party, Matches);
        if Matches(cand, party) {
          winnerCount := winnerCount + 1;
        }
        todo := todo - {cand};
        done := done + {cand};
      }
      assert elected[..i + 1] == elected[..i] + [winnerSet];
      CountSnoc(elected[..i], winnerSet, party, Matches);
      i := i + 1;
    }
    assert elected[..i] == elected;
    CountBounded(elected, party, Matches);
  }

  /** Every name in the pool is its bloc tag followed by its index 1..10. */
  lemma PoolNaming()
    ensures CandidatesToSelect.Keys == Tags
    ensures forall tag :: tag in Tags ==> |CandidatesToSelect[tag]| == 10
    ensures forall tag, j :: tag in Tags && 0 <= j < 10 ==> CandidatesToSelect[tag][j] == tag + Decimal(j + 1)
  {
    assert Decimal(10) == "10";
    forall tag, j | tag in Tags && 0 <= j < 10 ensures CandidatesToSelect[tag][j] == tag + Decimal(j + 1) {
      assert Decimal(j + 1) == if j < 9 then [DigitChar(j + 1)] else "10";
    }
  }

  /** A name in the pool is a candidate of the bloc whose list holds it. */
  predicate InPool(c: Name)
  {
    c in CandidatesToSelect["C"] || c in CandidatesToSelect["W"]
  }

  /** Each pool name matches exactly one of "C", "W". */
  lemma PoolNameMatchesOneTag(c: Name)
    requires InPool(c)
    ensures ExactlyOne2(c, "C", "W", Matches)
  {
    PoolNaming();
    var tag :| tag in Tags && c in CandidatesToSelect[tag];
    var j :| 0 <= j < 10 && CandidatesToSelect[tag][j] == c;
    TaggedNameMatchesItsTag(tag, Decimal(j + 1), "C");
    TaggedNameMatchesItsTag(tag, Decimal(j + 1), "W");
  }

  /** For winners drawn from the pool, the two bloc counts add up to the
      number of winners. */
  lemma CountsPartitionWinners(elected: seq<set<Name>>)
    requires forall i, c :: 0 <= i < |elected| && c in elected[i] ==> InPool(c)
    ensures Count(elected, "C", Matches) + Count(elected, "W", Matches) == TotalSize(elected)
  {
    forall i, c | 0 <= i < |elected| && c in elected[i] ensures ExactlyOne2(c, "C", "W", Matches) {
      PoolNameMatchesOneTag(c);
    }
    CountCover2(elected, "C", "W", Matches);
  }

  /** The slate for a tag at size `k`: `candidates_to_select[tag][:k]`. */
  function Slate(tag: string, k: int): seq<Name>
    requires tag in CandidatesToSelect
  {
    PySliceTo(CandidatesToSelect[tag], k)
  }

  /** A slate of requested size `k >= 0` holds `min(k, 10)` names, the tag
      followed by 1, 2, ... in order; a negative size drops that many names
      from the end of the pool. */
  lemma SlateShape(tag: string, k: int)
    requires tag in Tags
    ensures k >= 0 ==> |Slate(tag, k)| == Min(k, 10)
    ensures k < 0 ==> |Slate(tag, k)| == Max(0, 10 + k)
    ensures forall j :: 0 <= j < |Slate(tag, k)| ==> Slate(tag, k)[j] == tag + Decimal(j + 1)
  {
    PoolNaming();
  }

  /** The slates of one run; `candidates` lists the slate sizes in the order
      C, W. */
  function CandSlate(candidates: seq<int>): (slates: map<string, seq<Name>>)
    requires |candidates| >= 2
    ensures slates.Keys == Tags
    ensures forall tag :: tag in Tags ==> slates[tag] <= CandidatesToSelect[tag]
    ensures |slates["C"]| == SlateSize(candidates[0])
    ensures |slates["W"]| == SlateSize(candidates[1])
  {
    map["W" := Slate("W", candidates[1]), "C" := Slate("C", candidates[0])]
  }

  /** Slate names come from the pool. */
  lemma SlateNamesInPool(candidates: seq<int>, tag: string, c: Name)
    requires |candidates| >= 2 && tag in CandSlate(candidates) && c in CandSlate(candidates)[tag]
    ensures InPool(c)
  {
  }

  /** The lists a zone holds under the generator's key after `n` trials. */
  function ZoneTallies(trial: TrialFn, zone: int, shares: map<string, real>, slates: map<string, seq<Name>>, n: nat): Tallies
  {
    map["C" := TrialCounts(trial, zone, shares, slates, n, "C", Matches),
        "W" := TrialCounts(trial, zone, shares, slates, n, "W", Matches)]
  }

  /** One more trial appends one count to each bloc's list. */
  lemma ZoneTalliesStep(trial: TrialFn, zone: int, shares: map<string, real>, slates: map<string, seq<Name>>, t: nat)
    ensures ZoneTallies(trial, zone, shares, slates, 0) == map["C" := [], "W" := []]
    ensures var before := ZoneTallies(trial, zone, shares, slates, t);
            var elected := trial(zone, shares, slates, t);
            ZoneTallies(trial, zone, shares, slates, t + 1) ==
              before["C" := before["C"] + [Count(elected, "C", Matches)]]
                    ["W" := before["W"] + [Count(elected, "W", Matches)]]
  {
  }

  /** The record of one zone after `numElections` trials: the generator's
      entry exists only once a trial has run. */
  function ZoneResult(trial: TrialFn, zone: int, shares: map<string, real>, slates: map<string, seq<Name>>,
                      numElections: int): ZoneRecord
  {
    ZoneRecord(zone, if numElections <= 0 then map[] else map[Model := ZoneTallies(trial, zone, shares, slates, numElections)])
  }

  /** `plan_results`: one record per zone, in zone order. */
  function PlanResults(trial: TrialFn, candidates: seq<int>, numElections: int): seq<ZoneRecord>
    requires |candidates| >= 2
  {
    seq(|ZoneShares|, z requires 0 <= z < |ZoneShares| =>
      ZoneResult(trial, ZoneShares[z].0, ZoneShares[z].1, CandSlate(candidates), numElections))
  }

  /** One pass of the trial loop of `simulate_ensembles`: run the external
      generator and STV count through `trial`, count each bloc's winners and
      append the counts to the zone's lists, creating them on the first trial. */
  method RunTrial(trial: TrialFn, zn: int, blocs: map<string, real>, candSlate: map<string, seq<Name>>, t: nat,
                  results: map<string, Tallies>)
    returns (next: map<string, Tallies>)
    requires t == 0 ==> results == map[]
    requires t > 0 ==> results == map[Model := ZoneTallies(trial, zn, blocs, candSlate, t)]
    ensures next == map[Model := ZoneTallies(trial, zn, blocs, candSlate, t + 1)]
  {
    var winners := trial(zn, blocs, candSlate, t);
    var numWinnersC := CountWinners(winners, "C");
    var numWinnersW := CountWinners(winners, "W");
    next := results;
    if Model !in next {
      next := next[Model := map["C" := [], "W" := []]];
    }
    var tallies := next[Model];
    assert tallies == ZoneTallies(trial, zn, blocs, candSlate, t);
    tallies := tallies["C" := tallies["C"] + [numWinnersC]];
    tallies := tallies["W" := tallies["W"] + [numWinnersW]];
    ZoneTalliesStep(trial, zn, blocs, candSlate, t);
    next := next[Model := tallies];
  }

  /** The trial loop of `simulate_ensembles` for one zone. */
  method RunZone(trial: TrialFn, zn: int, blocs: map<string, real>, candSlate: map<string, seq<Name>>, numElections: int)
    returns (zoneData: ZoneRecord)
    ensures zoneData == ZoneResult(trial, zn, blocs, candSlate, numElections)
  {
    var results: map<string, Tallies> := map[];
    var t := 0;
    while t < numElections
      invariant 0 <= t && (t == 0 || t <= numElections)
      invariant t == 0 ==> results == map[]
      invariant t > 0 ==> results == map[Model := ZoneTallies(trial, zn, blocs, candSlate, t)]
    {
      results := RunTrial(trial, zn, blocs, candSlate, t, results);
      t := t + 1;
    }
    zoneData := ZoneRecord(zn, results);
  }

  /** `simulate_ensembles`: run every zone in order, collect its record, then
      condense the records city-wide. With a `trial` that never fails, the
      call raises (`None`) exactly when no trial ran, since `condense_results`
      then finds no generator entry; the records are then never returned. */
  method SimulateEnsembles(trial: TrialFn, candidates: seq<int>, numElections: int)
    returns (r: Option<(seq<ZoneRecord>, map<string, Tallies>)>)
    requires |candidates| >= 2
    ensures r.None? <==> numElections <= 0
    ensures r.Some? ==> r.value.0 == PlanResults(trial, candidates, numElections) &&
                        Condense(Tags, r.value.0) == Some(r.value.1)
  {
    var planResults := [];
    var z := 0;
    while z < |ZoneShares|
      invariant 0 <= z <= |ZoneShares|
      invariant planResults == PlanResults(trial, candidates, numElections)[..z]
    {
      var zn := ZoneShares[z].0;
      var blocs := ZoneShares[z].1;
      var candSlate := CandSlate(candidates);
      var zoneData := RunZone(trial, zn, blocs, candSlate, numElections);
      planResults := planResults + [zoneData];
      z := z + 1;
    }
    assert planResults == PlanResults(trial, candidates, numElections);
    var condensed := CondenseResults(Tags, planResults);
    CondenseIffTrials(trial, candidates, numElections);
    match condensed
    case None => r := None;
    case Some(c) => r := Some((planResults, c));
  }

  /** After `simulate_ensembles`: four records, for zones 1, 2, 3, 4 in that
      order; when trials ran, each holds under the generator's key the lists of
      exactly the two blocs, each of one entry per trial, the entry of trial
      `t` being that bloc's number of winners in the zone's trial `t`. */
  lemma PlanShape(trial: TrialFn, candidates: seq<int>, numElections: int)
    requires |candidates| >= 2
    ensures |PlanResults(trial, candidates, numElections)| == 4
    ensures forall z :: 0 <= z < 4 ==> PlanResults(trial, candidates, numElections)[z].zone == z + 1
    ensures numElections <= 0 ==> forall z :: 0 <= z < 4 ==> PlanResults(trial, candidates, numElections)[z].results == map[]
    ensures numElections > 0 ==> Uniform(Tags, PlanResults(trial, candidates, numElections), numElections)
    ensures forall z, tag, t :: 0 <= z < 4 && tag in Tags && 0 <= t < numElections ==>
              PlanResults(trial, candidates, numElections)[z].results[Model][tag][t] ==
                Count(trial(z + 1, ZoneShares[z].1, CandSlate(candidates), t), tag, Matches)
  {
    if numElections > 0 {
      forall z, tag | 0 <= z < 4 && tag in Tags {
        ZoneEntries(trial, candidates, numElections, z, tag);
      }
    }
  }

  /** The list of zone `z` for bloc `tag`: one entry per trial, the entry of
      trial `t` being that bloc's number of winners in the zone's trial `t`. */
  lemma ZoneEntries(trial: TrialFn, candidates: seq<int>, numElections: int, z: nat, tag: string)
    requires |candidates| >= 2 && numElections > 0 && z < 4 && tag in Tags
    ensures Model in PlanResults(trial, candidates, numElections)[z].results
    ensures |PlanResults(trial, candidates, numElections)[z].results[Model][tag]| == numElections
    ensures forall t :: 0 <= t < numElections ==>
              PlanResults(trial, candidates, numElections)[z].results[Model][tag][t] ==
                Count(trial(z + 1, ZoneShares[z].1, CandSlate(candidates), t), tag, Matches)
  {
    var slates := CandSlate(candidates);
    assert PlanResults(trial, candidates, numElections)[z].results[Model][tag] ==
             TrialCounts(trial, z + 1, ZoneShares[z].1, slates, numElections, tag, Matches);
    TrialCountsAt(trial, z + 1, ZoneShares[z].1, slates, numElections, tag, Matches);
  }

  /** The entry of zone `z` for bloc `tag` at trial `t`. */
  lemma EntryAtZone(trial: TrialFn, candidates: seq<int>, numElections: int, z: nat, tag: string, t: nat)
    requires |candidates| >= 2 && z < 4 && tag in Tags && t < numElections
    ensures EntryAt(PlanResults(trial, candidates, numElections)[z], tag, t) ==
              Count(trial(z + 1, ZoneShares[z].1, CandSlate(candidates), t), tag, Matches)
  {
    ZoneEntries(trial, candidates, numElections, z, tag);
  }

  /** Entry `t` of the zone sum for `tag`: that bloc's winners in trial `t`
      of each of the four zones, added up. */
  lemma ZoneSumAt(trial: TrialFn, candidates: seq<int>, numElections: int, tag: string, t: nat)
    requires |candidates| >= 2 && tag in Tags && t < numElections
    ensures ZoneSum(PlanResults(trial, candidates, numElections), tag, t) ==
              Count(trial(1, ZoneShares[0].1, CandSlate(candidates), t), tag, Matches) +
              Count(trial(2, ZoneShares[1].1, CandSlate(candidates), t), tag, Matches) +
              Count(trial(3, ZoneShares[2].1, CandSlate(candidates), t), tag, Matches) +
              Count(trial(4, ZoneShares[3].1, CandSlate(candidates), t), tag, Matches)
  {
    ZoneSumOfFour(PlanResults(trial, candidates, numElections), tag, t);
    EntryAtZone(trial, candidates, numElections, 0, tag, t);
    EntryAtZone(trial, candidates, numElections, 1, tag, t);
    EntryAtZone(trial, candidates, numElections, 2, tag, t);
    EntryAtZone(trial, candidates, numElections, 3, tag, t);
  }

  /** With no trial, no zone gets the generator's entry and `condense_results`
      raises KeyError. */
  lemma NoTrialsNoCondense(trial: TrialFn, candidates: seq<int>, numElections: int)
    requires |candidates| >= 2 && numElections <= 0
    ensures Condense(Tags, PlanResults(trial, candidates, numElections)).None?
  {
    CondenseMissingModel(Tags, PlanResults(trial, candidates, numElections), 0);
  }

  /** `condense_results` succeeds on the run's records exactly when a trial ran. */
  lemma CondenseIffTrials(trial: TrialFn, candidates: seq<int>, numElections: int)
    requires |candidates| >= 2
    ensures Condense(Tags, PlanResults(trial, candidates, numElections)).Some? <==> numElections > 0
  {
    if numElections <= 0 {
      NoTrialsNoCondense(trial, candidates, numElections);
    } else {
      CityWideTotals(trial, candidates, numElections);
    }
  }

  /** The city-wide result: exactly the two blocs under the generator's key,
      one entry per trial, each the sum over the four zones of that bloc's
      winners in that trial. */
  lemma CityWideTotals(trial: TrialFn, candidates: seq<int>, numElections: int)
    requires |candidates| >= 2 && numElections > 0
    ensures Condense(Tags, PlanResults(trial, candidates, numElections)).Some?
    ensures Condense(Tags, PlanResults(trial, candidates, numElections)).value.Keys == {Model}
    ensures Condense(Tags, PlanResults(trial, candidates, numElections)).value[Model].Keys == Tags
    ensures forall tag :: tag in Tags ==>
              |Condense(Tags, PlanResults(trial, candidates, numElections)).value[Model][tag]| == numElections
    ensures forall tag, t :: tag in Tags && 0 <= t < numElections ==>
              Condense(Tags, PlanResults(trial, candidates, numElections)).value[Model][tag][t] ==
                Count(trial(1, ZoneShares[0].1, CandSlate(candidates), t), tag, Matches) +
                Count(trial(2, ZoneShares[1].1, CandSlate(candidates), t), tag, Matches) +
                Count(trial(3, ZoneShares[2].1, CandSlate(candidates), t), tag, Matches) +
                Count(trial(4, ZoneShares[3].1, CandSlate(candidates), t), tag, Matches)
  {
    var plan := PlanResults(trial, candidates, numElections);
    PlanShape(trial, candidates, numElections);
    CondenseSums(Tags, plan, numElections);
    forall tag, t | tag in Tags && 0 <= t < numElections {
      ZoneSumAt(trial, candidates, numElections, tag, t);
    }
  }

  /** Every winner of every trial of the run is a candidate on one of its slates. */
  predicate WinnersFromSlates(trial: TrialFn, candidates: seq<int>, numElections: int)
    requires |candidates| >= 2
  {
    forall z, t, i, c ::
      0 <= z < |ZoneShares| && 0 <= t < numElections &&
      0 <= i < |trial(ZoneShares[z].0, ZoneShares[z].1, CandSlate(candidates), t)| &&
      c in trial(ZoneShares[z].0, ZoneShares[z].1, CandSlate(candidates), t)[i]
      ==> exists tag :: tag in CandSlate(candidates) && c in CandSlate(candidates)[tag]
  }

  /** When winners come from the slates, the two blocs' counts of any one
      trial add up to the number of its winners. */
  lemma TrialCountsAddUp(trial: TrialFn, candidates: seq<int>, numElections: int, z: nat, t: nat, elected: seq<set<Name>>)
    requires |candidates| >= 2 && WinnersFromSlates(trial, candidates, numElections)
    requires z < 4 && t < numElections && elected == trial(z + 1, ZoneShares[z].1, CandSlate(candidates), t)
    ensures Count(elected, "C", Matches) + Count(elected, "W", Matches) == TotalSize(elected)
  {
    assert elected == trial(ZoneShares[z].0, ZoneShares[z].1, CandSlate(candidates), t);
    forall i, c | 0 <= i < |elected| && c in elected[i] ensures InPool(c) {
      var tag :| tag in CandSlate(candidates) && c in CandSlate(candidates)[tag];
      SlateNamesInPool(candidates, tag, c);
    }
    CountsPartitionWinners(elected);
  }

  /** When winners come from the slates, in every zone and every trial the
      two blocs' entries add up to the number of winners. */
  lemma ZoneCountsAddUp(trial: TrialFn, candidates: seq<int>, numElections: int, z: nat, t: nat)
    requires |candidates| >= 2 && WinnersFromSlates(trial, candidates, numElections)
    requires z < 4 && t < numElections
    ensures EntryAt(PlanResults(trial, candidates, numElections)[z], "C", t) +
            EntryAt(PlanResults(trial, candidates, numElections)[z], "W", t) ==
            TotalSize(trial(z + 1, ZoneShares[z].1, CandSlate(candidates), t))
  {
    PlanShape(trial, candidates, numElections);
    TrialCountsAddUp(trial, candidates, numElections, z, t, trial(z + 1, ZoneShares[z].1, CandSlate(candidates), t));
  }

  /** The city-wide entry of one bloc at one trial, with what it holds. */
  lemma CityWideAt(trial: TrialFn, candidates: seq<int>, numElections: int, t: nat, tag: string)
    requires |candidates| >= 2 && t < numElections && tag in Tags
    ensures var r := Condense(Tags, PlanResults(trial, candidates, numElections));
            r.Some? && Model in r.value && tag in r.value[Model] && t < |r.value[Model][tag]| &&
            r.value[Model][tag][t] ==
              Count(trial(1, ZoneShares[0].1, CandSlate(candidates), t), tag, Matches) +
              Count(trial(2, ZoneShares[1].1, CandSlate(candidates), t), tag, Matches) +
              Count(trial(3, ZoneShares[2].1, CandSlate(candidates), t), tag, Matches) +
              Count(trial(4, ZoneShares[3].1, CandSlate(candidates), t), tag, Matches)
  {
    CityWideTotals(trial, candidates, numElections);
  }

  /** When winners come from the slates, the two blocs' counts over the four
      zones of one trial add up to the winners of all four zones. */
  lemma FourZoneCountsAddUp(trial: TrialFn, candidates: seq<int>, numElections: int, t: nat)
    requires |candidates| >= 2 && WinnersFromSlates(trial, candidates, numElections)
    requires t < numElections
    ensures var slates := CandSlate(candidates);
            var e1, e2, e3, e4 := trial(1, ZoneShares[0].1, slates, t), trial(2, ZoneShares[1].1, slates, t),
                                  trial(3, ZoneShares[2].1, slates, t), trial(4, ZoneShares[3].1, slates, t);
            (Count(e1, "C", Matches) + Count(e2, "C", Matches) + Count(e3, "C", Matches) + Count(e4, "C", Matches)) +
            (Count(e1, "W", Matches) + Count(e2, "W", Matches) + Count(e3, "W", Matches) + Count(e4, "W", Matches)) ==
              TotalSize(e1) + TotalSize(e2) + TotalSize(e3) + TotalSize(e4)
  {
    var slates := CandSlate(candidates);
    var e1, e2, e3, e4 := trial(1, ZoneShares[0].1, slates, t), trial(2, ZoneShares[1].1, slates, t),
                          trial(3, ZoneShares[2].1, slates, t), trial(4, ZoneShares[3].1, slates, t);
    TrialCountsAddUp(trial, candidates, numElections, 0, t, e1);
    TrialCountsAddUp(trial, candidates, numElections, 1, t, e2);
    TrialCountsAddUp(trial, candidates, numElections, 2, t, e3);
    TrialCountsAddUp(trial, candidates, numElections, 3, t, e4);
  }

  /** When winners come from the slates, the city-wide entries of the two
      blocs at each trial add up to the winners of all four zones. */
  lemma CityWideCountsAddUp(trial: TrialFn, candidates: seq<int>, numElections: int, t: nat)
    requires |candidates| >= 2 && WinnersFromSlates(trial, candidates, numElections)
    requires t < numElections
    ensures var r := Condense(Tags, PlanResults(trial, candidates, numElections));
            r.Some? && Model in r.value && "C" in r.value[Model] && "W" in r.value[Model] &&
            t < |r.value[Model]["C"]| && t < |r.value[Model]["W"]| &&
            r.value[Model]["C"][t] + r.value[Model]["W"][t] ==
              TotalSize(trial(1, ZoneShares[0].1, CandSlate(candidates), t)) +
              TotalSize(trial(2, ZoneShares[1].1, CandSlate(candidates), t)) +
              TotalSize(trial(3, ZoneShares[2].1, CandSlate(candidates), t)) +
              TotalSize(trial(4, ZoneShares[3].1, CandSlate(candidates), t))
  {
    FourZoneCountsAddUp(trial, candidates, numElections, t);
    CityWideAt(trial, candidates, numElections, t, "C");
    CityWideAt(trial, candidates, numElections, t, "W");
  }
}
