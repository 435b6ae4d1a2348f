/**
  Per-zone results and their city-wide condensation, as `simulate_ensembles`
  builds them and `condense_results` adds them up. Both bloc variants share
  this code; they differ only in the set of bloc tags the sum starts from.
 */
module Tally {
  import opened PyOps

  /** The key of the one ballot generator in the registry (SlatePreference). */
  const Model: string := "sp"

  /** One bloc's list of per-trial winner counts, keyed by bloc tag. */
  type Tallies = map<string, seq<int>>

  /** The record kept for one zone: its number and, under each generator's key,
      the per-trial counts of every bloc. `results` is empty when no trial ran,
      since the generator's entry is created inside the trial loop. */
  datatype ZoneRecord = ZoneRecord(zone: int, results: map<string, Tallies>)

  /** One step of the sum for one tag: while the running sum is empty the zone's
      list is taken as it is, afterwards the two are added with `np.add`. */
  function Accumulate(acc: seq<int>, w: seq<int>): Option<seq<int>>
  {
    if |acc| == 0 then Some(w) else NpAdd(acc, w)
  }

  /** The running sum for `tag` over the zones of `plan`, in order; zones that
      lack the tag leave it alone. `None` when some `np.add` raised. */
  function SumTag(plan: seq<ZoneRecord>, tag: string): Option<seq<int>>
    decreases |plan|
  {
    if |plan| == 0 then Some([])
    else
      match SumTag(plan[..|plan| - 1], tag)
      case None => None
      case Some(acc) =>
        var rec := plan[|plan| - 1];
        if Model in rec.results && tag in rec.results[Model] then Accumulate(acc, rec.results[Model][tag])
        else Some(acc)
  }

  /** Every zone has an entry for the generator and names only known tags;
      otherwise `item[election_type]` or `summed_zone_results[cand_type]`
      raises KeyError. */
  predicate KeysKnown(tags: set<string>, plan: seq<ZoneRecord>)
  {
    forall i :: 0 <= i < |plan| ==> Model in plan[i].results && plan[i].results[Model].Keys <= tags
  }

  /** What `condense_results` returns, or `None` when it raises. */
  function Condense(tags: set<string>, plan: seq<ZoneRecord>): Option<map<string, Tallies>>
  {
    if !KeysKnown(tags, plan) then None
    else if forall tag :: tag in tags ==> SumTag(plan, tag).Some? then
      Some(map[Model := map tag | tag in tags :: SumTag(plan, tag).value])
    else None
  }

  /** The entry of `rec` for `tag` at trial `i`, 0 where there is none. */
  function EntryAt(rec: ZoneRecord, tag: string, i: nat): int
  {
    if Model in rec.results && tag in rec.results[Model] && i < |rec.results[Model][tag]|
    then rec.results[Model][tag][i] else 0
  }

  /** The sum over the zones of `plan` of their entries for `tag` at trial `i`. */
  function ZoneSum(plan: seq<ZoneRecord>, tag: string, i: nat): int
    decreases |plan|
  {
    if |plan| == 0 then 0 else ZoneSum(plan[..|plan| - 1], tag, i) + EntryAt(plan[|plan| - 1], tag, i)
  }

  /** Every zone holds, under the generator's key, exactly the tags `tags`, each
      with a list of `n` counts: the shape `simulate_ensembles` builds. */
  predicate Uniform(tags: set<string>, plan: seq<ZoneRecord>, n: nat)
  {
    forall z :: 0 <= z < |plan| ==>
      Model in plan[z].results && plan[z].results[Model].Keys == tags &&
      forall tag :: tag in tags ==> |plan[z].results[Model][tag]| == n
  }

  /** Once the sum for a tag has raised, it stays raised whatever zones follow. */
  lemma {:induction false} SumTagNoneStays(plan: seq<ZoneRecord>, j: nat, tag: string)
    requires j <= |plan|
    requires SumTag(plan[..j], tag).None?
    ensures SumTag(plan, tag).None?
    decreases |plan| - j
  {
    if j < |plan| {
      assert plan[..j + 1][..j] == plan[..j];
      SumTagNoneStays(plan, j + 1, tag);
    } else {
      assert plan[..j] == plan;
    }
  }

  /** With all lists of one length, the running sum is that many entries long
      and holds the zone sums position by position. */
  lemma {:induction false} SumTagUniform(tags: set<string>, plan: seq<ZoneRecord>, n: nat, tag: string)
    requires Uniform(tags, plan, n) && tag in tags
    ensures SumTag(plan, tag).Some?
    ensures |SumTag(plan, tag).value| == if |plan| == 0 then 0 else n
    ensures forall i :: 0 <= i < |SumTag(plan, tag).value| ==> SumTag(plan, tag).value[i] == ZoneSum(plan, tag, i)
    decreases |plan|
  {
    if |plan| > 0 {
      var init := plan[..|plan| - 1];
      var rec := plan[|plan| - 1];
      assert Uniform(tags, init, n) by {
        forall z | 0 <= z < |init| ensures init[z] == plan[z] { }
      }
      SumTagUniform(tags, init, n, tag);
      var acc := SumTag(init, tag).value;
      var w := rec.results[Model][tag];
      if |acc| == 0 {
        assert forall i :: 0 <= i < |w| ==> ZoneSum(init, tag, i) == 0 by {
          if |init| > 0 { assert n == 0; }
          else { forall i | 0 <= i < |w| ensures ZoneSum(init, tag, i) == 0 { } }
        }
      } else {
        NpAddBroadcasts(acc, w);
      }
    }
  }

  /** City-wide aggregation: when every zone has lists of one length `n` for
      exactly the tags `tags`, `condense_results` succeeds, keeps exactly those
      tags under the generator's key, and its list for a tag holds at each trial
      the sum over the zones of their counts at that trial. */
  lemma CondenseSums(tags: set<string>, plan: seq<ZoneRecord>, n: nat)
    requires Uniform(tags, plan, n)
    ensures Condense(tags, plan).Some?
    ensures Condense(tags, plan).value.Keys == {Model}
    ensures Condense(tags, plan).value[Model].Keys == tags
    ensures forall tag :: tag in tags ==>
              |Condense(tags, plan).value[Model][tag]| == (if |plan| == 0 then 0 else n)
    ensures forall tag, i :: tag in tags && 0 <= i < |Condense(tags, plan).value[Model][tag]| ==>
              Condense(tags, plan).value[Model][tag][i] == ZoneSum(plan, tag, i)
  {
    forall tag | tag in tags ensures SumTag(plan, tag).Some? {
      SumTagUniform(tags, plan, n, tag);
    }
    forall tag | tag in tags
      ensures |SumTag(plan, tag).value| == (if |plan| == 0 then 0 else n)
      ensures forall i :: 0 <= i < |SumTag(plan, tag).value| ==> SumTag(plan, tag).value[i] == ZoneSum(plan, tag, i)
    {
      SumTagUniform(tags, plan, n, tag);
    }
  }

  /** A zone without the generator's entry (no trial ran there) makes
      `condense_results` raise KeyError. */
  lemma CondenseMissingModel(tags: set<string>, plan: seq<ZoneRecord>, z: nat)
    requires z < |plan| && Model !in plan[z].results
    ensures Condense(tags, plan).None?
  {
  }

  /** Four zones summed one after the other. */
  lemma ZoneSumOfFour(plan: seq<ZoneRecord>, tag: string, i: nat)
    requires |plan| == 4
    ensures ZoneSum(plan, tag, i) ==
              EntryAt(plan[0], tag, i) + EntryAt(plan[1], tag, i) + EntryAt(plan[2], tag, i) + EntryAt(plan[3], tag, i)
  {
    assert plan[..3][..2] == plan[..2];
    assert plan[..2][..1] == plan[..1];
    assert plan[..1][..0] == [];
    assert ZoneSum(plan[..1], tag, i) == EntryAt(plan[0], tag, i);
    assert ZoneSum(plan[..2], tag, i) == ZoneSum(plan[..1], tag, i) + EntryAt(plan[1], tag, i);
    assert ZoneSum(plan[..3], tag, i) == ZoneSum(plan[..2], tag, i) + EntryAt(plan[2], tag, i);
  }

  /** One more zone: it folds its list for `tag` into the running sum, or
      leaves the sum alone when it has none. */
  lemma SumTagStep(plan: seq<ZoneRecord>, i: nat, tag: string, acc: seq<int>)
    requires i < |plan| && SumTag(plan[..i], tag) == Some(acc)
    ensures SumTag(plan[..i + 1], tag) ==
              if Model in plan[i].results && tag in plan[i].results[Model]
              then Accumulate(acc, plan[i].results[Model][tag]) else Some(acc)
  {
    assert plan[..i + 1][..i] == plan[..i];
  }

  /** The inner loop of `condense_results` for zone `i`: fold each of its
      lists into the running sums. It raises (`None`) for a tag the sums do not
      know or when `np.add` raises, and then `condense_results` raises too. */
  method AddZone(tags: set<string>, planResults: seq<ZoneRecord>, i: nat, summed: Tallies) returns (r: Option<Tallies>)
    requires i < |planResults| && Model in planResults[i].results
    requires summed.Keys == tags
    requires forall tag :: tag in tags ==> SumTag(planResults[..i], tag) == Some(summed[tag])
    ensures r.None? ==> Condense(tags, planResults).None?
    ensures r.Some? ==> planResults[i].results[Model].Keys <= tags && r.value.Keys == tags
    ensures r.Some? ==> forall tag :: tag in tags ==> SumTag(planResults[..i + 1], tag) == Some(r.value[tag])
  {
    var zoneTallies := planResults[i].results[Model];
    var acc := summed;
    var todo := zoneTallies.Keys;
    ghost var done: set<string> := {};
    while todo != {}
      invariant todo + done == zoneTallies.Keys && todo !! done
      invariant done <= tags
      invariant acc.Keys == tags
      invariant forall tag :: tag in tags && tag !in done ==> acc[tag] == summed[tag]
      invariant forall tag :: tag in done ==> SumTag(planResults[..i + 1], tag) == Some(acc[tag])
      decreases todo
    {
      var candType :| candType in todo;
      if candType !in acc {
        assert !KeysKnown(tags, planResults) by {
          assert candType in planResults[i].results[Model].Keys;
        }
        return None;
      }
      SumTagStep(planResults, i, candType, summed[candType]);
      var step := Accumulate(acc[candType], zoneTallies[candType]);
      if step.None? {
        SumTagNoneStays(planResults, i + 1, candType);
        return None;
      }
      acc := acc[candType := step.value];
      todo := todo - {candType};
      done := done + {candType};
    }
    forall tag | tag in tags && tag !in done
      ensures SumTag(planResults[..i + 1], tag) == Some(acc[tag])
    {
      SumTagStep(planResults, i, tag, summed[tag]);
    }
    r := Some(acc);
  }

  /** `condense_results`: for the one generator, start from an empty list for
      every tag in `tags` and fold in every zone's lists, tag by tag. */
  method CondenseResults(tags: set<string>, planResults: seq<ZoneRecord>) returns (r: Option<map<string, Tallies>>)
    ensures r == Condense(tags, planResults)
  {
    var summed: Tallies := map tag | tag in tags :: [];
    var i := 0;
    while i < |planResults|
      invariant 0 <= i <= |planResults|
      invariant summed.Keys == tags
      invariant KeysKnown(tags, planResults[..i])
      invariant forall tag :: tag in tags ==> SumTag(planResults[..i], tag) == Some(summed[tag])
    {
      var item := planResults[i];
      if Model !in item.results {
        assert !KeysKnown(tags, planResults);
        return None;
      }
      var next := AddZone(tags, planResults, i, summed);
      if next.None? {
        return None;
      }
      summed := next.value;
      assert KeysKnown(tags, planResults[..i + 1]) by {
        assert planResults[..i + 1] == planResults[..i] + [item];
      }
      i := i + 1;
    }
    assert planResults[..i] == planResults;
    assert summed == map tag | tag in tags :: SumTag(planResults, tag).value;
    r := Some(map[Model := summed]);
  }
}
