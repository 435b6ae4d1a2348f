/**
  Winner sets and how many of them a bloc takes. An STV run reports its
  winners as a list of sets of candidate names; `count_winners` walks every
  name of every set and counts those that belong to a party. How a name is
  matched against a party differs between the two-bloc and the three-bloc
  code, so the counting here is parametrised by that matching relation.
 */
module Winners {

  /** A candidate identifier. Every name the simulations produce is non-empty,
      and the matching code reads `cand[0]`, which would raise on "". */
  type Name = s: string | |s| > 0 witness "C1"

  /** The ballot generator followed by the STV count, which run in an external
      library: given the zone number, the zone's bloc shares, the slate of each
      bloc and the index of the trial, the winners of that trial. */
  type TrialFn = (int, map<string, real>, map<string, seq<Name>>, nat) -> seq<set<Name>>

  /** The names of `s` that `matches` assigns to `party`. */
  function Matching(s: set<Name>, party: string, matches: (Name, string) -> bool): set<Name>
  {
    set c | c in s && matches(c, party)
  }

  /** The number of (set, name) occurrences in `elected` that match `party`:
      a name counts once for every set it is in. */
  function Count(elected: seq<set<Name>>, party: string, matches: (Name, string) -> bool): nat
    decreases |elected|
  {
    if |elected| == 0 then 0
    else Count(elected[..|elected| - 1], party, matches) + |Matching(elected[|elected| - 1], party, matches)|
  }

  /** The total size of all the winner sets. */
  function TotalSize(elected: seq<set<Name>>): nat
    decreases |elected|
  {
    if |elected| == 0 then 0 else TotalSize(elected[..|elected| - 1]) + |elected[|elected| - 1]|
  }

  /** Extending the list by one set adds that set's matching names. */
  lemma CountSnoc(elected: seq<set<Name>>, s: set<Name>, party: string, matches: (Name, string) -> bool)
    ensures Count(elected + [s], party, matches) == Count(elected, party, matches) + |Matching(s, party, matches)|
    ensures TotalSize(elected + [s]) == TotalSize(elected) + |s|
  {
    assert (elected + [s])[..|elected|] == elected;
  }

  /** Adding one new name to a set adds one match exactly when it matches. */
  lemma MatchingAddOne(done: set<Name>, cand: Name, party: string, matches: (Name, string) -> bool)
    requires cand !in done
    ensures |Matching(done + {cand}, party, matches)| ==
            |Matching(done, party, matches)| + (if matches(cand, party) then 1 else 0)
  {
    assert Matching(done + {cand}, party, matches) ==
           Matching(done, party, matches) + (if matches(cand, party) then {cand} else {});
  }

  lemma SubsetCard(a: set<Name>, b: set<Name>)
    requires a <= b
    ensures |a| <= |b|
  {
    assert b == a + (b - a);
  }

  /** However the names are matched, a party never takes more than all the winners. */
  lemma {:induction false} CountBounded(elected: seq<set<Name>>, party: string, matches: (Name, string) -> bool)
    ensures 0 <= Count(elected, party, matches) <= TotalSize(elected)
    decreases |elected|
  {
    if |elected| > 0 {
      var last := elected[|elected| - 1];
      CountBounded(elected[..|elected| - 1], party, matches);
      SubsetCard(Matching(last, party, matches), last);
    }
  }

  /** `c` is assigned to exactly one of the parties `p`, `q`. */
  predicate ExactlyOne2(c: Name, p: string, q: string, matches: (Name, string) -> bool)
  {
    (if matches(c, p) then 1 else 0) + (if matches(c, q) then 1 else 0) == 1
  }

  /** `c` is assigned to exactly one of the parties `p`, `q`, `r`. */
  predicate ExactlyOne3(c: Name, p: string, q: string, r: string, matches: (Name, string) -> bool)
  {
    (if matches(c, p) then 1 else 0) + (if matches(c, q) then 1 else 0) + (if matches(c, r) then 1 else 0) == 1
  }

  lemma SetCover2(s: set<Name>, p: string, q: string, matches: (Name, string) -> bool)
    requires forall c :: c in s ==> ExactlyOne2(c, p, q, matches)
    ensures |Matching(s, p, matches)| + |Matching(s, q, matches)| == |s|
  {
    var a, b := Matching(s, p, matches), Matching(s, q, matches);
    assert a + b == s;
    assert a * b == {};
  }

  lemma SetCover3(s: set<Name>, p: string, q: string, r: string, matches: (Name, string) -> bool)
    requires forall c :: c in s ==> ExactlyOne3(c, p, q, r, matches)
    ensures |Matching(s, p, matches)| + |Matching(s, q, matches)| + |Matching(s, r, matches)| == |s|
  {
    var a, b, d := Matching(s, p, matches), Matching(s, q, matches), Matching(s, r, matches);
    assert a * b == {};
    assert (a + b) * d == {};
    assert a + b + d == s;
  }

  /** When every winner belongs to exactly one of two parties, their counts add
      up to the number of winners. */
  lemma {:induction false} CountCover2(elected: seq<set<Name>>, p: string, q: string, matches: (Name, string) -> bool)
    requires forall i, c :: 0 <= i < |elected| && c in elected[i] ==> ExactlyOne2(c, p, q, matches)
    ensures Count(elected, p, matches) + Count(elected, q, matches) == TotalSize(elected)
    decreases |elected|
  {
    if |elected| > 0 {
      var n := |elected| - 1;
      var init := elected[..n];
      assert forall i, c :: 0 <= i < |init| && c in init[i] ==> ExactlyOne2(c, p, q, matches) by {
        forall i, c | 0 <= i < |init| && c in init[i] ensures ExactlyOne2(c, p, q, matches) {
          assert init[i] == elected[i];
        }
      }
      CountCover2(init, p, q, matches);
      SetCover2(elected[n], p, q, matches);
    }
  }

  /** When every winner belongs to exactly one of three parties, their counts
      add up to the number of winners. */
  lemma {:induction false} CountCover3(elected: seq<set<Name>>, p: string, q: string, r: string, matches: (Name, string) -> bool)
    requires forall i, c :: 0 <= i < |elected| && c in elected[i] ==> ExactlyOne3(c, p, q, r, matches)
    ensures Count(elected, p, matches) + Count(elected, q, matches) + Count(elected, r, matches) == TotalSize(elected)
    decreases |elected|
  {
    if |elected| > 0 {
      var n := |elected| - 1;
      var init := elected[..n];
      assert forall i, c :: 0 <= i < |init| && c in init[i] ==> ExactlyOne3(c, p, q, r, matches) by {
        forall i, c | 0 <= i < |init| && c in init[i] ensures ExactlyOne3(c, p, q, r, matches) {
          assert init[i] == elected[i];
        }
      }
      CountCover3(init, p, q, r, matches);
      SetCover3(elected[n], p, q, r, matches);
    }
  }

  /** The counts for `party` over the first `n` trials of a zone: entry `t` is
      the party's number of winners in trial `t`. */
  function TrialCounts(trial: TrialFn, zone: int, shares: map<string, real>, slates: map<string, seq<Name>>,
                       n: nat, party: string, matches: (Name, string) -> bool): seq<int>
    decreases n
  {
    if n == 0 then []
    else TrialCounts(trial, zone, shares, slates, n - 1, party, matches) + [Count(trial(zone, shares, slates, n - 1), party, matches)]
  }

  /** The list has one entry per trial, and entry `t` is the count of trial `t`. */
  lemma {:induction false} TrialCountsAt(trial: TrialFn, zone: int, shares: map<string, real>, slates: map<string, seq<Name>>,
                                         n: nat, party: string, matches: (Name, string) -> bool)
    ensures |TrialCounts(trial, zone, shares, slates, n, party, matches)| == n
    ensures forall t :: 0 <= t < n ==>
              TrialCounts(trial, zone, shares, slates, n, party, matches)[t] == Count(trial(zone, shares, slates, t), party, matches)
    decreases n
  {
    if n > 0 {
      TrialCountsAt(trial, zone, shares, slates, n - 1, party, matches);
    }
  }

  /** The number of names `pool[:k]` keeps from a pool of ten. */
  function SlateSize(k: int): nat
  {
    if k >= 0 then (if k <= 10 then k else 10) else (if 10 + k >= 0 then 10 + k else 0)
  }

  /** The decimal digit `d` as a character. */
  function DigitChar(d: nat): char
    requires d < 10
  {
    "0123456789"[d]
  }

  /** The decimal text of `n`, as Python's `str` writes a non-negative int;
      candidate names are a bloc tag followed by such an index. */
  function Decimal(n: nat): string
    decreases n
  {
    if n < 10 then [DigitChar(n)] else Decimal(n / 10) + [DigitChar(n % 10)]
  }
}
