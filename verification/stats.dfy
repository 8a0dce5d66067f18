/** The statistics query engine (src/stats.rs): a `Query` built up from
    filters, and `Execute`, which keeps the records that pass every filter and
    folds them into totals, maxima and a count. */
module Stats {
  import opened Wrappers
  import opened Apex
  import opened Observations

  /** The integer fields of a query's answer. */
  datatype QueryResult = QueryResult(
    maxDamage: nat,
    maxKills: nat,
    totalDamage: nat,
    totalKills: nat,
    numberOfMatches: nat)

  /** The accepted legends and squad types (an empty set accepts all) and the
      exclusive time bounds, each optional. */
  datatype Query = Query(
    legends: set<Legend>,
    squadTypes: set<SquadType>,
    after: Option<int>,
    before: Option<int>)

  // ---------------------------------------------------------------------------
  // Reference semantics
  // ---------------------------------------------------------------------------

  /** A record answers a query when all four conditions hold: its legend is
      accepted, its squad type is accepted, it lies strictly before `before`
      and strictly after `after` (each only when set). */
  predicate Matches(q: Query, o: Observation) {
    && (q.legends == {} || o.legend in q.legends)
    && (q.squadTypes == {} || o.squadType in q.squadTypes)
    && (q.before.Some? ==> o.at < q.before.value)
    && (q.after.Some? ==> q.after.value < o.at)
  }

  /** The records of `s` that satisfy `p`, in their original order. */
  function Keep(s: seq<Observation>, p: Observation -> bool): (r: seq<Observation>)
    ensures |r| <= |s|
    ensures forall o :: o in r <==> o in s && p(o)
  {
    if |s| == 0 then []
    else if p(s[0]) then [s[0]] + Keep(s[1..], p)
    else Keep(s[1..], p)
  }

  /** `Keep` keeps every copy of a record that satisfies `p` and no copy of
      one that does not, so identical records are each counted. */
  lemma {:induction false} KeepCounts(s: seq<Observation>, p: Observation -> bool)
    ensures forall o :: multiset(Keep(s, p))[o] == if p(o) then multiset(s)[o] else 0
    decreases |s|
  {
    if |s| > 0 {
      KeepCounts(s[1..], p);
      assert s == [s[0]] + s[1..];
      assert multiset(s) == multiset([s[0]]) + multiset(s[1..]);
    }
  }

  /** Exactly the subsequence of records that answer the query. */
  function Matching(q: Query, records: seq<Observation>): seq<Observation> {
    Keep(records, o => Matches(q, o))
  }

  /** The two summed and maximised quantities of a record. */
  datatype Stat = Damage | Kills

  function Value(o: Observation, stat: Stat): nat {
    match stat
    case Damage => o.damageDealt
    case Kills => o.numberOfKills
  }

  function Sum(s: seq<Observation>, stat: Stat): nat {
    if |s| == 0 then 0 else Value(s[0], stat) + Sum(s[1..], stat)
  }

  function Larger(a: nat, b: nat): nat {
    if a < b then b else a
  }

  /** The largest value in `s`, or 0 for no records: an upper bound of every
      value that some record attains. */
  function Max(s: seq<Observation>, stat: Stat): (m: nat)
    ensures forall i :: 0 <= i < |s| ==> Value(s[i], stat) <= m
    ensures |s| == 0 ==> m == 0
    ensures |s| > 0 ==> exists i :: 0 <= i < |s| && Value(s[i], stat) == m
  {
    if |s| == 0 then 0 else Larger(Value(s[0], stat), Max(s[1..], stat))
  }

  // ---------------------------------------------------------------------------
  // The builder
  // ---------------------------------------------------------------------------

  /** `Query::new`: no restriction at all, so every record answers it. */
  function NewQuery(): (q: Query)
    ensures forall o :: Matches(q, o)
  {
    Query({}, {}, None, None)
  }

  /** `match_legend`: adds one accepted legend and changes nothing else. */
  function MatchLegend(q: Query, legend: Legend): (r: Query)
    ensures r.legends == q.legends + {legend}
    ensures r.squadTypes == q.squadTypes && r.after == q.after && r.before == q.before
  {
    q.(legends := q.legends + {legend})
  }

  /** `match_legends`: inserts the legends one by one, so the accepted set
      grows by exactly the legends listed, and nothing else changes. */
  function MatchLegends(q: Query, legends: seq<Legend>): (r: Query)
    ensures r.legends == q.legends + set l | l in legends
    ensures r.squadTypes == q.squadTypes && r.after == q.after && r.before == q.before
    decreases |legends|
  {
    if |legends| == 0 then q else MatchLegends(MatchLegend(q, legends[0]), legends[1..])
  }

  /** `match_squad_type`: adds one accepted squad type and changes nothing else. */
  function MatchSquadType(q: Query, squadType: SquadType): (r: Query)
    ensures r.squadTypes == q.squadTypes + {squadType}
    ensures r.legends == q.legends && r.after == q.after && r.before == q.before
  {
    q.(squadTypes := q.squadTypes + {squadType})
  }

  /** `match_squad_types`: inserts the squad types one by one, so the
      accepted set grows by exactly the types listed, and nothing else
      changes. */
  function MatchSquadTypes(q: Query, squadTypes: seq<SquadType>): (r: Query)
    ensures r.squadTypes == q.squadTypes + set t | t in squadTypes
    ensures r.legends == q.legends && r.after == q.after && r.before == q.before
    decreases |squadTypes|
  {
    if |squadTypes| == 0 then q else MatchSquadTypes(MatchSquadType(q, squadTypes[0]), squadTypes[1..])
  }

  /** `after`: sets (or replaces) the lower bound and changes nothing else. */
  function After(q: Query, after: int): (r: Query)
    ensures r.after == Some(after)
    ensures r.legends == q.legends && r.squadTypes == q.squadTypes && r.before == q.before
  {
    q.(after := Some(after))
  }

  /** `before`: sets (or replaces) the upper bound and changes nothing else. */
  function Before(q: Query, before: int): (r: Query)
    ensures r.before == Some(before)
    ensures r.legends == q.legends && r.squadTypes == q.squadTypes && r.after == q.after
  {
    q.(before := Some(before))
  }

  // ---------------------------------------------------------------------------
  // `execute`: four chained filters, then a fold
  // ---------------------------------------------------------------------------

  predicate LegendFilter(q: Query, o: Observation) {
    if q.legends == {} then true else o.legend in q.legends
  }

  predicate SquadTypeFilter(q: Query, o: Observation) {
    if q.squadTypes == {} then true else o.squadType in q.squadTypes
  }

  /** `before.cmp(&at) == Greater`, or true when no bound is set. */
  predicate BeforeFilter(q: Query, o: Observation) {
    match q.before
    case Some(before) => before > o.at
    case None => true
  }

  /** `after.cmp(&at) == Less`, or true when no bound is set. */
  predicate AfterFilter(q: Query, o: Observation) {
    match q.after
    case Some(after) => after < o.at
    case None => true
  }

  /** The iterator chain `records.filter(..).filter(..).filter(..).filter(..)`. */
  function FilterChain(q: Query, records: seq<Observation>): seq<Observation> {
    var byLegend := Keep(records, o => LegendFilter(q, o));
    var bySquadType := Keep(byLegend, o => SquadTypeFilter(q, o));
    var byBefore := Keep(bySquadType, o => BeforeFilter(q, o));
    Keep(byBefore, o => AfterFilter(q, o))
  }

  /** The fold's accumulator tuple. */
  datatype Tally = Tally(totalDamage: nat, totalKills: nat, maxDamage: nat, maxKills: nat, count: nat)

  const EmptyTally := Tally(0, 0, 0, 0, 0)

  /** The fold's closure: add to both totals, raise each running maximum when
      the record beats it, count one more. */
  function Step(t: Tally, o: Observation): Tally {
    var newMaxDamage := if t.maxDamage < o.damageDealt then o.damageDealt else t.maxDamage;
    var newMaxKills := if t.maxKills < o.numberOfKills then o.numberOfKills else t.maxKills;
    Tally(t.totalDamage + o.damageDealt, t.totalKills + o.numberOfKills, newMaxDamage, newMaxKills, t.count + 1)
  }

  /** `Iterator::fold`, left to right. */
  function Fold(t: Tally, s: seq<Observation>): Tally
    decreases |s|
  {
    if |s| == 0 then t else Fold(Step(t, s[0]), s[1..])
  }

  /** `Query::execute`. `None` exactly when no record answers the query;
      otherwise the count, the totals and the maxima of exactly the records
      that answer it. */
  function Execute(q: Query, records: seq<Observation>): (r: Option<QueryResult>)
    ensures r.None? <==> Matching(q, records) == []
    ensures r.Some? ==> r.value == QueryResult(
      Max(Matching(q, records), Damage),
      Max(Matching(q, records), Kills),
      Sum(Matching(q, records), Damage),
      Sum(Matching(q, records), Kills),
      |Matching(q, records)|)
  {
    FilterChainIsMatching(q, records);
    FoldComputesTotals(EmptyTally, Matching(q, records));
    var t := Fold(EmptyTally, FilterChain(q, records));
    if t.count == 0 then None
    else Some(QueryResult(t.maxDamage, t.maxKills, t.totalDamage, t.totalKills, t.count))
  }

  // ---------------------------------------------------------------------------
  // Correctness of `execute`
  // ---------------------------------------------------------------------------

  lemma KeepCons(x: Observation, s: seq<Observation>, p: Observation -> bool)
    ensures Keep([x] + s, p) == if p(x) then [x] + Keep(s, p) else Keep(s, p)
  {
    assert ([x] + s)[0] == x;
    assert ([x] + s)[1..] == s;
  }

  /** The four chained filters keep exactly the records that satisfy their
      conjunction, in the same order. */
  lemma {:induction false} FilterChainIsMatching(q: Query, records: seq<Observation>)
    ensures FilterChain(q, records) == Matching(q, records)
    decreases |records|
  {
    if |records| > 0 {
      var x, rest := records[0], records[1..];
      assert records == [x] + rest;
      FilterChainIsMatching(q, rest);
      var a := Keep(rest, o => LegendFilter(q, o));
      var b := Keep(a, o => SquadTypeFilter(q, o));
      var c := Keep(b, o => BeforeFilter(q, o));
      KeepCons(x, rest, o => LegendFilter(q, o));
      if LegendFilter(q, x) {
        KeepCons(x, a, o => SquadTypeFilter(q, o));
        if SquadTypeFilter(q, x) {
          KeepCons(x, b, o => BeforeFilter(q, o));
          if BeforeFilter(q, x) {
            KeepCons(x, c, o => AfterFilter(q, o));
          }
        }
      }
      KeepCons(x, rest, o => Matches(q, o));
    }
  }

  /** Folding `s` onto a tally adds the sums of `s` to its totals, its length
      to its count, and raises its maxima to those of `s`. */
  lemma {:induction false} FoldComputesTotals(t: Tally, s: seq<Observation>)
    ensures Fold(t, s).totalDamage == t.totalDamage + Sum(s, Damage)
    ensures Fold(t, s).totalKills == t.totalKills + Sum(s, Kills)
    ensures Fold(t, s).maxDamage == Larger(t.maxDamage, Max(s, Damage))
    ensures Fold(t, s).maxKills == Larger(t.maxKills, Max(s, Kills))
    ensures Fold(t, s).count == t.count + |s|
    decreases |s|
  {
    if |s| > 0 {
      FoldComputesTotals(Step(t, s[0]), s[1..]);
    }
  }
}
