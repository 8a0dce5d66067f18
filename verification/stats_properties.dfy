/** Properties of the query engine: what `Execute` answers in terms of the
    records themselves, how empty sets and time bounds behave, how the
    builder composes, and the answers on the source's four-record fixture. */
module StatsProperties {
  import opened Wrappers
  import opened Apex
  import opened Observations
  import opened Stats

  // ---------------------------------------------------------------------------
  // `Execute` in terms of the input records
  // ---------------------------------------------------------------------------

  /** "No data" is answered exactly when no record passes all four filters. */
  lemma ExecuteNoneIffNothingMatches(q: Query, records: seq<Observation>)
    ensures Execute(q, records).None? <==> forall o :: o in records ==> !Matches(q, o)
  {
    var m := Matching(q, records);
    if m != [] {
      assert m[0] in m;
    }
  }

  /** Each maximum bounds every record that answers the query, and is the
      value of one of them. */
  lemma ExecuteMaximaAreAttained(q: Query, records: seq<Observation>)
    requires Execute(q, records).Some?
    ensures forall o :: o in records && Matches(q, o) ==>
      o.damageDealt <= Execute(q, records).value.maxDamage
      && o.numberOfKills <= Execute(q, records).value.maxKills
    ensures exists o :: o in records && Matches(q, o) && o.damageDealt == Execute(q, records).value.maxDamage
    ensures exists o :: o in records && Matches(q, o) && o.numberOfKills == Execute(q, records).value.maxKills
  {
    var m := Matching(q, records);
    var r := Execute(q, records).value;
    forall o | o in records && Matches(q, o)
      ensures o.damageDealt <= r.maxDamage && o.numberOfKills <= r.maxKills
    {
      var i :| 0 <= i < |m| && m[i] == o;
      assert Value(m[i], Damage) <= r.maxDamage;
      assert Value(m[i], Kills) <= r.maxKills;
    }
    var i :| 0 <= i < |m| && Value(m[i], Damage) == r.maxDamage;
    assert m[i] in m;
    var j :| 0 <= j < |m| && Value(m[j], Kills) == r.maxKills;
    assert m[j] in m;
  }

  // ---------------------------------------------------------------------------
  // An unrestricted query, and empty sets
  // ---------------------------------------------------------------------------

  lemma {:induction false} KeepEverything(s: seq<Observation>, p: Observation -> bool)
    requires forall o :: o in s ==> p(o)
    ensures Keep(s, p) == s
    decreases |s|
  {
    if |s| > 0 {
      assert forall o :: o in s[1..] ==> o in s;
      KeepEverything(s[1..], p);
    }
  }

  /** A fresh query counts, sums and maximises over every record, and answers
      "no data" only for an empty log. */
  lemma UnrestrictedQueryCoversAll(records: seq<Observation>)
    ensures Execute(NewQuery(), records).None? <==> records == []
    ensures records != [] ==> Execute(NewQuery(), records) == Some(QueryResult(
      Max(records, Damage), Max(records, Kills), Sum(records, Damage), Sum(records, Kills), |records|))
  {
    KeepEverything(records, o => Matches(NewQuery(), o));
  }

  /** Two queries that agree on every record select the same records. */
  lemma {:induction false} MatchingCongruent(q: Query, q': Query, records: seq<Observation>)
    requires forall o :: o in records ==> Matches(q, o) == Matches(q', o)
    ensures Matching(q, records) == Matching(q', records)
    decreases |records|
  {
    if |records| > 0 {
      assert forall o :: o in records[1..] ==> o in records;
      MatchingCongruent(q, q', records[1..]);
    }
  }

  lemma EveryLegendListed(l: Legend)
    ensures l in AllLegends
  {
    match l
    case Bangalore =>
    case Bloodhound =>
    case Caustic =>
    case Gibraltar =>
    case Lifeline =>
    case Mirage =>
    case Octane =>
    case Pathfinder =>
    case Wraith =>
  }

  lemma EverySquadTypeListed(t: SquadType)
    ensures t in AllSquadTypes
  {
    match t
    case Solo =>
    case Duo =>
    case Trio =>
    case Unknown =>
  }

  /** An empty legend set restricts nothing: it answers exactly as the set of
      all nine legends does. */
  lemma EmptyLegendSetAcceptsAll(q: Query, records: seq<Observation>)
    ensures Execute(q.(legends := {}), records) == Execute(q.(legends := AllLegends), records)
  {
    forall o | o in records
      ensures Matches(q.(legends := {}), o) == Matches(q.(legends := AllLegends), o)
    {
      EveryLegendListed(o.legend);
    }
    MatchingCongruent(q.(legends := {}), q.(legends := AllLegends), records);
  }

  /** An empty squad-type set restricts nothing: it answers exactly as the set
      of all four squad types does. */
  lemma EmptySquadTypeSetAcceptsAll(q: Query, records: seq<Observation>)
    ensures Execute(q.(squadTypes := {}), records) == Execute(q.(squadTypes := AllSquadTypes), records)
  {
    forall o | o in records
      ensures Matches(q.(squadTypes := {}), o) == Matches(q.(squadTypes := AllSquadTypes), o)
    {
      EverySquadTypeListed(o.squadType);
    }
    MatchingCongruent(q.(squadTypes := {}), q.(squadTypes := AllSquadTypes), records);
  }

  /** A non-empty legend or squad-type set admits exactly its members, on
      that dimension alone: the record must be a member and pass the rest of
      the query. */
  lemma NonEmptySetsAdmitMembers(q: Query, o: Observation)
    ensures q.legends != {} ==>
      (Matches(q, o) <==> o.legend in q.legends && Matches(q.(legends := {}), o))
    ensures q.squadTypes != {} ==>
      (Matches(q, o) <==> o.squadType in q.squadTypes && Matches(q.(squadTypes := {}), o))
  {
  }

  // ---------------------------------------------------------------------------
  // Strict time bounds
  // ---------------------------------------------------------------------------

  /** No record that answers a query lies exactly on one of its bounds. */
  lemma BoundsAreStrict(q: Query, records: seq<Observation>)
    ensures forall o :: o in Matching(q, records) && q.before.Some? ==> o.at < q.before.value
    ensures forall o :: o in Matching(q, records) && q.after.Some? ==> q.after.value < o.at
    ensures forall o :: o in Matching(q, records) ==> Some(o.at) != q.before && Some(o.at) != q.after
  {
  }

  /** A lone record exactly at the `before` or the `after` instant yields
      "no data". */
  lemma RecordOnBoundIsDropped(q: Query, o: Observation)
    requires q.before == Some(o.at) || q.after == Some(o.at)
    ensures Execute(q, [o]) == None
  {
    assert !Matches(q, o);
    KeepCons(o, [], x => Matches(q, x));
  }

  // ---------------------------------------------------------------------------
  // The builder
  // ---------------------------------------------------------------------------

  /** Adding a legend twice is adding it once. */
  lemma MatchLegendIdempotent(q: Query, l: Legend)
    ensures MatchLegend(MatchLegend(q, l), l) == MatchLegend(q, l)
  {
  }

  /** Adding a squad type twice is adding it once. */
  lemma MatchSquadTypeIdempotent(q: Query, t: SquadType)
    ensures MatchSquadType(MatchSquadType(q, t), t) == MatchSquadType(q, t)
  {
  }

  /** The list forms agree with repeated single additions in any order. */
  lemma MatchListsIgnoreOrderAndDuplicates(q: Query, ls: seq<Legend>, ls': seq<Legend>, ts: seq<SquadType>, ts': seq<SquadType>)
    requires forall l :: l in ls <==> l in ls'
    requires forall t :: t in ts <==> t in ts'
    ensures MatchLegends(q, ls) == MatchLegends(q, ls')
    ensures MatchSquadTypes(q, ts) == MatchSquadTypes(q, ts')
  {
    assert (set l | l in ls) == (set l | l in ls');
    assert (set t | t in ts) == (set t | t in ts');
  }

  /** A later bound replaces an earlier one. */
  lemma LaterBoundReplaces(q: Query, a: int, b: int)
    ensures After(After(q, a), b) == After(q, b)
    ensures Before(Before(q, a), b) == Before(q, b)
  {
  }

  // ---------------------------------------------------------------------------
  // The fixture of the source's unit tests
  // ---------------------------------------------------------------------------

  const Record1 := Observation(5, 891, 3, Bangalore, 1555970702, Solo, "")
  const Record2 := Observation(3, 520, 6, Wraith, 1555969322, Duo, "")
  const Record3 := Observation(1, 123, 18, Wraith, 1555961822, Solo, "")
  const Record4 := Observation(9, 1032, 1, Pathfinder, 1555807022, Trio, "")

  function SampleData(): seq<Observation> {
    [Record1, Record2, Record3, Record4]
  }

  /** The part of one record that `Matching` keeps. */
  function Kept(q: Query, x: Observation): seq<Observation> {
    if Matches(q, x) then [x] else []
  }

  lemma MatchingCons(q: Query, x: Observation, s: seq<Observation>)
    ensures Matching(q, [x] + s) == Kept(q, x) + Matching(q, s)
  {
    KeepCons(x, s, o => Matches(q, o));
    if !Matches(q, x) {
      assert [] + Matching(q, s) == Matching(q, s);
    }
  }

  /** `Matching` on four records, computed by peeling them off the front. */
  lemma MatchingOfFour(q: Query, a: Observation, b: Observation, c: Observation, d: Observation)
    ensures Matching(q, [a, b, c, d]) == Kept(q, a) + (Kept(q, b) + (Kept(q, c) + Kept(q, d)))
  {
    assert [a, b, c, d] == [a] + ([b] + ([c] + ([d] + [])));
    MatchingCons(q, a, [b] + ([c] + ([d] + [])));
    MatchingCons(q, b, [c] + ([d] + []));
    MatchingCons(q, c, [d] + []);
    MatchingCons(q, d, []);
    assert Kept(q, d) + [] == Kept(q, d);
  }

  lemma SumMaxCons(x: Observation, s: seq<Observation>, stat: Stat)
    ensures Sum([x] + s, stat) == Value(x, stat) + Sum(s, stat)
    ensures Max([x] + s, stat) == Larger(Value(x, stat), Max(s, stat))
  {
    assert ([x] + s)[0] == x;
    assert ([x] + s)[1..] == s;
  }

  lemma SumMaxOne(a: Observation, stat: Stat)
    ensures Sum([a], stat) == Value(a, stat) && Max([a], stat) == Value(a, stat)
  {
    SumMaxCons(a, [], stat);
    assert [a] + [] == [a];
  }

  lemma SumMaxTwo(a: Observation, b: Observation, stat: Stat)
    ensures Sum([a, b], stat) == Value(a, stat) + Value(b, stat)
    ensures Max([a, b], stat) == Larger(Value(a, stat), Value(b, stat))
  {
    SumMaxOne(b, stat);
    SumMaxCons(a, [b], stat);
    assert [a] + [b] == [a, b];
  }

  lemma SumMaxThree(b: Observation, c: Observation, d: Observation, stat: Stat)
    ensures Sum([b, c, d], stat) == Value(b, stat) + Value(c, stat) + Value(d, stat)
    ensures Max([b, c, d], stat) == Larger(Value(b, stat), Larger(Value(c, stat), Value(d, stat)))
  {
    SumMaxTwo(c, d, stat);
    SumMaxCons(b, [c, d], stat);
    assert [b] + [c, d] == [b, c, d];
  }

  lemma SumMaxFour(a: Observation, b: Observation, c: Observation, d: Observation, stat: Stat)
    ensures Sum([a, b, c, d], stat) == Value(a, stat) + Value(b, stat) + Value(c, stat) + Value(d, stat)
    ensures Max([a, b, c, d], stat) ==
      Larger(Value(a, stat), Larger(Value(b, stat), Larger(Value(c, stat), Value(d, stat))))
  {
    SumMaxThree(b, c, d, stat);
    SumMaxCons(a, [b, c, d], stat);
    assert [a] + [b, c, d] == [a, b, c, d];
  }

  /** `Execute` once the matching records are known. */
  lemma ExecuteOfMatching(q: Query, records: seq<Observation>, m: seq<Observation>)
    requires Matching(q, records) == m && m != []
    ensures Execute(q, records) == Some(QueryResult(Max(m, Damage), Max(m, Kills), Sum(m, Damage), Sum(m, Kills), |m|))
  {
  }

  // Each fixture lemma receives the fixture as a parameter pinned by its
  // requires: stated over the literal `SampleData()`, the verifier unfolds
  // `Execute` and `Keep` on the literal and runs out of resource.

  /** `unfiltered`: every record counts. */
  lemma FixtureUnfiltered(records: seq<Observation>)
    requires records == SampleData()
    ensures Execute(NewQuery(), records) == Some(QueryResult(1032, 9, 2566, 18, 4))
  {
    var q := NewQuery();
    var m := [Record1, Record2, Record3, Record4];
    assert Matching(q, records) == m by {
      MatchingOfFour(q, Record1, Record2, Record3, Record4);
    }
    assert Max(m, Damage) == 1032 && Sum(m, Damage) == 2566 by {
      SumMaxFour(Record1, Record2, Record3, Record4, Damage);
    }
    assert Max(m, Kills) == 9 && Sum(m, Kills) == 18 by {
      SumMaxFour(Record1, Record2, Record3, Record4, Kills);
    }
    ExecuteOfMatching(q, records, m);
  }

  /** `only_solo_games`. */
  lemma FixtureOnlySolo(records: seq<Observation>)
    requires records == SampleData()
    ensures Execute(MatchSquadType(NewQuery(), Solo), records) == Some(QueryResult(891, 5, 1014, 6, 2))
  {
    var q := MatchSquadType(NewQuery(), Solo);
    var m := [Record1, Record3];
    assert Matching(q, records) == m by {
      MatchingOfFour(q, Record1, Record2, Record3, Record4);
    }
    assert Max(m, Damage) == 891 && Sum(m, Damage) == 1014 by {
      SumMaxTwo(Record1, Record3, Damage);
    }
    assert Max(m, Kills) == 5 && Sum(m, Kills) == 6 by {
      SumMaxTwo(Record1, Record3, Kills);
    }
    ExecuteOfMatching(q, records, m);
  }

  /** `only_non_solo_games`: the list form accepts both listed types. */
  lemma FixtureOnlyNonSolo(records: seq<Observation>)
    requires records == SampleData()
    ensures Execute(MatchSquadTypes(NewQuery(), [Duo, Trio]), records) == Some(QueryResult(1032, 9, 1552, 12, 2))
  {
    var q := MatchSquadTypes(NewQuery(), [Duo, Trio]);
    var m := [Record2, Record4];
    assert Matching(q, records) == m by {
      assert q.squadTypes == {Duo, Trio} by {
        var listed := [Duo, Trio];
        assert forall t :: t in listed <==> t == Duo || t == Trio;
      }
      MatchingOfFour(q, Record1, Record2, Record3, Record4);
    }
    assert Max(m, Damage) == 1032 && Sum(m, Damage) == 1552 by {
      SumMaxTwo(Record2, Record4, Damage);
    }
    assert Max(m, Kills) == 9 && Sum(m, Kills) == 12 by {
      SumMaxTwo(Record2, Record4, Kills);
    }
    ExecuteOfMatching(q, records, m);
  }

  /** `only_solo_games_with_wraith`: both sets restrict at once. */
  lemma FixtureOnlySoloWraith(records: seq<Observation>)
    requires records == SampleData()
    ensures Execute(MatchLegend(MatchSquadType(NewQuery(), Solo), Wraith), records) == Some(QueryResult(123, 1, 123, 1, 1))
  {
    var q := MatchLegend(MatchSquadType(NewQuery(), Solo), Wraith);
    var m := [Record3];
    assert Matching(q, records) == m by {
      MatchingOfFour(q, Record1, Record2, Record3, Record4);
    }
    assert Max(m, Damage) == 123 && Sum(m, Damage) == 123 by {
      SumMaxOne(Record3, Damage);
    }
    assert Max(m, Kills) == 1 && Sum(m, Kills) == 1 by {
      SumMaxOne(Record3, Kills);
    }
    ExecuteOfMatching(q, records, m);
  }

  /** `only_games_after_and_before`: the record exactly at `before` is
      dropped, and so is the one a second before `after`. */
  lemma FixtureAfterAndBefore(records: seq<Observation>)
    requires records == SampleData()
    ensures Execute(Before(After(NewQuery(), 1555807022 + 1), 1555969322), records) == Some(QueryResult(123, 1, 123, 1, 1))
  {
    var q := Before(After(NewQuery(), 1555807022 + 1), 1555969322);
    var m := [Record3];
    assert Matching(q, records) == m by {
      MatchingOfFour(q, Record1, Record2, Record3, Record4);
    }
    assert Max(m, Damage) == 123 && Sum(m, Damage) == 123 by {
      SumMaxOne(Record3, Damage);
    }
    assert Max(m, Kills) == 1 && Sum(m, Kills) == 1 by {
      SumMaxOne(Record3, Kills);
    }
    ExecuteOfMatching(q, records, m);
  }
}
