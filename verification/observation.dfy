/** One recorded match (src/observation.rs) and the placement predicates
    derived from its squad position. */
module Observations {
  import opened Apex

  /** A match outcome. The source's `u64` counters are unbounded naturals
      here, and the local timestamp is an integer instant in any order-preserving
      unit (nanoseconds since the epoch, say); only its order is used. */
  datatype Observation = Observation(
    numberOfKills: nat,
    damageDealt: nat,
    squadPosition: nat,
    legend: Legend,
    at: int,
    squadType: SquadType,
    notes: string)

  /** The squad finished in the top three. There is no lower bound, so a
      recorded position of 0 counts too. */
  function IsTopThree(o: Observation): (r: bool)
    ensures o.squadPosition == 0 ==> r
  {
    o.squadPosition < 4
  }

  /** The squad finished first. Every win is a top-three finish. */
  function IsWin(o: Observation): (r: bool)
    ensures r ==> IsTopThree(o)
  {
    o.squadPosition == 1
  }

  /** The squad finished last, judged by a fixed threshold of 20 that does not
      depend on how many squads the lobby held. A last place is neither a
      win nor a top-three finish. */
  function IsLast(o: Observation): (r: bool)
    ensures r ==> !IsTopThree(o) && !IsWin(o)
  {
    o.squadPosition >= 20
  }

  /** The three predicates split the positions into bands: a win is in the
      top three, the top three and last place never overlap, and exactly the
      positions 4 to 19 fall in neither. */
  lemma PlacementBands(o: Observation)
    ensures IsWin(o) ==> IsTopThree(o)
    ensures !(IsTopThree(o) && IsLast(o))
    ensures !IsTopThree(o) && !IsLast(o) <==> 4 <= o.squadPosition < 20
    ensures o.squadPosition == 0 ==> IsTopThree(o) && !IsWin(o)
  {
  }
}
