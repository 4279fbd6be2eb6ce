/** Urgency classification of a domain by the number of whole days left
    before its registration expires (`getClass` in src/index.js). */
module Classifier {

  /** The four labels the report uses, from most to least urgent. */
  datatype Urgency = Past | Urgent | Soon | Ok

  /** Day counts below `PastBelow` are already expired. */
  const PastBelow: int := 0
  /** Day counts below `UrgentBelow` (and not past) are urgent. */
  const UrgentBelow: int := 10
  /** Day counts below `SoonBelow` (and not urgent) are soon; the rest are ok. */
  const SoonBelow: int := 30

  /** The thresholds in increasing order. */
  const Thresholds: seq<int> := [PastBelow, UrgentBelow, SoonBelow]

  /** Position of a label in the order past < urgent < soon < ok. */
  function Rank(u: Urgency): (n: nat)
    ensures n < 4
  {
    match u
    case Past => 0
    case Urgent => 1
    case Soon => 2
    case Ok => 3
  }

  /** The label of a day count: each label covers one half-open interval
      of day counts, and the intervals cover every integer. */
  function GetClass(days: int): (u: Urgency)
    ensures u == Past <==> days < PastBelow
    ensures u == Urgent <==> PastBelow <= days < UrgentBelow
    ensures u == Soon <==> UrgentBelow <= days < SoonBelow
    ensures u == Ok <==> SoonBelow <= days
  {
    if days < PastBelow then Past
    else if days < UrgentBelow then Urgent
    else if days < SoonBelow then Soon
    else Ok
  }

  /** Reference definition of the classification: how many of the thresholds
      `ts` the day count has reached. */
  function CountReached(ts: seq<int>, days: int): (n: nat)
    ensures n <= |ts|
  {
    if ts == [] then 0
    else (if ts[0] <= days then 1 else 0) + CountReached(ts[1..], days)
  }

  /** The rank of a day count's label is the number of thresholds it has
      reached. */
  lemma {:induction false} GetClassRank(days: int)
    ensures Rank(GetClass(days)) == CountReached(Thresholds, days)
  {
    var soonOnly := [SoonBelow];
    assert soonOnly[1..] == [];
    assert CountReached(soonOnly, days) == (if SoonBelow <= days then 1 else 0);
    var fromUrgent := [UrgentBelow, SoonBelow];
    assert fromUrgent[1..] == soonOnly;
    assert Thresholds[1..] == fromUrgent;
  }

  /** Reaching thresholds is monotone in the day count. */
  lemma {:induction false} CountReachedMonotone(ts: seq<int>, d1: int, d2: int)
    requires d1 <= d2
    ensures CountReached(ts, d1) <= CountReached(ts, d2)
  {
    if ts != [] {
      CountReachedMonotone(ts[1..], d1, d2);
    }
  }

  /** More days left never gives a more urgent label. */
  lemma GetClassMonotone(d1: int, d2: int)
    requires d1 <= d2
    ensures Rank(GetClass(d1)) <= Rank(GetClass(d2))
  {
    GetClassRank(d1);
    GetClassRank(d2);
    CountReachedMonotone(Thresholds, d1, d2);
  }
}
