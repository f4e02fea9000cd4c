/**
 * The second phase of the random character generator: the point budget spent
 * one random draw at a time on stats below the cap, with the guard that stops
 * the loop once every stat is full.
 */
module Allocation {
  import opened Types
  import opened Constants

  /** The sum of the entries' values. */
  function Total(stats: seq<CharacterStat>): int
  {
    if |stats| == 0 then 0 else stats[0].value + Total(stats[1..])
  }

  /** How many points the entries can still take before each reaches the cap. */
  function Room(stats: seq<CharacterStat>): nat
  {
    if |stats| == 0 then 0
    else (if stats[0].value < MAX_STAT_INITIAL then MAX_STAT_INITIAL - stats[0].value else 0) + Room(stats[1..])
  }

  /** `stats.every(s => s.value >= MAX_STAT_INITIAL)`. */
  predicate AllAtCap(stats: seq<CharacterStat>)
  {
    forall i :: 0 <= i < |stats| ==> stats[i].value >= MAX_STAT_INITIAL
  }

  function Max(a: int, b: int): int
  {
    if a < b then b else a
  }

  /** Replacing one entry's value changes the total by the difference. */
  lemma {:induction false} TotalUpdate(stats: seq<CharacterStat>, k: nat, v: int)
    requires k < |stats|
    ensures Total(stats[k := CharacterStat(stats[k].stat, v)]) == Total(stats) - stats[k].value + v
  {
    var t := stats[k := CharacterStat(stats[k].stat, v)];
    if k > 0 {
      assert t[1..] == stats[1..][k - 1 := CharacterStat(stats[k].stat, v)];
      TotalUpdate(stats[1..], k - 1, v);
    } else {
      assert t[1..] == stats[1..];
    }
  }

  /** Raising an entry below the cap by one uses up one unit of room. */
  lemma {:induction false} RoomUpdate(stats: seq<CharacterStat>, k: nat)
    requires k < |stats| && stats[k].value < MAX_STAT_INITIAL
    ensures Room(stats[k := CharacterStat(stats[k].stat, stats[k].value + 1)]) == Room(stats) - 1
  {
    var t := stats[k := CharacterStat(stats[k].stat, stats[k].value + 1)];
    if k > 0 {
      assert t[1..] == stats[1..][k - 1 := CharacterStat(stats[k].stat, stats[k].value + 1)];
      RoomUpdate(stats[1..], k - 1);
    } else {
      assert t[1..] == stats[1..];
    }
  }

  /** No room is left exactly when every entry is at or above the cap. */
  lemma {:induction false} RoomZeroIffAllAtCap(stats: seq<CharacterStat>)
    ensures Room(stats) == 0 <==> AllAtCap(stats)
  {
    if |stats| > 0 {
      RoomZeroIffAllAtCap(stats[1..]);
      if AllAtCap(stats[1..]) && stats[0].value >= MAX_STAT_INITIAL {
        forall i | 0 <= i < |stats|
          ensures stats[i].value >= MAX_STAT_INITIAL
        {
          if i > 0 {
            assert stats[i] == stats[1..][i - 1];
          }
        }
      }
      if AllAtCap(stats) {
        forall i | 0 <= i < |stats[1..]|
          ensures stats[1..][i].value >= MAX_STAT_INITIAL
        {
          assert stats[1..][i] == stats[i + 1];
        }
      }
    }
  }

  /** The first half of the loop body: the drawn entry gains a point, and the budget loses
      one, exactly when the entry is below the cap; otherwise nothing changes. */
  function Step(stats: seq<CharacterStat>, points: int, idx: nat): (r: (seq<CharacterStat>, int))
    requires idx < |stats|
    ensures |r.0| == |stats| && forall j :: 0 <= j < |stats| ==> r.0[j].stat == stats[j].stat
    ensures r.1 + Total(r.0) == points + Total(stats)
    ensures r.1 == points - 1 <==> stats[idx].value < MAX_STAT_INITIAL
    ensures r.1 == points <==> r.0 == stats
    ensures forall j :: 0 <= j < |stats| ==>
      stats[j].value <= r.0[j].value <= Max(MAX_STAT_INITIAL, stats[j].value)
    ensures r.1 == points - 1 ==> Room(r.0) == Room(stats) - 1
  {
    if stats[idx].value < MAX_STAT_INITIAL then
      TotalUpdate(stats, idx, stats[idx].value + 1);
      RoomUpdate(stats, idx);
      (stats[idx := CharacterStat(stats[idx].stat, stats[idx].value + 1)], points - 1)
    else
      (stats, points)
  }

  /** Once every entry is full a draw changes nothing, so without the guard the loop
      would never end. */
  lemma StepOnFullStats(stats: seq<CharacterStat>, points: int, idx: nat)
    requires idx < |stats| && AllAtCap(stats)
    ensures Step(stats, points, idx) == (stats, points)
  {
  }

  /** Why the loop stopped: the budget is spent, every stat is full with points left, or
      the supplied draws ran out (the source would keep drawing). */
  datatype Exit = Spent | AllCapped | DrawsExhausted

  /** The entries and budget when the loop stops, with the number of draws it used. */
  datatype Allocation = Allocation(stats: seq<CharacterStat>, points: int, used: nat, exit: Exit)

  /** The values `Math.random()` may return. */
  predicate Draws(draws: seq<real>)
  {
    forall i :: 0 <= i < |draws| ==> 0.0 <= draws[i] < 1.0
  }

  /** The stat a draw picks: `Math.floor(r * STAT_KEYS.length)`. */
  function DrawnIndex(r: real): (i: nat)
    requires 0.0 <= r < 1.0
    ensures i < |STAT_KEYS|
  {
    RandomIndexInRange(|STAT_KEYS|, r);
    RandomIndex(|STAT_KEYS|, r)
  }

  /** The allocation loop, one draw per pass: `while (points > 0)`, a step, and the break
      once every stat is full while points remain. */
  function Allocate(stats: seq<CharacterStat>, points: int, draws: seq<real>): (r: Allocation)
    requires |stats| == |STAT_KEYS| && Draws(draws)
    ensures r.used <= |draws|
    decreases |draws|
  {
    if points <= 0 then Allocation(stats, points, 0, Spent)
    else if |draws| == 0 then Allocation(stats, points, 0, DrawsExhausted)
    else
      var (next, left) := Step(stats, points, DrawnIndex(draws[0]));
      if AllAtCap(next) && left > 0 then Allocation(next, left, 1, AllCapped)
      else
        var rest := Allocate(next, left, draws[1..]);
        Allocation(rest.stats, rest.points, rest.used + 1, rest.exit)
  }

  /** Every pass keeps `points + sum of values`, so the loop does too; the labels stay put. */
  lemma {:induction false} AllocateConserves(stats: seq<CharacterStat>, points: int, draws: seq<real>)
    requires |stats| == |STAT_KEYS| && Draws(draws)
    ensures var r := Allocate(stats, points, draws);
      && |r.stats| == |stats|
      && (forall j :: 0 <= j < |stats| ==> r.stats[j].stat == stats[j].stat)
      && r.points + Total(r.stats) == points + Total(stats)
    decreases |draws|
  {
    if points > 0 && |draws| > 0 {
      var (next, left) := Step(stats, points, DrawnIndex(draws[0]));
      if !(AllAtCap(next) && left > 0) {
        AllocateConserves(next, left, draws[1..]);
      }
    }
  }

  /** The loop never lowers a stat and never lifts one past the cap: each final value lies
      between its starting value and the larger of the cap and that value. */
  lemma {:induction false} AllocateBounds(stats: seq<CharacterStat>, points: int, draws: seq<real>)
    requires |stats| == |STAT_KEYS| && Draws(draws)
    ensures var r := Allocate(stats, points, draws);
      |r.stats| == |stats| &&
      forall j :: 0 <= j < |stats| ==>
        stats[j].value <= r.stats[j].value <= Max(MAX_STAT_INITIAL, stats[j].value)
    decreases |draws|
  {
    if points > 0 && |draws| > 0 {
      var (next, left) := Step(stats, points, DrawnIndex(draws[0]));
      if !(AllAtCap(next) && left > 0) {
        AllocateBounds(next, left, draws[1..]);
      }
    }
  }

  /** How the loop ends. From a non-negative budget the points never go negative, and it
      stops with the budget spent, or with points left and every stat full, or with the
      draws used up. */
  lemma {:induction false} AllocateExit(stats: seq<CharacterStat>, points: int, draws: seq<real>)
    requires |stats| == |STAT_KEYS| && Draws(draws) && points >= 0
    ensures var r := Allocate(stats, points, draws);
      && 0 <= r.points <= points
      && (r.exit == Spent ==> r.points == 0)
      && (r.exit == AllCapped ==> r.points > 0 && AllAtCap(r.stats))
      && (r.exit == DrawsExhausted ==> r.points > 0 && r.used == |draws|)
    decreases |draws|
  {
    if points > 0 && |draws| > 0 {
      var (next, left) := Step(stats, points, DrawnIndex(draws[0]));
      if !(AllAtCap(next) && left > 0) {
        AllocateExit(next, left, draws[1..]);
      }
    }
  }

  /** Unless the draws ran out, the points left are exactly those that did not fit:
      `max(0, points - room)`. */
  lemma {:induction false} AllocateLeftover(stats: seq<CharacterStat>, points: int, draws: seq<real>)
    requires |stats| == |STAT_KEYS| && Draws(draws) && points >= 0
    ensures var r := Allocate(stats, points, draws);
      r.exit != DrawsExhausted ==> r.points == Max(0, points - Room(stats))
    decreases |draws|
  {
    if points > 0 && |draws| > 0 {
      var (next, left) := Step(stats, points, DrawnIndex(draws[0]));
      assert left - Room(next) == points - Room(stats);
      if AllAtCap(next) && left > 0 {
        RoomZeroIffAllAtCap(next);
      } else {
        AllocateLeftover(next, left, draws[1..]);
      }
    }
  }

  /** Each draw that lands on a stat below the cap lowers the budget by one; a draw on a
      full stat leaves entries and budget alone. */
  lemma DrawEffect(stats: seq<CharacterStat>, points: int, r: real)
    requires |stats| == |STAT_KEYS| && 0.0 <= r < 1.0
    ensures var i := DrawnIndex(r);
      && (stats[i].value < MAX_STAT_INITIAL ==> Step(stats, points, i).1 == points - 1)
      && (stats[i].value >= MAX_STAT_INITIAL ==> Step(stats, points, i) == (stats, points))
  {
  }

  /** The `while` loop over the entries in place. Besides the new entries it returns the
      points left, the number of draws used and why it stopped. */
  method AllocatePoints(stats: array<CharacterStat>, draws: seq<real>)
    returns (points: int, used: nat, exit: Exit)
    requires stats.Length == |STAT_KEYS| && Draws(draws)
    modifies stats
    ensures Allocation(stats[..], points, used, exit) == Allocate(old(stats[..]), STAT_POINTS_TOTAL, draws)
  {
    points := STAT_POINTS_TOTAL;
    used := 0;
    exit := Spent;
    while points > 0
      invariant used <= |draws|
      invariant var r := Allocate(stats[..], points, draws[used..]);
        Allocate(old(stats[..]), STAT_POINTS_TOTAL, draws) == Allocation(r.stats, r.points, r.used + used, r.exit)
      decreases |draws| - used
    {
      if used == |draws| {
        exit := DrawsExhausted;
        break;
      }
      var idx := DrawnIndex(draws[used]);
      ghost var before, budget, rest := stats[..], points, draws[used..];
      assert rest[0] == draws[used] && rest[1..] == draws[used + 1..];
      points := StepEntry(stats, points, idx);
      AllocateNext(before, budget, rest, stats[..], points);
      used := used + 1;
      if AllAtCap(stats[..]) && points > 0 {
        exit := AllCapped;
        break;
      }
    }
  }

  /** One pass of the loop: the first draw's step, then either the break or the rest. */
  lemma AllocateNext(stats: seq<CharacterStat>, points: int, draws: seq<real>, next: seq<CharacterStat>, left: int)
    requires |stats| == |STAT_KEYS| && Draws(draws) && points > 0 && |draws| > 0
    requires (next, left) == Step(stats, points, DrawnIndex(draws[0]))
    ensures AllAtCap(next) && left > 0 ==> Allocate(stats, points, draws) == Allocation(next, left, 1, AllCapped)
    ensures !(AllAtCap(next) && left > 0) ==>
      var rest := Allocate(next, left, draws[1..]);
      Allocate(stats, points, draws) == Allocation(rest.stats, rest.points, rest.used + 1, rest.exit)
  {
  }

  /** One pass's update in place: the drawn entry gains a point while below the cap,
      and the budget pays for it. */
  method StepEntry(stats: array<CharacterStat>, points: int, idx: nat) returns (left: int)
    requires idx < stats.Length
    modifies stats
    ensures (stats[..], left) == Step(old(stats[..]), points, idx)
  {
    left := points;
    if stats[idx].value < MAX_STAT_INITIAL {
      stats[idx] := CharacterStat(stats[idx].stat, stats[idx].value + 1);
      left := points - 1;
    }
  }
}
