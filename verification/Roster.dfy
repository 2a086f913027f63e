/**
 Fair rotation of an actor roster across runs: the stored start index, the rotated order,
 and the loop that advances the index after every actor it deals with.
 */
module Roster {
  import opened Wrappers

  type Actor = string

  /** The stored row of one roster; the roster itself stands for its hash. */
  datatype RosterRow = RosterRow(actorCount: nat, nextActorIndex: nat)

  function StartOf(rows: map<seq<Actor>, RosterRow>, actors: seq<Actor>): (start: nat)
    requires actors != []
    ensures start < |actors|
  {
    if actors in rows && rows[actors].actorCount == |actors|
    then rows[actors].nextActorIndex % |actors|
    else 0
  }

  function Indexed(actors: seq<Actor>): seq<(nat, Actor)> {
    seq(|actors|, i requires 0 <= i < |actors| => (i, actors[i]))
  }

  function RotatedRoster(actors: seq<Actor>, startIndex: nat): seq<(nat, Actor)> {
    if actors == [] then []
    else
      var start := startIndex % |actors|;
      Indexed(actors)[start..] + Indexed(actors)[..start]
  }

  /** Entry `k` of the rotated roster is actor number `start + k`, wrapped round. */
  lemma RotatedAt(actors: seq<Actor>, startIndex: nat, k: nat)
    requires k < |actors|
    ensures |RotatedRoster(actors, startIndex)| == |actors|
    ensures var index := Turn(|actors|, startIndex, k);
            RotatedRoster(actors, startIndex)[k] == (index, actors[index])
  {
    var n, start := |actors|, startIndex % |actors|;
    AddMod(startIndex, k, n);
    if start + k < n {
      SmallMod(start + k, n);
    } else {
      SmallMod(start + k - n, n);
      ModShift(start + k - n, n);
    }
  }

  lemma RotationIsPermutation(actors: seq<Actor>, startIndex: nat)
    ensures multiset(RotatedRoster(actors, startIndex)) == multiset(Indexed(actors))
  {
    if actors != [] {
      var start := startIndex % |actors|;
      assert Indexed(actors) == Indexed(actors)[..start] + Indexed(actors)[start..];
    }
  }

  /** The actor whose turn comes `k` turns after `start`. */
  function Turn(n: nat, start: nat, k: nat): (index: nat)
    requires n > 0
    ensures index < n
  {
    (start + k) % n
  }

  lemma StartAfter(rows: map<seq<Actor>, RosterRow>, actors: seq<Actor>, start: nat, k: nat)
    requires actors != [] && actors in rows
    requires rows[actors] == RosterRow(|actors|, (Turn(|actors|, start, k) + 1) % |actors|)
    ensures StartOf(rows, actors) == Turn(|actors|, start, k + 1)
  {
    AddMod(start + k, 1, |actors|);
    SmallMod((start + k + 1) % |actors|, |actors|);
  }

  class RosterStore {
    var rows: map<seq<Actor>, RosterRow>

    constructor ()
      ensures rows == map[]
    {
      rows := map[];
    }

    /** `false` stands for the error raised when the count is not positive. */
    method AdvanceRoster(key: seq<Actor>, actorCount: nat, nextIndex: nat) returns (ok: bool)
      modifies this
      ensures ok <==> actorCount > 0
      ensures rows == if actorCount > 0
                      then old(rows)[key := RosterRow(actorCount, nextIndex % actorCount)]
                      else old(rows)
    {
      if actorCount == 0 {
        return false;
      }
      rows := rows[key := RosterRow(actorCount, nextIndex % actorCount)];
      return true;
    }

    /**
     One run over the rotated roster that deals with `turns` actors before it stops (budget,
     fail-fast or crash) and advances the roster after each of them. An empty roster is an error.
     */
    method RunAuthors(actors: seq<Actor>, turns: nat) returns (visits: Option<seq<nat>>)
      requires turns <= |actors|
      modifies this
      ensures visits == None <==> actors == []
      ensures visits == None ==> rows == old(rows)
      ensures visits.Some? ==>
        && |visits.value| == turns
        && (forall k | 0 <= k < turns ::
              visits.value[k] == Turn(|actors|, old(StartOf(rows, actors)), k))
        && StartOf(rows, actors) == Turn(|actors|, old(StartOf(rows, actors)), turns)
      ensures forall key | key != actors :: key in rows <==> key in old(rows)
      ensures forall key | key != actors && key in rows :: rows[key] == old(rows)[key]
    {
      if actors == [] {
        return None;
      }
      var start := StartOf(rows, actors);
      var entries := RotatedRoster(actors, start);
      var seen := [];
      SmallMod(start, |actors|);
      assert Turn(|actors|, start, 0) == start;
      hide Turn, StartOf, RotatedRoster;
      for k := 0 to turns
        invariant |seen| == k
        invariant forall j | 0 <= j < k :: seen[j] == Turn(|actors|, start, j)
        invariant StartOf(rows, actors) == Turn(|actors|, start, k)
        invariant forall key | key != actors :: key in rows <==> key in old(rows)
        invariant forall key | key != actors && key in rows :: rows[key] == old(rows)[key]
      {
        RotatedAt(actors, start, k);
        var index := entries[k].0;
        seen := seen + [index];
        var _ := AdvanceRoster(actors, |actors|, index + 1);
        StartAfter(rows, actors, start, k);
      }
      return Some(seen);
    }

    /**
     Any number of runs of any lengths, one after another: the actors are visited in one
     unbroken cycle from wherever the store stood, so none gets more than one visit ahead.
     */
    method RunMany(actors: seq<Actor>, turns: seq<nat>) returns (visits: Option<seq<nat>>)
      requires forall i | 0 <= i < |turns| :: turns[i] <= |actors|
      modifies this
      ensures visits == None <==> actors == []
      ensures visits.Some? ==> visits.value == Visits(|actors|, old(StartOf(rows, actors)), turns)
      ensures visits.Some? ==> forall a, b | 0 <= a < |actors| && 0 <= b < |actors| ::
        -1 <= Count(visits.value, a) - Count(visits.value, b) <= 1
      decreases |turns|
    {
      if actors == [] {
        return None;
      }
      ghost var start := StartOf(rows, actors);
      if turns == [] {
        return Some([]);
      }
      var first := RunAuthors(actors, turns[0]);
      var rest := RunMany(actors, turns[1..]);
      visits := Some(first.value + rest.value);
      assert visits.value == Visits(|actors|, start, turns);
      forall a, b | 0 <= a < |actors| && 0 <= b < |actors|
        ensures -1 <= Count(visits.value, a) - Count(visits.value, b) <= 1
      {
        Fairness(|actors|, start, turns, a, b);
      }
    }
  }

  // ----- many runs -----

  /** The indices advanced by runs of the given lengths, starting at `start`. */
  function Visits(n: nat, start: nat, turns: seq<nat>): seq<nat>
    requires n > 0
    decreases |turns|
  {
    if turns == [] then []
    else seq(turns[0], k requires 0 <= k => Turn(n, start, k)) + Visits(n, Turn(n, start, turns[0]), turns[1..])
  }

  /** Runs of any lengths visit the actors in one unbroken cycle. */
  lemma {:induction false} VisitsAreCyclic(n: nat, start: nat, turns: seq<nat>, k: nat)
    requires n > 0 && k < |Visits(n, start, turns)|
    ensures Visits(n, start, turns)[k] == Turn(n, start, k)
    decreases |turns|
  {
    var first := turns[0];
    if k >= first {
      VisitsAreCyclic(n, (start + first) % n, turns[1..], k - first);
      AddMod(start + first, k - first, n);
    }
  }

  function Count(s: seq<nat>, a: nat): nat {
    if s == [] then 0 else Count(s[..|s| - 1], a) + if s[|s| - 1] == a then 1 else 0
  }

  ghost predicate Cyclic(s: seq<nat>, n: nat, start: nat)
    requires n > 0
  {
    forall k | 0 <= k < |s| :: s[k] == Turn(n, start, k)
  }

  /** One visit per full cycle, and one more if the last, partial cycle reached position `p`. */
  function Laps(m: nat, n: nat, p: nat): nat
    requires p < n
  {
    m / n + if p < m % n then 1 else 0
  }

  lemma NextLap(m: nat, n: nat, p: nat)
    requires p < n
    ensures Laps(m + 1, n, p) == Laps(m, n, p) + if m % n == p then 1 else 0
  {
    NextDivMod(m, n);
  }

  /** How far actor `a` is from the start of the cycle. */
  function Position(n: nat, start: nat, a: nat): (p: nat)
    requires start < n && a < n
    ensures p < n
  {
    (a + n - start) % n
  }

  lemma {:induction false} CountInCycle(s: seq<nat>, n: nat, start: nat, a: nat)
    requires start < n && a < n && Cyclic(s, n, start)
    ensures Count(s, a) == Laps(|s|, n, Position(n, start, a))
  {
    if s != [] {
      var m := |s| - 1;
      CountInCycle(s[..m], n, start, a);
      NextLap(m, n, Position(n, start, a));
      VisitedAt(m, n, start, a);
      assert s[m] == Turn(n, start, m);
    } else {
      SmallMod(0, n);
    }
  }

  /** Whatever the run lengths and the start, two actors' visit counts never differ by more than one. */
  lemma Fairness(n: nat, start: nat, turns: seq<nat>, a: nat, b: nat)
    requires start < n && a < n && b < n
    ensures -1 <= Count(Visits(n, start, turns), a) - Count(Visits(n, start, turns), b) <= 1
  {
    var s := Visits(n, start, turns);
    forall k | 0 <= k < |s| ensures s[k] == Turn(n, start, k) {
      VisitsAreCyclic(n, start, turns, k);
    }
    CountInCycle(s, n, start, a);
    CountInCycle(s, n, start, b);
  }

  // ----- remainders -----

  lemma SmallMod(x: nat, n: nat)
    requires x < n
    ensures x % n == x
  {
  }

  lemma ModShift(x: nat, n: nat)
    requires n > 0
    ensures (x + n) % n == x % n
  {
    var q, r := (x + n) / n, (x + n) % n;
    assert x == (q - 1) * n + r;
    DivModUnique(x, n, q - 1, r);
  }

  lemma AddMod(x: nat, y: nat, n: nat)
    requires n > 0
    ensures (x % n + y) % n == (x + y) % n
  {
    var q := (x % n + y) / n;
    var r := (x % n + y) % n;
    assert x + y == (x / n) * n + (x % n + y);
    assert (x / n + q) * n + r == (x / n) * n + q * n + r;
    DivModUnique(x + y, n, x / n + q, r);
  }

  lemma DivModUnique(x: nat, n: nat, q: int, r: nat)
    requires n > 0 && r < n && x == q * n + r
    ensures x / n == q && x % n == r
  {
    var d := x / n - q;
    assert d * n == (x / n) * n - q * n;
    assert d * n == r - x % n;
    MulAwayFromZero(d, n);
  }

  lemma MulAwayFromZero(d: int, n: int)
    requires n > 0
    ensures d >= 1 ==> d * n >= n
    ensures d <= -1 ==> d * n <= -n
  {
  }

  /** Visit `m` goes to actor `a` exactly when it is at the actor's position in its lap. */
  lemma VisitedAt(m: nat, n: nat, start: nat, a: nat)
    requires start < n && a < n
    ensures (start + m) % n == a <==> m % n == Position(n, start, a)
  {
    var p, q := Position(n, start, a), (a + n - start) / n;
    assert a + n - start == q * n + p;
    if (start + m) % n == a {
      ModShift(m, n);
      SumOfMultiples((start + m) / n, q, n);
      DivModUnique(m + n, n, (start + m) / n + q, p);
    }
    if m % n == p {
      SumOfMultiples(m / n + 1, -q, n);
      SumOfMultiples(m / n, 1, n);
      DivModUnique(start + m, n, m / n + 1 - q, a);
    }
  }

  lemma SumOfMultiples(i: int, j: int, n: int)
    ensures (i + j) * n == i * n + j * n
  {
  }

  lemma NextDivMod(m: nat, n: nat)
    requires n > 0
    ensures (m + 1) / n == if m % n == n - 1 then m / n + 1 else m / n
    ensures (m + 1) % n == if m % n == n - 1 then 0 else m % n + 1
  {
    if m % n == n - 1 {
      assert m + 1 == (m / n + 1) * n + 0;
      DivModUnique(m + 1, n, m / n + 1, 0);
    } else {
      DivModUnique(m + 1, n, m / n, m % n + 1);
    }
  }
}
