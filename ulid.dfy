/**
 * Event ids. A ULID is a 48-bit millisecond time followed by an 80-bit random part, written so
 * that its string form sorts as the number `time * 2^80 + random`; an id is modelled by that
 * number. Ids come from the `ulid` package's monotonic factory, which remembers the time and the
 * random part of the id it handed out last. A call whose clock reading is not later than that
 * time hands out the last id plus one (the random part incremented); a later reading hands out
 * the reading with a fresh random part. The clock reading and the random part of each call are a
 * parameter here, a `Draw`.
 */
module Ulids {
  import opened Wrappers

  /** 2^80: the number of random parts. */
  const RandomSpan: nat := 0x1_0000_0000_0000_0000_0000

  type Random = r: nat | r < RandomSpan

  type Ulid = nat

  /** The id with time `time` and random part `random`. */
  function Encode(time: nat, random: Random): Ulid
  {
    time * RandomSpan + random
  }

  /** What one call of the factory reads from its environment: the clock and a fresh random part. */
  datatype Draw = Draw(time: nat, random: Random)

  /** The factory's memory, `lastTime` (0 at first) and `lastRandom` (undefined at first). */
  datatype FactoryState = FactoryState(lastTime: nat, lastRandom: Option<Random>)

  const NewFactory: FactoryState := FactoryState(0, None)

  /** The id the factory handed out last, if any. */
  function LastId(state: FactoryState): Option<Ulid>
  {
    if state.lastRandom.Some? then Some(Encode(state.lastTime, state.lastRandom.value)) else None
  }

  predicate StrictlyIncreasing(ids: seq<Ulid>)
  {
    forall i, j :: 0 <= i < j < |ids| ==> ids[i] < ids[j]
  }

  function LastOf(ids: seq<Ulid>): Option<Ulid>
  {
    if ids == [] then None else Some(ids[|ids| - 1])
  }

  /** One call of the factory: its new memory, whose `LastId` is the id handed out, or `None`
      when the call throws. It throws when it has to increment a random part that is undefined
      (a first call at time 0) or already the largest one. */
  function NextUlid(state: FactoryState, draw: Draw): (next: Option<FactoryState>)
    ensures next.None? <==>
              draw.time <= state.lastTime && (state.lastRandom.None? || state.lastRandom.value == RandomSpan - 1)
    ensures next.Some? ==> LastId(next.value).Some?
    ensures next.Some? && LastId(state).Some? ==> LastId(state).value < LastId(next.value).value
    ensures next.Some? && draw.time <= state.lastTime ==> LastId(next.value) == Some(LastId(state).value + 1)
    ensures state.lastTime < draw.time ==> next.Some? && LastId(next.value) == Some(Encode(draw.time, draw.random))
  {
    if draw.time <= state.lastTime then
      if state.lastRandom.None? || state.lastRandom.value == RandomSpan - 1 then None
      else Some(FactoryState(state.lastTime, Some(state.lastRandom.value + 1)))
    else
      Some(FactoryState(draw.time, Some(draw.random)))
  }

  /** The ids handed out so far and the factory's memory after handing them out. */
  datatype FactoryRun = FactoryRun(ids: seq<Ulid>, state: FactoryState)

  /** One more call of the factory after `run`; a call that throws ends the run. */
  function Advance(run: Option<FactoryRun>, draw: Draw): Option<FactoryRun>
  {
    match run
    case None => None
    case Some(r) =>
      match NextUlid(r.state, draw)
      case None => None
      case Some(next) => Some(FactoryRun(r.ids + [LastId(next).value], next))
  }

  /** A fresh factory called once per draw, in order: the ids it hands out, or `None` when a
      call throws. */
  function MonotonicUlids(draws: seq<Draw>): (run: Option<FactoryRun>)
    ensures run.Some? ==> |run.value.ids| == |draws| && LastId(run.value.state) == LastOf(run.value.ids)
    decreases |draws|
  {
    if draws == [] then Some(FactoryRun([], NewFactory))
    else Advance(MonotonicUlids(draws[..|draws| - 1]), draws[|draws| - 1])
  }

  /** Calling the factory once more advances the run by one call. */
  lemma MonotonicUlidsStep(draws: seq<Draw>, i: nat)
    requires i < |draws|
    ensures MonotonicUlids(draws[..i + 1]) == Advance(MonotonicUlids(draws[..i]), draws[i])
  {
    assert draws[..i + 1][..i] == draws[..i];
  }

  /** Once a call has thrown, the run has failed whatever the later draws. */
  lemma {:induction false} MonotonicUlidsFailureStays(draws: seq<Draw>, n: nat)
    requires n <= |draws|
    requires MonotonicUlids(draws[..n]).None?
    ensures MonotonicUlids(draws).None?
    decreases |draws| - n
  {
    if n < |draws| {
      MonotonicUlidsStep(draws, n);
      MonotonicUlidsFailureStays(draws, n + 1);
    } else {
      assert draws[..n] == draws;
    }
  }

  /** The ids one factory hands out strictly increase, whatever it reads from the clock. */
  lemma {:induction false} MonotonicUlidsIncrease(draws: seq<Draw>)
    ensures MonotonicUlids(draws).Some? ==> StrictlyIncreasing(MonotonicUlids(draws).value.ids)
    decreases |draws|
  {
    if draws != [] {
      MonotonicUlidsIncrease(draws[..|draws| - 1]);
    }
  }

  /** Within one millisecond the factory counts up: when no later call reads a clock past the
      first call's, the ids are consecutive numbers. */
  lemma {:induction false} MonotonicUlidsWithinMillisecond(draws: seq<Draw>)
    requires forall i :: 0 <= i < |draws| ==> draws[i].time <= draws[0].time
    ensures MonotonicUlids(draws).Some? ==>
              forall i :: 0 <= i < |draws| ==> MonotonicUlids(draws).value.ids[i] == MonotonicUlids(draws).value.ids[0] + i
    ensures MonotonicUlids(draws).Some? && draws != [] ==> MonotonicUlids(draws).value.state.lastTime == draws[0].time
    decreases |draws|
  {
    if |draws| > 1 {
      var n := |draws| - 1;
      var front := draws[..n];
      MonotonicUlidsWithinMillisecond(front);
      var run := MonotonicUlids(draws);
      if run.Some? {
        var r := MonotonicUlids(front).value;
        forall i | 0 <= i < |draws|
          ensures run.value.ids[i] == run.value.ids[0] + i
        {
          if i < n {
            assert run.value.ids[i] == r.ids[i];
          }
        }
      }
    }
  }

  /** `monotonicFactory()`: a factory remembers the time and the random part of its last id. */
  class MonotonicUlidFactory {
    var lastTime: nat
    var lastRandom: Option<Random>

    function State(): FactoryState
      reads this
    {
      FactoryState(lastTime, lastRandom)
    }

    constructor()
      ensures State() == NewFactory
    {
      lastTime := 0;
      lastRandom := None;
    }

    /** `ulid()`: the next id, or `None` where the factory throws. */
    method Next(draw: Draw) returns (id: Option<Ulid>)
      modifies this
      ensures id.Some? <==> NextUlid(old(State()), draw).Some?
      ensures id.Some? ==> State() == NextUlid(old(State()), draw).value && id == LastId(State())
    {
      if draw.time <= lastTime {
        if lastRandom.None? || lastRandom.value == RandomSpan - 1 {
          return None;
        }
        lastRandom := Some(lastRandom.value + 1);
      } else {
        lastTime := draw.time;
        lastRandom := Some(draw.random);
      }
      id := Some(Encode(lastTime, lastRandom.value));
    }
  }

  // --------------------------------------------------------------------------
  // Ordering a set of ids
  // --------------------------------------------------------------------------

  predicate IsLeast(m: Ulid, s: set<Ulid>)
  {
    m in s && forall x :: x in s ==> m <= x
  }

  lemma {:induction false} LeastExists(s: set<Ulid>)
    requires s != {}
    ensures exists m :: IsLeast(m, s)
    decreases |s|
  {
    var y :| y in s;
    if s == {y} {
      assert IsLeast(y, s);
    } else {
      LeastExists(s - {y});
      var m :| IsLeast(m, s - {y});
      assert forall x :: x in s ==> x == y || x in s - {y};
      if y < m {
        assert IsLeast(y, s);
      } else {
        assert IsLeast(m, s);
      }
    }
  }

  /** The elements of a finite set of ids in increasing order. */
  ghost function Ascending(s: set<Ulid>): (ids: seq<Ulid>)
    ensures StrictlyIncreasing(ids)
    ensures forall x :: x in s <==> x in ids
    decreases |s|
  {
    if s == {} then []
    else
      LeastExists(s);
      var m :| IsLeast(m, s);
      [m] + Ascending(s - {m})
  }

  /** An increasing sequence is the one ordering of its elements: `Ascending` is determined by the set. */
  lemma {:induction false} AscendingUnique(s: set<Ulid>, ids: seq<Ulid>)
    requires StrictlyIncreasing(ids)
    requires forall x :: x in s <==> x in ids
    ensures Ascending(s) == ids
    decreases |ids|
  {
    if ids == [] {
      assert s == {};
    } else {
      var m := ids[0];
      assert IsLeast(m, s) by {
        forall x | x in s
          ensures m <= x
        {
          var i :| 0 <= i < |ids| && ids[i] == x;
        }
      }
      var rest := s - {m};
      assert forall x :: x in rest <==> x in ids[1..];
      AscendingUnique(rest, ids[1..]);
      assert Ascending(s) == [m] + Ascending(rest);
      assert ids == [m] + ids[1..];
    }
  }

  /** Two increasing runs, the first wholly below the second, increase together. */
  lemma ConcatIncreasing(a: seq<Ulid>, b: seq<Ulid>)
    requires StrictlyIncreasing(a) && StrictlyIncreasing(b)
    requires forall i, j :: 0 <= i < |a| && 0 <= j < |b| ==> a[i] < b[j]
    ensures StrictlyIncreasing(a + b)
  {
    var both := a + b;
    forall i, j | 0 <= i < j < |both|
      ensures both[i] < both[j]
    {
      if j < |a| {
        assert both[i] == a[i] && both[j] == a[j];
      } else if i >= |a| {
        assert both[i] == b[i - |a|] && both[j] == b[j - |a|];
      } else {
        assert both[i] == a[i] && both[j] == b[j - |a|];
      }
    }
  }

  /** Ids that all come after the ids of another set are listed after them. */
  lemma AscendingUnion(earlier: set<Ulid>, later: set<Ulid>)
    requires forall x, y :: x in earlier && y in later ==> x < y
    ensures Ascending(earlier + later) == Ascending(earlier) + Ascending(later)
  {
    var a, b := Ascending(earlier), Ascending(later);
    assert forall i, j :: 0 <= i < |a| && 0 <= j < |b| ==> a[i] < b[j] by {
      forall i, j | 0 <= i < |a| && 0 <= j < |b|
        ensures a[i] < b[j]
      {
        assert a[i] in earlier && b[j] in later;
      }
    }
    ConcatIncreasing(a, b);
    assert forall x :: x in earlier + later <==> x in a + b;
    AscendingUnique(earlier + later, a + b);
  }
}
