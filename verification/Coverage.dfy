/** How the continuous feed spreads its work: feature tasks three at a time, reads in rotation, and a follow-up
    queue cleared by quota. */
module Coverage {

  class Rotation {
    var cycles: nat
    var readIndex: nat

    constructor ()
      ensures cycles == 0 && readIndex == 0
    {
      cycles, readIndex := 0, 0;
    }

    /** One cycle's feature tasks, by number: all of them on a full cycle, else the next three. */
    method FeatureWrites(tasks: nat, full: bool) returns (ran: seq<nat>)
      requires tasks > 0
      modifies this`cycles
      ensures cycles == old(cycles) + 1
      ensures full ==> ran == seq(tasks, i => i)
      ensures !full ==> |ran| == 3 && forall n | 0 <= n < 3 :: ran[n] == (cycles * 3 + n) % tasks
      ensures !full ==> ran == Batch(cycles, tasks)
    {
      cycles := cycles + 1;
      if full {
        ran := RunAll(tasks);
        forall t: nat | t < tasks ensures ran[t] == t { SmallRemainder(t, tasks); }
      } else {
        ran := RunThree(cycles * 3, tasks);
      }
    }

    static method RunAll(tasks: nat) returns (ran: seq<nat>)
      requires tasks > 0
      ensures ran == From(0, tasks, tasks)
    {
      ran := [];
      FromNothing(0, tasks);
      for t := 0 to tasks
        invariant ran == From(0, t, tasks)
      {
        SmallRemainder(t, tasks);
        FromOneMore(0, t, tasks);
        ran := ran + [t];
      }
    }

    static method RunThree(start: nat, tasks: nat) returns (ran: seq<nat>)
      requires tasks > 0
      ensures ran == From(start, 3, tasks)
    {
      ran := [];
      var offset := start % tasks;
      FromNothing(start, tasks);
      for n := 0 to 3
        invariant ran == From(start, n, tasks)
      {
        SameTask(start, n, tasks);
        FromOneMore(start, n, tasks);
        ran := ran + [(offset + n) % tasks];
      }
    }

    method ReadSweep(paths: nat, count: nat) returns (visited: seq<nat>)
      requires paths > 0
      modifies this`readIndex
      ensures visited == From(old(readIndex), count, paths) && readIndex == old(readIndex) + count
      ensures |visited| == count && forall n | 0 <= n < count :: visited[n] == (old(readIndex) + n) % paths
    {
      visited := [];
      for n := 0 to count
        invariant visited == From(old(readIndex), n, paths) && readIndex == old(readIndex) + n
      {
        visited := visited + [readIndex % paths];
        readIndex := readIndex + 1;
      }
    }
  }

  /** Consecutive numbers, taken around a list. */
  function From(start: nat, count: nat, size: nat): seq<nat>
    requires size > 0
  {
    seq(count, i requires 0 <= i => (start + i) % size)
  }

  /** The tasks of a partial cycle. */
  function Batch(cycle: nat, tasks: nat): seq<nat>
    requires tasks > 0
  {
    From(cycle * 3, 3, tasks)
  }

  /** The tasks of consecutive cycles, in order. */
  function Batches(cycle: nat, count: nat, tasks: nat): seq<nat>
    requires tasks > 0
  {
    if count == 0 then [] else Batches(cycle, count - 1, tasks) + Batch(cycle + count - 1, tasks)
  }

  lemma FromNothing(start: nat, size: nat)
    requires size > 0
    ensures From(start, 0, size) == []
  {
  }

  lemma FromOneMore(start: nat, n: nat, size: nat)
    requires size > 0
    ensures From(start, n, size) + [(start + n) % size] == From(start, n + 1, size)
  {
  }

  lemma SameTask(k: nat, n: nat, size: nat)
    requires size > 0
    ensures (k % size + n) % size == (k + n) % size
  {
    AroundAgain(k % size + n, k / size, size);
    assert k == k / size * size + k % size;
  }

  lemma {:induction false} AroundAgain(x: nat, turns: nat, size: nat)
    requires size > 0
    ensures (x + turns * size) % size == x % size
    decreases turns
  {
    if turns > 0 {
      AroundAgain(x, turns - 1, size);
      OnceAround(x + (turns - 1) * size, size);
      assert x + turns * size == x + (turns - 1) * size + size;
    }
  }

  lemma OnceAround(x: nat, size: nat)
    requires size > 0
    ensures (x + size) % size == x % size
  {
    var q, r := x / size, x % size;
    assert x + size == (q + 1) * size + r;
    QuotientIs(x + size, q + 1, r, size);
  }

  lemma QuotientIs(x: nat, q: nat, r: nat, size: nat)
    requires size > 0 && x == q * size + r && r < size
    ensures x % size == r
  {
    var p := x / size;
    assert x == p * size + x % size;
    Multiples(p - q, size);
    assert (p - q) * size == p * size - q * size;
  }

  lemma Multiples(d: int, size: nat)
    requires size > 0
    ensures d >= 1 ==> d * size >= size
    ensures d <= -1 ==> d * size <= -1 * size
  {
  }

  lemma SmallRemainder(t: nat, size: nat)
    requires t < size
    ensures t % size == t
  {
  }

  /** Where in a window around the list an entry comes up. */
  function Position(start: nat, t: nat, size: nat): nat
    requires t < size
  {
    if t >= start % size then t - start % size else t + size - start % size
  }

  lemma PositionHits(start: nat, t: nat, size: nat)
    requires t < size
    ensures Position(start, t, size) < size && (start + Position(start, t, size)) % size == t
  {
    var r, k := start % size, Position(start, t, size);
    SameTask(start, k, size);
    SmallRemainder(t, size);
    OnceAround(t, size);
    assert r + k == t || r + k == t + size;
  }

  lemma CloseTogether(start: nat, i: nat, j: nat, size: nat)
    requires size > 0 && (start + i) % size == (start + j) % size && i < j
    ensures j - i >= size
  {
    var x, y := start + i, start + j;
    var p, q := x / size, y / size;
    assert x == p * size + x % size && y == q * size + y % size;
    Multiples(q - p, size);
    assert (q - p) * size == q * size - p * size;
  }

  /** A stretch of a rotation meets every entry exactly when it is as long as the list. */
  lemma StretchCoversExactly(start: nat, count: nat, size: nat)
    requires size > 0
    ensures (forall t: nat | t < size :: t in From(start, count, size)) <==> count >= size
  {
    if count >= size {
      forall t: nat | t < size ensures t in From(start, count, size) {
        PositionHits(start, t, size);
        assert From(start, count, size)[Position(start, t, size)] == t;
      }
    } else {
      var t := (start + count) % size;
      if t in From(start, count, size) {
        var i :| 0 <= i < count && From(start, count, size)[i] == t;
        CloseTogether(start, i, count, size);
      }
    }
  }

  /** One round of reads visits every path exactly once, wherever it starts. */
  lemma RoundOfReads(start: nat, paths: nat, t: nat)
    requires t < paths
    ensures multiset(From(start, paths, paths))[t] == 1
  {
    PositionHits(start, t, paths);
    var round, k := From(start, paths, paths), Position(start, t, paths);
    assert round[k] == t;
    forall i | 0 <= i < paths && i != k ensures round[i] != t {
      if round[i] == t { CloseTogether(start, if i < k then i else k, if i < k then k else i, paths); }
    }
    assert t !in round[..k] && t !in round[k + 1..];
    assert round == round[..k] + [t] + round[k + 1..];
  }

  lemma FromAppend(start: nat, a: nat, b: nat, size: nat)
    requires size > 0
    ensures From(start, a, size) + From(start + a, b, size) == From(start, a + b, size)
  {
  }

  lemma {:induction false} BatchesAreOneStretch(cycle: nat, count: nat, tasks: nat)
    requires tasks > 0
    ensures Batches(cycle, count, tasks) == From(cycle * 3, count * 3, tasks)
  {
    if count > 0 {
      BatchesAreOneStretch(cycle, count - 1, tasks);
      FromAppend(cycle * 3, (count - 1) * 3, 3, tasks);
      assert (cycle + count - 1) * 3 == cycle * 3 + (count - 1) * 3;
    }
  }

  /** Consecutive partial cycles run every task exactly when there are a third as many of them as tasks, rounded
      up. */
  lemma CyclesCoverExactly(cycle: nat, count: nat, tasks: nat)
    requires tasks > 0
    ensures (forall t: nat | t < tasks :: t in Batches(cycle, count, tasks)) <==> count >= (tasks + 2) / 3
  {
    BatchesAreOneStretch(cycle, count, tasks);
    StretchCoversExactly(cycle * 3, count * 3, tasks);
  }

  /** How many follow-ups a cycle may complete. */
  function Quota(backlog: nat): nat {
    if backlog > 300 then 40 else if backlog > 60 then 6 else 0
  }

  /** The listed open follow-ups are worked off one by one, up to the quota. */
  method WorkFollowUpQueue(backlog: nat, listed: seq<string>) returns (completed: seq<string>)
    ensures completed <= listed
    ensures var quota := if backlog > 300 then 40 else if backlog > 60 then 6 else 0;
      |completed| == if |listed| < quota then |listed| else quota
  {
    completed := [];
    var quota := Quota(backlog);
    var todo := if |listed| < quota then listed else listed[..quota];
    for i := 0 to |todo|
      invariant completed == todo[..i]
    {
      completed := completed + [todo[i]];
    }
  }

  /** Open follow-ups after some cycles, each with new ones arriving before the queue is worked. */
  function Backlog(initial: nat, arrivals: seq<nat>): nat {
    if arrivals == [] then initial
    else
      var open := Backlog(initial, arrivals[..|arrivals| - 1]) + arrivals[|arrivals| - 1];
      open - Quota(open)
  }

  /** With at most forty arrivals a cycle the queue never grows past its start or 340. */
  lemma {:induction false} BacklogStaysBounded(initial: nat, arrivals: seq<nat>)
    requires forall i | 0 <= i < |arrivals| :: arrivals[i] <= 40
    ensures Backlog(initial, arrivals) <= if initial > 340 then initial else 340
    decreases |arrivals|
  {
    if arrivals != [] { BacklogStaysBounded(initial, arrivals[..|arrivals| - 1]); }
  }

  function Steady(rate: nat, cycles: nat): seq<nat> {
    seq(cycles, i => rate)
  }

  lemma {:induction false} BacklogOutgrows(rate: nat, cycles: nat)
    requires rate > 40
    ensures Backlog(0, Steady(rate, cycles)) >= cycles
    decreases cycles
  {
    if cycles > 0 {
      BacklogOutgrows(rate, cycles - 1);
      assert Steady(rate, cycles)[..cycles - 1] == Steady(rate, cycles - 1);
    }
  }

  ghost predicate Bounds(bound: nat, rate: nat) {
    forall cycles: nat :: Backlog(0, Steady(rate, cycles)) <= bound
  }

  /** At a steady rate the queue stays bounded for ever exactly when no more than forty arrive per cycle. */
  lemma SteadyBacklogExactly(rate: nat)
    ensures (exists bound: nat :: Bounds(bound, rate)) <==> rate <= 40
  {
    if rate <= 40 {
      forall cycles: nat ensures Backlog(0, Steady(rate, cycles)) <= 340 {
        BacklogStaysBounded(0, Steady(rate, cycles));
      }
      assert Bounds(340, rate);
    } else if bound: nat :| Bounds(bound, rate) {
      BacklogOutgrows(rate, bound + 1);
    }
  }

  /** With at most six arrivals a cycle the queue never grows past its start or 66. */
  lemma {:induction false} QuietBacklogStaysSmall(initial: nat, arrivals: seq<nat>)
    requires forall i | 0 <= i < |arrivals| :: arrivals[i] <= 6
    ensures Backlog(initial, arrivals) <= if initial > 66 then initial else 66
    decreases |arrivals|
  {
    if arrivals != [] { QuietBacklogStaysSmall(initial, arrivals[..|arrivals| - 1]); }
  }

  /** Above six a cycle the queue gains on the middle quota until it passes 260. */
  lemma {:induction false} BusyBacklogGrows(rate: nat, cycles: nat)
    requires rate > 6
    ensures Backlog(0, Steady(rate, cycles)) >= if cycles < 260 then cycles else 260
    decreases cycles
  {
    if cycles > 0 {
      BusyBacklogGrows(rate, cycles - 1);
      assert Steady(rate, cycles)[..cycles - 1] == Steady(rate, cycles - 1);
    }
  }

  /** At a steady rate the queue stays within 66 for ever exactly when no more than six arrive per cycle. */
  lemma SmallBacklogExactly(rate: nat)
    ensures (forall cycles: nat :: Backlog(0, Steady(rate, cycles)) <= 66) <==> rate <= 6
  {
    if rate <= 6 {
      forall cycles: nat ensures Backlog(0, Steady(rate, cycles)) <= 66 {
        QuietBacklogStaysSmall(0, Steady(rate, cycles));
      }
    } else {
      BusyBacklogGrows(rate, 260);
      assert Backlog(0, Steady(rate, 260)) > 66;
    }
  }
}
