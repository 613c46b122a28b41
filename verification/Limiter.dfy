/**
 The request limiter: a bucket of tokens refilled by a ticker
 (internal/torbox/limiter.go).

 The bucket is a class that keeps, as ghost state, the timed log of its refills and of
 its successful waits. The bounds are proved about `Replay`, the meaning of such a log.
 */
module Limiter {
  import opened Wrappers

  /** The n-th tick of the refill ticker, which fires at n intervals, or a Wait that got a token. */
  datatype Event = Tick(n: nat) | Take(time: nat) {
    ghost function At(interval: nat): nat {
      match this
      case Tick(n) => n * interval
      case Take(time) => time
    }
  }

  /** Tokens held after a log, starting from `start`; None when the log takes from an empty bucket. */
  ghost function Replay(capacity: nat, start: nat, log: seq<Event>): Option<nat>
  {
    if log == [] then Some(start)
    else
      match Replay(capacity, start, log[..|log| - 1])
      case None => None
      case Some(held) =>
        match log[|log| - 1]
        case Tick(_) => Some(if held < capacity then held + 1 else held)
        case Take(_) => if held > 0 then Some(held - 1) else None
  }

  ghost function Ticks(log: seq<Event>): nat
  {
    if log == [] then 0 else Ticks(log[..|log| - 1]) + if log[|log| - 1].Tick? then 1 else 0
  }

  ghost function Takes(log: seq<Event>): nat
  {
    if log == [] then 0 else Takes(log[..|log| - 1]) + if log[|log| - 1].Take? then 1 else 0
  }

  /** Events come in time order and no tick fires twice (a tick may be missed). */
  ghost predicate OnSchedule(interval: nat, log: seq<Event>)
  {
    && (forall i, j | 0 <= i < j < |log| :: log[i].At(interval) <= log[j].At(interval))
    && (forall i, j | 0 <= i < j < |log| && log[i].Tick? && log[j].Tick? :: log[i].n < log[j].n)
  }

  /** Every event of the log lies in the closed window of the given length that opens at `open`. */
  ghost predicate InWindow(interval: nat, log: seq<Event>, open: nat, length: nat)
  {
    forall i | 0 <= i < |log| :: open <= log[i].At(interval) <= open + length
  }

  class TokenBucket {
    const capacity: nat
    const interval: nat
    const limited: bool
    var tokens: nat
    ghost var log: seq<Event>

    ghost predicate Valid()
      reads this
    {
      limited ==> capacity > 0 && tokens <= capacity && Replay(capacity, capacity, log) == Some(tokens)
    }

    /** A non-positive capacity or refill time means no limit; otherwise the bucket starts full. */
    constructor (capacity: int, refillEvery: int)
      ensures Valid() && log == []
      ensures limited <==> capacity > 0 && refillEvery > 0
      ensures limited ==> this.capacity == capacity == tokens && interval == refillEvery / capacity
    {
      limited := capacity > 0 && refillEvery > 0;
      this.capacity := if capacity > 0 then capacity else 0;
      interval := if capacity > 0 && refillEvery > 0 then refillEvery / capacity else 0;
      tokens := 0;
      log := [];
      new;
      if limited {
        while tokens < capacity
          invariant tokens <= capacity && log == []
        {
          tokens := tokens + 1;
        }
      }
    }

    /** The refill goroutine at one tick: a full bucket drops the token. */
    method Refill(n: nat)
      requires Valid() && limited
      modifies this
      ensures Valid() && log == old(log) + [Tick(n)]
      ensures tokens == if old(tokens) < capacity then old(tokens) + 1 else capacity
    {
      if tokens < capacity {
        tokens := tokens + 1;
      }
      log := log + [Tick(n)];
    }

    /** One look at the bucket by Wait. When the context is done and a token is there too, either
        branch of the select may run; with neither the caller keeps blocking. */
    method Wait(now: nat, done: bool) returns (ok: bool)
      requires Valid()
      modifies this
      ensures Valid()
      ensures !limited ==> ok && log == old(log)
      ensures limited && ok ==> old(tokens) > 0 && tokens == old(tokens) - 1 && log == old(log) + [Take(now)]
      ensures limited && !ok ==> (old(tokens) == 0 || done) && tokens == old(tokens) && log == old(log)
    {
      if !limited {
        return true;
      }
      var pickDone: bool := *;
      if tokens == 0 || (done && pickDone) {
        return false;
      }
      tokens := tokens - 1;
      log := log + [Take(now)];
      return true;
    }
  }

  // Conservation: what was taken and what is held came from the first fill or from a tick.

  lemma {:induction false} TakenPlusHeld(capacity: nat, start: nat, log: seq<Event>)
    requires start <= capacity
    requires Replay(capacity, start, log).Some?
    ensures Replay(capacity, start, log).value <= capacity
    ensures Takes(log) + Replay(capacity, start, log).value <= start + Ticks(log)
  {
    if log != [] {
      TakenPlusHeld(capacity, start, log[..|log| - 1]);
    }
  }

  lemma {:induction false} ReplayAppend(capacity: nat, start: nat, a: seq<Event>, b: seq<Event>)
    ensures Replay(capacity, start, a + b) ==
            match Replay(capacity, start, a) { case None => None case Some(mid) => Replay(capacity, mid, b) }
  {
    if b == [] {
      assert a + b == a;
    } else {
      assert (a + b)[..|a + b| - 1] == a + b[..|b| - 1];
      ReplayAppend(capacity, start, a, b[..|b| - 1]);
    }
  }

  /** The ordinals of k ticks on schedule span at least k - 1. */
  lemma {:induction false} TicksSpread(interval: nat, log: seq<Event>) returns (first: nat, last: nat)
    requires OnSchedule(interval, log) && Ticks(log) > 0
    ensures Tick(first) in log && Tick(last) in log
    ensures last >= first + Ticks(log) - 1
  {
    var top := |log| - 1;
    var front := log[..top];
    if log[top].Take? {
      first, last := TicksSpread(interval, front);
    } else {
      first, last := log[top].n, log[top].n;
      if Ticks(front) > 0 {
        var before;
        first, before := TicksSpread(interval, front);
      }
    }
  }

  lemma MulMono(a: nat, b: nat, d: nat)
    requires a <= b
    ensures a * d <= b * d
  {
    assert b * d == a * d + (b - a) * d;
  }

  lemma QuotientBound(k: nat, length: nat, d: nat)
    requires d > 0 && k * d <= length
    ensures k <= length / d
  {
    var q := length / d;
    assert length < q * d + d == (q + 1) * d;
    if q + 1 <= k {
      MulMono(q + 1, k, d);
      assert false;
    }
  }

  lemma {:induction false} TicksInWindow(interval: nat, log: seq<Event>, open: nat, length: nat)
    requires interval > 0 && OnSchedule(interval, log) && InWindow(interval, log, open, length)
    ensures Ticks(log) <= length / interval + 1
  {
    if Ticks(log) > 0 {
      var first, last := TicksSpread(interval, log);
      assert Tick(last).At(interval) <= open + length && open <= Tick(first).At(interval);
      assert last * interval - first * interval == (last - first) * interval;
      MulMono(Ticks(log) - 1, last - first, interval);
      QuotientBound(Ticks(log) - 1, length, interval);
    }
  }

  /** Takes in a stretch of a run are paid for by a full bucket and the ticks of that stretch. */
  lemma WaitsInStretch(capacity: nat, log: seq<Event>, i: nat, j: nat)
    requires Replay(capacity, capacity, log).Some? && i <= j <= |log|
    ensures Takes(log[i..j]) <= capacity + Ticks(log[i..j])
  {
    var before, stretch, after := log[..i], log[i..j], log[j..];
    assert log == before + (stretch + after);
    ReplayAppend(capacity, capacity, before, stretch + after);
    var held := Replay(capacity, capacity, before).value;
    ReplayAppend(capacity, held, stretch, after);
    TakenPlusHeld(capacity, capacity, before);
    TakenPlusHeld(capacity, held, stretch);
  }

  /** In any window of a run of the bucket, at most capacity + length/interval + 1 waits succeed. */
  lemma WaitsInWindow(capacity: nat, interval: nat, log: seq<Event>, i: nat, j: nat, open: nat, length: nat)
    requires interval > 0 && OnSchedule(interval, log) && Replay(capacity, capacity, log).Some?
    requires i <= j <= |log| && InWindow(interval, log[i..j], open, length)
    ensures Takes(log[i..j]) <= capacity + length / interval + 1
  {
    WaitsInStretch(capacity, log, i, j);
    var window := log[i..j];
    assert OnSchedule(interval, window) by {
      assert forall k | 0 <= k < |window| :: window[k] == log[i + k];
    }
    TicksInWindow(interval, window, open, length);
  }

  // The bound is the best possible one.

  ghost function Burst(count: nat, time: nat): seq<Event>
  {
    seq(count, _ => Take(time))
  }

  /** Ticks 1 to count, each followed at once by a wait. */
  ghost function Steady(interval: nat, count: nat): seq<Event>
  {
    if count == 0 then [] else Steady(interval, count - 1) + [Tick(count), Take(count * interval)]
  }

  lemma {:induction false} BurstFacts(capacity: nat, start: nat, count: nat, time: nat)
    requires count <= start
    ensures Replay(capacity, start, Burst(count, time)) == Some(start - count)
    ensures Takes(Burst(count, time)) == count
  {
    if count > 0 {
      assert Burst(count, time)[..count - 1] == Burst(count - 1, time);
      BurstFacts(capacity, start, count - 1, time);
    }
  }

  lemma {:induction false} SteadyFacts(capacity: nat, interval: nat, count: nat)
    requires capacity > 0
    ensures |Steady(interval, count)| == 2 * count
    ensures Replay(capacity, 0, Steady(interval, count)) == Some(0)
    ensures Takes(Steady(interval, count)) == count
    ensures forall k | 0 <= k < count :: Steady(interval, count)[2 * k] == Tick(k + 1)
                                      && Steady(interval, count)[2 * k + 1] == Take((k + 1) * interval)
  {
    if count > 0 {
      SteadyFacts(capacity, interval, count - 1);
      var front, all := Steady(interval, count - 1), Steady(interval, count);
      assert all[..|all| - 1] == front + [Tick(count)];
      assert (front + [Tick(count)])[..|front|] == front;
    }
  }

  lemma {:induction false} TakesAppend(a: seq<Event>, b: seq<Event>)
    ensures Takes(a + b) == Takes(a) + Takes(b)
  {
    if b == [] {
      assert a + b == a;
    } else {
      assert (a + b)[..|a + b| - 1] == a + b[..|b| - 1];
      TakesAppend(a, b[..|b| - 1]);
    }
  }

  /** Every event of Steady is a tick or a take at a multiple of the interval. */
  lemma SteadyAt(capacity: nat, interval: nat, count: nat, i: nat)
    requires capacity > 0 && i < 2 * count
    ensures |Steady(interval, count)| == 2 * count
    ensures Steady(interval, count)[i].At(interval) == (i / 2 + 1) * interval
    ensures Steady(interval, count)[i].Tick? ==> Steady(interval, count)[i].n == i / 2 + 1
  {
    SteadyFacts(capacity, interval, count);
    assert i == 2 * (i / 2) || i == 2 * (i / 2) + 1;
  }

  lemma SteadyParity(capacity: nat, interval: nat, count: nat, i: nat)
    requires capacity > 0 && i < 2 * count
    ensures |Steady(interval, count)| == 2 * count
    ensures Steady(interval, count)[i].Tick? <==> i % 2 == 0
  {
    SteadyFacts(capacity, interval, count);
    assert i == 2 * (i / 2) + i % 2;
  }

  lemma SteadyOnSchedule(capacity: nat, interval: nat, count: nat)
    requires capacity > 0
    ensures OnSchedule(interval, Steady(interval, count))
    ensures forall i | 0 <= i < |Steady(interval, count)| ::
              interval <= Steady(interval, count)[i].At(interval) <= count * interval
  {
    var log := Steady(interval, count);
    SteadyFacts(capacity, interval, count);
    forall i, j | 0 <= i <= j < |log|
      ensures log[i].At(interval) <= log[j].At(interval)
      ensures interval <= log[i].At(interval) <= count * interval
      ensures i < j && log[i].Tick? && log[j].Tick? ==> log[i].n < log[j].n
    {
      SteadyAt(capacity, interval, count, i);
      SteadyAt(capacity, interval, count, j);
      SteadyParity(capacity, interval, count, i);
      SteadyParity(capacity, interval, count, j);
      MulMono(1, i / 2 + 1, interval);
      MulMono(i / 2 + 1, j / 2 + 1, interval);
      MulMono(i / 2 + 1, count, interval);
    }
  }

  lemma BurstThenSteady(capacity: nat, interval: nat, count: nat)
    requires capacity > 0
    ensures OnSchedule(interval, Burst(capacity, interval) + Steady(interval, count))
  {
    SteadyOnSchedule(capacity, interval, count);
    var steady := Steady(interval, count);
    var log := Burst(capacity, interval) + steady;
    assert forall i | 0 <= i < |log| :: log[i] == if i < capacity then Take(interval) else steady[i - capacity];
  }

  lemma BurstThenSteadyTakes(capacity: nat, interval: nat, count: nat)
    requires capacity > 0
    ensures Replay(capacity, capacity, Burst(capacity, interval) + Steady(interval, count)).Some?
    ensures Takes(Burst(capacity, interval) + Steady(interval, count)) == capacity + count
  {
    BurstFacts(capacity, capacity, capacity, interval);
    SteadyFacts(capacity, interval, count);
    ReplayAppend(capacity, capacity, Burst(capacity, interval), Steady(interval, count));
    TakesAppend(Burst(capacity, interval), Steady(interval, count));
  }

  lemma BurstThenSteadyWindow(capacity: nat, interval: nat, q: nat, length: nat)
    requires capacity > 0 && q * interval <= length
    ensures InWindow(interval, Burst(capacity, interval) + Steady(interval, q + 1), interval, length)
  {
    SteadyOnSchedule(capacity, interval, q + 1);
    assert (q + 1) * interval == q * interval + interval;
    var steady := Steady(interval, q + 1);
    var log := Burst(capacity, interval) + steady;
    assert forall i | 0 <= i < |log| :: log[i] == if i < capacity then Take(interval) else steady[i - capacity];
  }

  /** Some run takes exactly capacity + length/interval + 1 tokens in a window of that length. */
  lemma WindowBoundIsTight(capacity: nat, interval: nat, length: nat) returns (log: seq<Event>)
    requires capacity > 0 && interval > 0
    ensures OnSchedule(interval, log) && Replay(capacity, capacity, log).Some?
    ensures InWindow(interval, log, interval, length)
    ensures Takes(log) == capacity + length / interval + 1
  {
    var q := length / interval;
    assert q * interval <= length;
    log := Burst(capacity, interval) + Steady(interval, q + 1);
    BurstThenSteady(capacity, interval, q + 1);
    BurstThenSteadyTakes(capacity, interval, q + 1);
    BurstThenSteadyWindow(capacity, interval, q, length);
  }
}
