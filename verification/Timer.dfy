/** The periodic timer of TaskLooper.cpp, on 32-bit millisecond timestamps. The clock readings are parameters. */
module Timer {
  const WRAP := 0x1_0000_0000
  const NEVER := WRAP - 1

  const SLOW := 40 * 1000
  const NORM := 20 * 1000
  const FAST := 10 * 1000

  newtype Millis = x: int | 0 <= x < 0x1_0000_0000
  newtype Interval = x: int | 0 <= x < 0x1_0000

  class TaskLooper {
    var hasHardware: bool
    var nextTs: Millis
    var interval: Interval

    constructor (interval: Interval)
      ensures !hasHardware && Stopped() && this.interval == interval
    {
      hasHardware, nextTs, this.interval := false, 0xFFFF_FFFF, interval;
    }

    predicate Stopped()
      reads this
    {
      nextTs as int == NEVER
    }

    method Begin(time: Millis)
      modifies this
      ensures hasHardware && interval as int == NORM && nextTs as int == Next(time as int, NORM)
    {
      hasHardware := true;
      SetNorm(time);
    }

    /** The clock is read twice when the timer fires, at `time` and then at `later`. */
    method Check(time: Millis, later: Millis) returns (fires: bool)
      modifies this`nextTs
      ensures fires == (hasHardware && Due(old(nextTs) as int, time as int))
      ensures nextTs as int == if fires then Next(later as int, interval as int) else old(nextTs) as int
      ensures fires <==> hasHardware && 0 < old(nextTs) < time
      ensures nextTs as int == if fires then (later as int + interval as int) % 0x1_0000_0000 else old(nextTs) as int
    {
      if nextTs > 0 && hasHardware && time > nextTs {
        nextTs := Add(later, interval);
        return true;
      }
      return false;
    }

    method Start(time: Millis)
      modifies this`nextTs
      ensures nextTs as int == if hasHardware then Next(time as int, interval as int) else NEVER
    {
      if hasHardware {
        nextTs := Add(time, interval);
      } else {
        Stop();
      }
    }

    method Now(time: Millis)
      modifies this`nextTs
      ensures nextTs as int == if hasHardware then time as int else NEVER
    {
      if hasHardware {
        nextTs := time;
      } else {
        Stop();
      }
    }

    method Stop()
      modifies this`nextTs
      ensures Stopped()
    {
      nextTs := 0xFFFF_FFFF;
    }

    method Set(time: Millis, millis: Interval)
      modifies this`interval, this`nextTs
      ensures interval == millis
      ensures nextTs as int == if hasHardware then Next(time as int, millis as int) else NEVER
    {
      interval := millis;
      Start(time);
    }

    method SetSlow(time: Millis)
      modifies this`interval, this`nextTs
      ensures interval as int == SLOW
      ensures nextTs as int == if hasHardware then Next(time as int, SLOW) else NEVER
    {
      interval := 40000;
      Start(time);
    }

    method SetNorm(time: Millis)
      modifies this`interval, this`nextTs
      ensures interval as int == NORM
      ensures nextTs as int == if hasHardware then Next(time as int, NORM) else NEVER
    {
      interval := 20000;
      Start(time);
    }

    method SetFast(time: Millis)
      modifies this`interval, this`nextTs
      ensures interval as int == FAST
      ensures nextTs as int == if hasHardware then Next(time as int, FAST) else NEVER
    {
      interval := 10000;
      Start(time);
    }
  }

  /** 32-bit addition without leaving 32 bits. */
  function Add(time: Millis, interval: Interval): (r: Millis)
    ensures r as int == Next(time as int, interval as int)
  {
    ((time as int + interval as int) % WRAP) as Millis
  }

  function Next(time: int, interval: int): int {
    (time + interval) % WRAP
  }

  predicate Due(next: int, time: int) {
    next > 0 && time > next
  }

  /** One call of `check`: its two clock readings. */
  datatype Call = Call(time: int, later: int)

  predicate Clock(t: int) {
    0 <= t < WRAP
  }

  /** Readings never go back. */
  ghost predicate Forward(calls: seq<Call>) {
    && (forall i :: 0 <= i < |calls| ==>
          Clock(calls[i].time) && Clock(calls[i].later) && calls[i].time <= calls[i].later)
    && (forall i, j :: 0 <= i < j < |calls| ==> calls[i].later <= calls[j].time)
  }

  function NextAfter(next: int, c: Call, interval: int): int {
    if Due(next, c.time) then Next(c.later, interval) else next
  }

  /** The first readings of the calls that fire, in a run of calls with nothing in between. */
  function Firings(next: int, calls: seq<Call>, interval: int): seq<Call>
    decreases |calls|
  {
    if calls == [] then []
    else (if Due(next, calls[0].time) then [calls[0]] else [])
         + Firings(NextAfter(next, calls[0], interval), calls[1..], interval)
  }

  /** What is shown of the firings `f` of a timer planned for `next`. */
  ghost predicate Apart(next: int, f: seq<Call>, interval: nat) {
    (|f| > 0 ==> f[0].time > next) && forall k :: 0 <= k < |f| - 1 ==> f[k + 1].time > f[k].later + interval
  }

  ghost predicate AwayFromWrap(calls: seq<Call>, interval: nat) {
    forall i :: 0 <= i < |calls| ==> calls[i].later + interval < NEVER
  }

  lemma ApartAfter(next: int, c: Call, f: seq<Call>, interval: nat)
    requires c.time > next && Apart(c.later + interval, f, interval)
    ensures Apart(next, [c] + f, interval)
  {
    var g := [c] + f;
    forall k | 0 <= k < |g| - 1 ensures g[k + 1].time > g[k].later + interval {
      if k > 0 { assert g[k] == f[k - 1] && g[k + 1] == f[k - 1 + 1]; }
    }
  }

  lemma RestForward(calls: seq<Call>, interval: nat)
    requires Forward(calls) && AwayFromWrap(calls, interval) && calls != []
    ensures Forward(calls[1..]) && AwayFromWrap(calls[1..], interval)
  {
  }

  /** Before the clock comes within one interval of the wrap, consecutive firings are more than one interval apart;
      and the first one comes after `next`. */
  lemma {:induction false} FiringsApart(next: int, calls: seq<Call>, interval: nat)
    requires Forward(calls) && AwayFromWrap(calls, interval)
    ensures Apart(next, Firings(next, calls, interval), interval)
    decreases |calls|
  {
    if calls != [] {
      var c, after := calls[0], NextAfter(next, calls[0], interval);
      assert Due(next, c.time) ==> after == c.later + interval;
      RestForward(calls, interval);
      hide Apart;
      hide Forward;
      hide AwayFromWrap;
      FiringsApart(after, calls[1..], interval);
      var f := Firings(after, calls[1..], interval);
      if Due(next, c.time) {
        ApartAfter(next, c, f, interval);
      } else {
        assert [] + f == f;
      }
    }
  }

  /** Every firing is one of the calls. */
  lemma {:induction false} FiringsAreCalls(next: int, calls: seq<Call>, interval: nat, k: nat)
    requires k < |Firings(next, calls, interval)|
    ensures Firings(next, calls, interval)[k] in calls
    decreases |calls|
  {
    var after := NextAfter(next, calls[0], interval);
    if !Due(next, calls[0].time) {
      FiringsAreCalls(after, calls[1..], interval, k);
    } else if k > 0 {
      FiringsAreCalls(after, calls[1..], interval, k - 1);
    }
  }

  /** So a window of `length` milliseconds sees at most 1 + length / (interval + 1) firings. */
  lemma FiringsInWindow(next: int, calls: seq<Call>, interval: nat, from: int, length: nat, i: nat, j: nat)
    requires Forward(calls) && AwayFromWrap(calls, interval)
    requires i <= j < |Firings(next, calls, interval)|
    requires from <= Firings(next, calls, interval)[i].time
    requires Firings(next, calls, interval)[j].time <= from + length
    ensures j - i + 1 <= 1 + length / (interval + 1)
  {
    SpreadOut(next, calls, interval, i, j);
    var steps := j - i;
    assert steps * (interval + 1) <= length;
    DivisionBound(steps, interval + 1, length);
  }

  lemma {:induction false} SpreadOut(next: int, calls: seq<Call>, interval: nat, i: nat, j: nat)
    requires Forward(calls) && AwayFromWrap(calls, interval)
    requires i <= j < |Firings(next, calls, interval)|
    ensures var f := Firings(next, calls, interval);
            f[j].time - f[i].time >= (j - i) * (interval + 1)
    decreases j - i
  {
    if i < j {
      var f := Firings(next, calls, interval);
      SpreadOut(next, calls, interval, i, j - 1);
      FiringsApart(next, calls, interval);
      assert f[j - 1 + 1].time > f[j - 1].later + interval;
      FiringsAreCalls(next, calls, interval, j - 1);
      assert (j - i) * (interval + 1) == (j - 1 - i) * (interval + 1) + (interval + 1);
    }
  }

  lemma DivisionBound(steps: nat, unit: nat, length: nat)
    requires unit > 0 && steps * unit <= length
    ensures steps <= length / unit
  {
    var q := length / unit;
    assert length < (q + 1) * unit;
    assert (steps - (q + 1)) * unit < 0;
  }

  /** A stopped timer stays silent for ever, and so does one whose next time came out as 0; every other one fires
      at the next call whose clock has passed it. */
  lemma {:induction false} SilentExactly(next: int, calls: seq<Call>, interval: nat)
    requires Forward(calls) && Clock(next)
    ensures (next == NEVER || next == 0) ==> Firings(next, calls, interval) == []
    ensures next != NEVER && next != 0 && |calls| > 0 && calls[|calls| - 1].time > next
            ==> Firings(next, calls, interval) != []
    decreases |calls|
  {
    if calls != [] {
      var rest := calls[1..];
      assert forall i :: 0 <= i < |rest| ==> rest[i] == calls[i + 1];
      SilentExactly(next, rest, interval);
    }
  }

  /** The bound on the clock is needed: what a firing at `t` leads to depends only on how far t is from the wrap. It
      is due again at the same reading, one millisecond beyond the wrap and later; exactly at the wrap, and one
      before it, it never fires again. */
  lemma FiringNearWrap(t: int, interval: int)
    requires Clock(t) && 0 <= interval < 0x1_0000
    ensures Due(Next(t, interval), t) <==> t + interval > WRAP
    ensures (forall calls :: Forward(calls) ==> Firings(Next(t, interval), calls, interval) == [])
            <==> t + interval == NEVER || t + interval == WRAP || (t == 0 && interval == 0)
  {
    var next := Next(t, interval);
    if next == NEVER || next == 0 {
      forall calls | Forward(calls) ensures Firings(next, calls, interval) == [] {
        SilentExactly(next, calls, interval);
      }
    } else {
      var calls := [Call(NEVER, NEVER)];
      assert Forward(calls);
      SilentExactly(next, calls, interval);
    }
  }
}
