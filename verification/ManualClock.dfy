/**
  The hand-advanced clock (src/chaos/transport.ts): callbacks fire by due time, then scheduling order,
  however many more they schedule while firing.
 */
module ManualClockModel {
  import opened Options

  datatype Item = Item(dueAt: real, number: nat)

  /** `fired` are the callbacks run so far, in order. */
  datatype Clock = Clock(now: real, number: nat, queue: seq<Item>, fired: seq<Item>)

  const INIT := Clock(0.0, 0, [], [])

  /** The firing order. */
  predicate Before(a: Item, b: Item) {
    a.dueAt < b.dueAt || (a.dueAt == b.dueAt && a.number < b.number)
  }

  function Max(a: real, b: real): real { if a > b then a else b }

  /** `None` is no limit. */
  predicate Due(item: Item, target: Option<real>) {
    target.None? || item.dueAt <= target.value
  }

  function Schedule(c: Clock, delay: real): Clock {
    c.(queue := c.queue + [Item(c.now + Max(0.0, delay), c.number)], number := c.number + 1)
  }

  /** Position `i` holds the first of the due items. */
  predicate Earliest(queue: seq<Item>, target: Option<real>, i: nat) {
    && i < |queue| && Due(queue[i], target)
    && forall k | 0 <= k < |queue| && k != i && Due(queue[k], target) :: Before(queue[i], queue[k])
  }

  function Fire(c: Clock, i: nat): Clock
    requires i < |c.queue|
  {
    Clock(Max(c.now, c.queue[i].dueAt), c.number, c.queue[..i] + c.queue[i + 1..], c.fired + [c.queue[i]])
  }

  /**
    The steps of any use of the clock: `schedule` (also from inside a callback), firing the earliest item due
    by a target, and the end of an `advance`, when nothing is due by its target any more.
   */
  datatype Step = DoSchedule(delay: real) | DoFire(target: Option<real>, i: nat) | DoSettle(reached: real)

  predicate Allowed(c: Clock, step: Step) {
    match step
    case DoSchedule(_) => true
    case DoFire(target, i) => Earliest(c.queue, target, i)
    case DoSettle(target) => forall k | 0 <= k < |c.queue| :: !Due(c.queue[k], Some(target))
  }

  function Take(c: Clock, step: Step): Clock
    requires Allowed(c, step)
  {
    match step
    case DoSchedule(delay) => Schedule(c, delay)
    case DoFire(_, i) => Fire(c, i)
    case DoSettle(target) => c.(now := Max(c.now, target))
  }

  predicate CanRun(c: Clock, steps: seq<Step>)
    decreases |steps|
  {
    steps == [] || (Allowed(c, steps[0]) && CanRun(Take(c, steps[0]), steps[1..]))
  }

  function Run(c: Clock, steps: seq<Step>): Clock
    requires CanRun(c, steps)
    decreases |steps|
  {
    if steps == [] then c else Run(Take(c, steps[0]), steps[1..])
  }

  /**
    Scheduling puts a callback last, due the delay from now, or now when the delay is negative. Firing takes it from
    the queue, whenever it was scheduled, and no earlier than it is due. Time never runs back, and an advance reaches
    its target.
   */
  lemma StepIsOnTime(c: Clock, step: Step)
    requires Inv(c) && Allowed(c, step)
    ensures var d := Take(c, step);
            match step
            case DoSchedule(delay) =>
              && d.now == c.now && d.fired == c.fired && d.number == c.number + 1
              && d.queue == c.queue + [Item(if delay > 0.0 then c.now + delay else c.now, c.number)]
            case DoFire(_, i) =>
              && c.now <= d.now == c.queue[i].dueAt && d.fired == c.fired + [c.queue[i]] && d.number == c.number
              && multiset(d.queue) == multiset(c.queue) - multiset{c.queue[i]}
            case DoSettle(target) =>
              d == c.(now := if target > c.now then target else c.now)
  {
    match step
    case DoFire(target, i) =>
      assert Waiting(c, i);
      assert c.queue == c.queue[..i] + ([c.queue[i]] + c.queue[i + 1..]);
      assert multiset(c.queue) == multiset(c.queue[..i]) + (multiset{c.queue[i]} + multiset(c.queue[i + 1..]));
    case _ =>
  }

  predicate Waiting(c: Clock, k: nat) {
    k < |c.queue| ==>
      && c.now <= c.queue[k].dueAt && c.queue[k].number < c.number
      && forall f | 0 <= f < |c.fired| :: Before(c.fired[f], c.queue[k])
  }

  predicate Inv(c: Clock) {
    && (forall k | 0 <= k < |c.queue| :: Waiting(c, k))
    && (forall j, k | 0 <= j < k < |c.queue| :: c.queue[j].number != c.queue[k].number)
    && (forall f | 0 <= f < |c.fired| :: c.fired[f].dueAt <= c.now && c.fired[f].number < c.number)
    && (forall f, g | 0 <= f < g < |c.fired| :: Before(c.fired[f], c.fired[g]))
    && |c.fired| + |c.queue| == c.number
  }

  lemma ScheduleKeeps(c: Clock, delay: real)
    requires Inv(c)
    ensures Inv(Schedule(c, delay))
  {
    var d := Schedule(c, delay);
    forall k | 0 <= k < |d.queue| ensures Waiting(d, k) {
      assert k < |c.queue| ==> Waiting(c, k);
    }
    forall j, k | 0 <= j < k < |d.queue| ensures d.queue[j].number != d.queue[k].number {
      assert Waiting(c, j);
    }
  }

  /** The earliest due item is the earliest of all, so whatever still waits fires after it. */
  lemma EarliestOfAll(c: Clock, target: Option<real>, i: nat, k: nat)
    requires Inv(c) && Earliest(c.queue, target, i) && k < |c.queue| && k != i
    ensures Before(c.queue[i], c.queue[k])
  {
    if Due(c.queue[k], target) {
      assert Before(c.queue[i], c.queue[k]);
    }
  }

  lemma FireKeeps(c: Clock, target: Option<real>, i: nat)
    requires Inv(c) && Earliest(c.queue, target, i)
    ensures Inv(Fire(c, i))
  {
    var d := Fire(c, i);
    assert Waiting(c, i);
    forall k | 0 <= k < |d.queue| ensures Waiting(d, k) {
      var was := if k < i then k else k + 1;
      assert d.queue[k] == c.queue[was] && Waiting(c, was);
      EarliestOfAll(c, target, i, was);
    }
    forall f, g | 0 <= f < g < |d.fired| ensures Before(d.fired[f], d.fired[g]) {
      if g < |c.fired| {
        assert Before(c.fired[f], c.fired[g]);
      }
    }
  }

  lemma SettleKeeps(c: Clock, target: real)
    requires Inv(c) && forall k | 0 <= k < |c.queue| :: !Due(c.queue[k], Some(target))
    ensures Inv(c.(now := Max(c.now, target)))
  {
    var d := c.(now := Max(c.now, target));
    forall k | 0 <= k < |d.queue| ensures Waiting(d, k) {
      assert Waiting(c, k) && !Due(c.queue[k], Some(target));
    }
  }

  lemma {:induction false} RunKeeps(c: Clock, steps: seq<Step>)
    requires Inv(c) && CanRun(c, steps)
    ensures Inv(Run(c, steps))
    decreases |steps|
  {
    hide Inv, Earliest;
    if steps != [] {
      match steps[0] {
        case DoSchedule(delay) => ScheduleKeeps(c, delay);
        case DoFire(target, i) => FireKeeps(c, target, i);
        case DoSettle(target) => SettleKeeps(c, target);
      }
      RunKeeps(Take(c, steps[0]), steps[1..]);
    }
  }

  /**
    Over a whole run, whatever callbacks schedule and whatever targets are used: the fired keys strictly
    increase, no callback fires before time has reached its due point, everything still waiting comes after
    everything fired, and every callback scheduled has either fired or is waiting.
   */
  lemma FiringOrder(steps: seq<Step>)
    requires CanRun(INIT, steps)
    ensures var c := Run(INIT, steps);
            && (forall f, g | 0 <= f < g < |c.fired| :: Before(c.fired[f], c.fired[g]))
            && (forall f | 0 <= f < |c.fired| :: c.fired[f].dueAt <= c.now)
            && (forall f, k | 0 <= f < |c.fired| && 0 <= k < |c.queue| :: Before(c.fired[f], c.queue[k]))
            && |c.fired| + |c.queue| == c.number
  {
    hide Run, CanRun, Before;
    RunKeeps(INIT, steps);
    var c := Run(INIT, steps);
    forall f, k | 0 <= f < |c.fired| && 0 <= k < |c.queue| ensures Before(c.fired[f], c.queue[k]) {
      assert Waiting(c, k);
    }
  }

  // ---------------------------------------------------------------------------------------
  // The clock as an object
  // ---------------------------------------------------------------------------------------

  /** The clock; `delays(n)` is what callback number `n` schedules when it fires. */
  class ManualClock {
    const delays: nat -> seq<real>
    var now: real
    var number: nat
    var queue: seq<Item>
    ghost var fired: seq<Item>

    constructor (delays: nat -> seq<real>)
      ensures View() == INIT
    {
      this.delays := delays;
      now, number, queue, fired := 0.0, 0, [], [];
    }

    ghost function View(): Clock
      reads this
    {
      Clock(now, number, queue, fired)
    }

    method ScheduleNow(delay: real)
      modifies this
      ensures View() == Schedule(old(View()), delay)
    {
      queue := queue + [Item(now + Max(0.0, delay), number)];
      number := number + 1;
    }

    /** The first of the items due by the target, if any is. */
    method EarliestDue(target: Option<real>) returns (best: Option<nat>)
      requires Inv(View())
      ensures best.Some? ==> Earliest(queue, target, best.value)
      ensures best.None? ==> forall k | 0 <= k < |queue| :: !Due(queue[k], target)
    {
      best := None;
      for j := 0 to |queue|
        invariant best.Some? ==> best.value < j && Due(queue[best.value], target)
        invariant best.Some? ==> forall k | 0 <= k < j && k != best.value && Due(queue[k], target) :: Before(queue[best.value], queue[k])
        invariant best.None? ==> forall k | 0 <= k < j :: !Due(queue[k], target)
      {
        if Due(queue[j], target) && (best.None? || Before(queue[j], queue[best.value])) {
          best := Some(j);
        }
      }
    }

    /** Fires one callback, which schedules what it does. */
    method FireOne(i: nat)
      requires i < |queue|
      modifies this
      ensures View() == ScheduleAll(Fire(old(View()), i), delays(old(queue[i]).number))
    {
      var next := queue[i];
      now := Max(now, next.dueAt);
      queue := queue[..i] + queue[i + 1..];
      fired := fired + [next];
      var more := delays(next.number);
      ghost var whole := ScheduleAll(View(), more);
      for k := 0 to |more|
        invariant ScheduleAll(View(), more[k..]) == whole
      {
        assert more[k..][0] == more[k] && more[k..][1..] == more[k + 1..];
        ScheduleNow(more[k]);
      }
      assert more[|more|..] == [];
    }

    /** At most `fuel` callbacks; `done` once nothing is due by the target, and time has reached it. */
    method Advance(ms: real, fuel: nat) returns (done: bool)
      requires Inv(View())
      modifies this
      ensures Inv(View()) && old(fired) <= fired
      ensures done ==> now >= old(now) + ms && forall k | 0 <= k < |queue| :: queue[k].dueAt > old(now) + ms
    {
      hide Inv, Earliest, Fire, ScheduleAll;
      var target := now + ms;
      for left := fuel downto 0
        invariant Inv(View()) && old(fired) <= fired
      {
        var best := EarliestDue(Some(target));
        if best.None? {
          SettleKeeps(View(), target);
          now := Max(now, target);
          return true;
        }
        EarliestFacts(queue, Some(target), best.value);
        FireKeeps(View(), Some(target), best.value);
        ghost var c := Fire(View(), best.value);
        ScheduleAllKeeps(c, delays(queue[best.value].number));
        FireFacts(View(), best.value);
        FireOne(best.value);
      }
      done := false;
    }
  }

  lemma EarliestFacts(queue: seq<Item>, target: Option<real>, i: nat)
    requires Earliest(queue, target, i)
    ensures i < |queue|
  {
  }

  lemma FireFacts(c: Clock, i: nat)
    requires i < |c.queue|
    ensures c.fired <= Fire(c, i).fired
  {
  }

  function ScheduleAll(c: Clock, delays: seq<real>): Clock
    decreases |delays|
  {
    if delays == [] then c else ScheduleAll(Schedule(c, delays[0]), delays[1..])
  }

  lemma {:induction false} ScheduleAllKeeps(c: Clock, delays: seq<real>)
    requires Inv(c)
    ensures Inv(ScheduleAll(c, delays)) && ScheduleAll(c, delays).fired == c.fired
    decreases |delays|
  {
    hide Inv;
    if delays != [] {
      ScheduleKeeps(c, delays[0]);
      ScheduleAllKeeps(Schedule(c, delays[0]), delays[1..]);
    }
  }
}
