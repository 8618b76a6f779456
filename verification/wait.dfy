/**
 * The two `Driver::waitForResponse` overloads.
 *
 * The transport and the clock are an input trace: step `k` says which frames
 * the `k`-th `Comm::check` call delivered (each stamped with the timer reading
 * its handler saw) and how much time had elapsed since the wait began when
 * the loop read the timer. The sleeps between polls only advance the clock
 * and are absorbed into the trace.
 *
 * Each loop is split in two: what the driver looks like after every poll
 * (`Run`), and the exit decision, which only sees the elapsed time and the
 * flags of each poll (`Poll`).
 */
module Wait {
  import opened Codes
  import opened State
  import opened Inbound

  datatype Step = Step(frames: seq<Frame>, elapsed: real)

  type Trace = seq<Step>

  /**
   * What the clock guarantees: elapsed time is never negative, and it
   * eventually exceeds the budget (the last step is past it).
   */
  predicate ValidTrace(t: Trace, budget: real)
  {
    && |t| > 0
    && (forall i :: 0 <= i < |t| ==> 0.0 <= t[i].elapsed)
    && t[|t| - 1].elapsed > budget
  }

  /** A trace that outlasts a budget outlasts every smaller one. */
  lemma WeakerBudget(t: Trace, budget: real, smaller: real)
    requires ValidTrace(t, budget) && smaller <= budget
    ensures ValidTrace(t, smaller)
  {
  }

  /** The driver after the first `k` polls of the trace. */
  function Run(d: Driver, t: Trace, k: nat): Driver
    requires k <= |t|
  {
    if k == 0 then d else DispatchAll(Run(d, t, k - 1), t[k - 1].frames)
  }

  /** The frames delivered by the first `k` polls, in order. */
  function Delivered(t: Trace, k: nat): seq<Frame>
    requires k <= |t|
  {
    if k == 0 then [] else Delivered(t, k - 1) + t[k - 1].frames
  }

  /** Polling is dispatching every delivered frame in arrival order, across polls. */
  lemma {:induction false} RunIsDispatchAll(d: Driver, t: Trace, k: nat)
    requires k <= |t|
    ensures Run(d, t, k) == DispatchAll(d, Delivered(t, k))
  {
    if k > 0 {
      var a, b := Delivered(t, k - 1), t[k - 1].frames;
      RunIsDispatchAll(d, t, k - 1);
      DispatchAllAppend(d, a, b);
      assert Delivered(t, k) == a + b;
      assert Run(d, t, k) == DispatchAll(Run(d, t, k - 1), b);
    }
  }

  /** After `k` polls the flags are the old ones plus every flag the delivered frames raised. */
  lemma RunAck(d: Driver, t: Trace, k: nat)
    requires k <= |t|
    ensures Run(d, t, k).ack == d.ack + RaisedSet(Delivered(t, k))
    ensures Run(d, t, k).alive == d.alive
  {
    RunIsDispatchAll(d, t, k);
  }

  /** What the loop condition reads after one poll. */
  datatype Poll = Poll(elapsed: real, ack: set<Code>)

  /** What the loop condition reads after poll `j` of the trace. */
  function PollAt(d: Driver, t: Trace, j: nat): Poll
    requires j < |t|
  {
    Poll(t[j].elapsed, Run(d, t, j + 1).ack)
  }

  /** What the loop condition reads after each poll of the trace, in order. */
  function Polls(d: Driver, t: Trace): (ps: seq<Poll>)
    ensures |ps| == |t|
    ensures forall j :: 0 <= j < |t| ==> ps[j] == PollAt(d, t, j)
  {
    seq(|t|, j requires 0 <= j < |t| => PollAt(d, t, j))
  }

  /** How a wait ended; `NoOperation` is the exception the single-flag wait throws. */
  datatype Status = Satisfied | TimedOut | NoOperation

  /** How a loop ended: its status, the updated budget and the number of polls made. */
  datatype Exit = Exit(status: Status, budget: real, steps: nat)

  /** The driver after a wait, how it ended, the updated budget and the number of polls made. */
  datatype Waited = Waited(driver: Driver, status: Status, budget: real, steps: nat)

  function Max0(x: real): real
  {
    if x < 0.0 then 0.0 else x
  }

  /** The budget left after a wait whose last poll read `elapsed`. */
  function Remaining(budget: real, elapsed: real): real
  {
    if elapsed > budget then 0.0 else budget - elapsed
  }

  /* ---------------- single-flag wait ---------------- */

  /** A poll after which the single-flag loop goes on: in time, no NOP, no flag `c`. */
  predicate Pending(p: Poll, c: Code, budget: real)
  {
    p.elapsed <= budget && Nop !in p.ack && c !in p.ack
  }

  /** How the single-flag loop leaves after poll `p`. */
  predicate ExitsAs(p: Poll, c: Code, budget: real, x: Exit)
  {
    && (p.elapsed > budget ==> x.status == (if c in p.ack then Satisfied else TimedOut) && x.budget == 0.0)
    && (p.elapsed <= budget && Nop in p.ack ==> x.status == NoOperation && x.budget == budget)
    && (p.elapsed <= budget && Nop !in p.ack ==> c in p.ack && x.status == Satisfied && x.budget == budget - p.elapsed)
  }

  /** The do-while loop of the single-flag wait, from poll `k` on. */
  function FlagLoop(ps: seq<Poll>, c: Code, budget: real, k: nat): (x: Exit)
    requires k < |ps| && ps[|ps| - 1].elapsed > budget
    ensures k < x.steps <= |ps|
    ensures forall j :: k <= j < x.steps - 1 ==> Pending(ps[j], c, budget)
    ensures ExitsAs(ps[x.steps - 1], c, budget, x)
    decreases |ps| - k
  {
    var p := ps[k];
    if p.elapsed > budget then Exit(if c in p.ack then Satisfied else TimedOut, 0.0, k + 1)
    else if Nop in p.ack then Exit(NoOperation, budget, k + 1)
    else if c in p.ack then Exit(Satisfied, budget - p.elapsed, k + 1)
    else FlagLoop(ps, c, budget, k + 1)
  }

  /**
   * `waitForResponse(checkBit, timeout)`: poll until flag `c` is up, throwing
   * `NoOperation` as soon as a poll within the budget finds the NOP flag up.
   */
  function WaitFor(d: Driver, c: Code, budget: real, t: Trace): (r: Waited)
    requires ValidTrace(t, budget)
    ensures 0 < r.steps <= |t|
    ensures r.driver == Run(d, t, r.steps)
    // every earlier poll was in time and saw neither the NOP flag nor `c`
    ensures forall j :: 0 <= j < r.steps - 1 ==> Pending(PollAt(d, t, j), c, budget)
    // the result is the flag, unless the wait threw
    ensures r.status.NoOperation? || (r.status.Satisfied? <==> c in r.driver.ack)
    // the loop stops early only on the flag or on a NOP
    ensures t[r.steps - 1].elapsed <= budget ==> Nop in r.driver.ack || c in r.driver.ack
    // a NOP seen in time wins over the flag
    ensures t[r.steps - 1].elapsed <= budget && Nop in r.driver.ack ==> r.status.NoOperation?
    // on return the budget is what the last poll left; a throw leaves it alone
    ensures !r.status.NoOperation? ==> r.budget == Remaining(budget, t[r.steps - 1].elapsed)
    ensures r.status.NoOperation? ==> r.budget == budget && Nop in r.driver.ack
    // a late poll leaves the loop before the NOP test, so only a poll in time throws
    ensures r.status.NoOperation? ==> t[r.steps - 1].elapsed <= budget
    ensures r.status.TimedOut? ==> r.budget == 0.0
    ensures 0.0 <= r.budget <= Max0(budget)
  {
    var x := FlagLoop(Polls(d, t), c, budget, 0);
    Waited(Run(d, t, x.steps), x.status, x.budget, x.steps)
  }

  /** A NOP flag up at the first poll, in time, ends the wait there with the exception. */
  lemma NopFirstPoll(d: Driver, c: Code, budget: real, t: Trace)
    requires ValidTrace(t, budget)
    requires Nop in Run(d, t, 1).ack && t[0].elapsed <= budget
    ensures WaitFor(d, c, budget, t) == Waited(Run(d, t, 1), NoOperation, budget, 1)
  {
    var ps := Polls(d, t);
    var p := Poll(t[0].elapsed, Run(d, t, 1).ack);
    assert ps[0] == p;
    assert p.elapsed <= budget && Nop in p.ack;
    assert FlagLoop(ps, c, budget, 0) == Exit(NoOperation, budget, 1);
  }

  /* ---------------- multi-flag wait ---------------- */

  /** A poll after which the multi-flag loop goes on: in time, some flag of `mask` still down. */
  predicate PendingAll(p: Poll, mask: set<Code>, budget: real)
  {
    p.elapsed <= budget && !(mask <= p.ack)
  }

  /** How the multi-flag loop leaves after poll `p`. */
  predicate ExitsAllAs(p: Poll, mask: set<Code>, budget: real, x: Exit)
  {
    && (p.elapsed > budget ==> x.status == (if mask <= p.ack then Satisfied else TimedOut) && x.budget == 0.0)
    && (p.elapsed <= budget ==> mask <= p.ack && x.status == Satisfied && x.budget == budget - p.elapsed)
  }

  /** The do-while loop of the multi-flag wait, from poll `k` on. */
  function MaskLoop(ps: seq<Poll>, mask: set<Code>, budget: real, k: nat): (x: Exit)
    requires k < |ps| && ps[|ps| - 1].elapsed > budget
    ensures k < x.steps <= |ps|
    ensures forall j :: k <= j < x.steps - 1 ==> PendingAll(ps[j], mask, budget)
    ensures ExitsAllAs(ps[x.steps - 1], mask, budget, x)
    decreases |ps| - k
  {
    var p := ps[k];
    if p.elapsed > budget then Exit(if mask <= p.ack then Satisfied else TimedOut, 0.0, k + 1)
    else if mask <= p.ack then Exit(Satisfied, budget - p.elapsed, k + 1)
    else MaskLoop(ps, mask, budget, k + 1)
  }

  /**
   * `waitForResponse(checkBits, timeout)`: poll until every flag of `mask` is
   * up, i.e. until `(ackBits_ & checkBits) == checkBits`.
   */
  function WaitForAll(d: Driver, mask: set<Code>, budget: real, t: Trace): (r: Waited)
    requires ValidTrace(t, budget)
    ensures 0 < r.steps <= |t|
    ensures r.driver == Run(d, t, r.steps)
    ensures forall j :: 0 <= j < r.steps - 1 ==> PendingAll(PollAt(d, t, j), mask, budget)
    // the loop exits only when every flag is up or the budget is exceeded
    ensures mask <= r.driver.ack || t[r.steps - 1].elapsed > budget
    ensures !r.status.NoOperation?
    ensures r.status.Satisfied? <==> mask <= r.driver.ack
    ensures r.budget == Remaining(budget, t[r.steps - 1].elapsed)
    ensures r.status.TimedOut? ==> r.budget == 0.0
    ensures 0.0 <= r.budget <= Max0(budget)
  {
    var x := MaskLoop(Polls(d, t), mask, budget, 0);
    Waited(Run(d, t, x.steps), x.status, x.budget, x.steps)
  }
}
