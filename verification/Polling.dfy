/** The two loops in which a deploy command waits for its runtime: until it is healthy, then until it serves. */
module Polling {
  import opened Basics
  import opened Supervisor

  /** What one round observes: the runtime's identity, then its answer, then the clock. */
  datatype Round = Round(status: Status, answers: bool, clock: int)

  datatype Ending = Ready | Exited | TimedOut

  /** How round `i` ends the loop, if it does. */
  function Verdict(r: Round, deadline: int): Option<Ending> {
    if r.status != Running then Some(Exited)
    else if r.answers then Some(Ready)
    else if r.clock > deadline then Some(TimedOut)
    else None
  }

  /** The loop ends with `e` after observing rounds 0 to `last`, and nothing before the last of them decided it. */
  ghost predicate EndsAt(rounds: nat -> Round, deadline: int, last: nat, e: Ending) {
    && Verdict(rounds(last), deadline) == Some(e)
    && forall i: nat :: i < last ==> Verdict(rounds(i), deadline) == None
  }

  /** waitHealthy: success means the runtime was still the recorded process and answered 200, in the same round. */
  method WaitHealthy(rounds: nat -> Round, started: int, timeout: int, ghost passes: nat)
    returns (ending: Ending, last: nat)
    requires rounds(passes).clock > started + timeout
    ensures EndsAt(rounds, started + timeout, last, ending) && last <= passes
    ensures ending == Ready ==> rounds(last).status == Running && rounds(last).answers
    ensures ending != Exited <==> forall i: nat :: i <= last ==> rounds(i).status == Running
  {
    var deadline := started + timeout;
    last := 0;
    while true
      invariant last <= passes
      invariant forall i: nat :: i < last ==> Verdict(rounds(i), deadline) == None
      decreases passes - last
    {
      if rounds(last).status != Running {
        return Exited, last;
      }
      if rounds(last).answers {
        return Ready, last;
      }
      if rounds(last).clock > deadline {
        return TimedOut, last;
      }
      last := last + 1;
    }
  }

  /** Readiness rounds do not look at the process. */
  function Probing(probes: nat -> bool, clock: nat -> int): nat -> Round {
    (i: nat) => Round(Running, probes(i), clock(i))
  }

  /** Probe `i` succeeds, and the deadline had not passed after any probe before it. */
  ghost predicate InTime(probes: nat -> bool, clock: nat -> int, deadline: int, i: nat) {
    probes(i) && forall j: nat :: j < i ==> clock(j) <= deadline
  }

  ghost predicate SomeProbeInTime(probes: nat -> bool, clock: nat -> int, deadline: int) {
    exists i: nat :: InTime(probes, clock, deadline, i)
  }

  /**
   * checkReadiness: ready exactly when some probe succeeds in time; even a probe made after the deadline may be that
   * one.
   */
  method CheckReadiness(probes: nat -> bool, clock: nat -> int, started: int, timeout: int, ghost passes: nat)
    returns (ready: bool, last: nat)
    requires clock(passes) > started + timeout
    ensures last <= passes
    ensures EndsAt(Probing(probes, clock), started + timeout, last, if ready then Ready else TimedOut)
    ensures ready <==> SomeProbeInTime(probes, clock, started + timeout)
  {
    var deadline := started + timeout;
    last := 0;
    while true
      invariant last <= passes
      invariant forall i: nat :: i < last ==> !probes(i) && clock(i) <= deadline
      decreases passes - last
    {
      if probes(last) {
        assert InTime(probes, clock, deadline, last);
        return true, last;
      }
      if clock(last) > deadline {
        assert forall i: nat :: i > last ==> !InTime(probes, clock, deadline, i);
        return false, last;
      }
      last := last + 1;
    }
  }

  /** The rounds decide the outcome: no two endings are possible. */
  lemma EndingIsUnique(rounds: nat -> Round, deadline: int, a: nat, e: Ending, b: nat, f: Ending)
    requires EndsAt(rounds, deadline, a, e) && EndsAt(rounds, deadline, b, f)
    ensures a == b && e == f
  {
    assert a < b ==> Verdict(rounds(a), deadline) == None;
    assert b < a ==> Verdict(rounds(b), deadline) == None;
  }

  /** The clock moves on by at least the poll interval from round to round. */
  ghost predicate Paced(rounds: nat -> Round, started: int, interval: int) {
    rounds(0).clock >= started && forall i: nat :: rounds(i + 1).clock >= rounds(i).clock + interval
  }

  lemma {:induction false} PacedClock(rounds: nat -> Round, started: int, interval: int, i: nat)
    requires Paced(rounds, started, interval)
    ensures rounds(i).clock >= started + i * interval
  {
    if i > 0 {
      PacedClock(rounds, started, interval, i - 1);
      assert rounds((i - 1) + 1).clock >= rounds(i - 1).clock + interval;
      assert i * interval == (i - 1) * interval + interval;
    }
  }

  /** With a poll interval between rounds the loop always ends, after at most timeout / interval + 2 rounds. */
  lemma PollingEnds(rounds: nat -> Round, started: int, timeout: nat, interval: int, last: nat, e: Ending)
    requires interval > 0 && Paced(rounds, started, interval)
    ensures rounds(timeout / interval + 1).clock > started + timeout
    ensures EndsAt(rounds, started + timeout, last, e) ==> last <= timeout / interval + 1
  {
    var n: nat := timeout / interval + 1;
    PacedClock(rounds, started, interval, n);
    assert n * interval > timeout by {
      assert timeout == (timeout / interval) * interval + timeout % interval;
      assert n * interval == (timeout / interval) * interval + interval;
    }
    assert Verdict(rounds(n), started + timeout).Some?;
  }
}
