/** The main results about runs: any number of commands, any interleaving, crashes anywhere. */
module Lifecycle {
  import opened Basics
  import opened Phases
  import opened Store
  import opened Supervisor
  import opened Recovery
  import opened Files
  import opened Host
  import opened Protocol
  import opened ProtocolInvariant
  import opened ProtocolWorld

  /** Every reachable world is sound. */
  lemma ReachableIsSound(w: World)
    requires Reachable(w)
    ensures WorldInv(w)
  {
    hide WorldInv;
    var worlds, events :| IsRun(worlds, events) && w == worlds[|events|];
    RunIsSound(worlds, events, |events|);
  }

  /**
   * No orphan runtime: in every reachable world, each live runtime that IOLD launched is accounted for by the row of
   * its own deployment, which is not DESTROYED, and by no other row; a command that still holds it is not needed for
   * that.
   */
  lemma NoOrphan(w: World, l: LaunchId)
    requires Reachable(w) && l in w.host.launches && Live(w.host.procs, l)
    ensures var o := w.host.launches[l];
            && AccountedFor(w.host.rows, w.host.procs, o, l)
            && (forall id :: id in w.host.rows && Claims(w.host.procs, w.host.rows[id], l) ==> id == o.id)
  {
    ReachableIsSound(w);
    NoOrphanRuntime(w.host, l);
  }

  /** At most one deployment is not DESTROYED, and at most one runtime is alive, with or without --replace. */
  lemma AtMostOneActive(w: World)
    requires Reachable(w)
    ensures var h := w.host;
            && (forall i, j {:trigger h.rows[i], h.rows[j]} ::
                  i in h.rows && j in h.rows && Active(h.rows[i]) && Active(h.rows[j]) ==> i == j)
            && (forall l, m {:trigger h.launches[l], h.launches[m]} ::
                  l in h.launches && m in h.launches && Live(h.procs, l) && Live(h.procs, m) ==> l == m)
  {
    ReachableIsSound(w);
    var h := w.host;
    forall i, j | i in h.rows && j in h.rows && Active(h.rows[i]) && Active(h.rows[j]) ensures i == j {
      assert BothActive(h.rows, i, j);
    }
    forall l, m | l in h.launches && m in h.launches && Live(h.procs, l) && Live(h.procs, m) ensures l == m {
      OneRuntime(h, l, m);
    }
  }

  /**
   * No command ever meets ErrConflict, ErrIllegalTransition, ErrDuplicate, ErrNotDestroyed or ErrNotFound from a
   * statement it issues, and only the lock holder is past the lock.
   */
  lemma NoStoreFaults(w: World, c: nat)
    requires Reachable(w) && c in w.cmds
    ensures !w.cmds[c].pc.StoreFault? && (Holding(w.cmds[c].pc) ==> w.lock == Some(c))
  {
    ReachableIsSound(w);
    assert CmdInv(w, c);
    hide Inv, NoImposter;
    EndsHold(w.host, w.cmds[c].pc);
  }

  /** Every signal ever sent reached only processes of the recorded launch; SIGTERM also verified its leader then. */
  lemma SignalsReachOnlyOwned(w: World, i: nat)
    requires Reachable(w) && i < |w.host.signals|
    ensures var s := w.host.signals[i];
            && IdOf(s.target) in w.host.launches
            && (forall p :: p in s.group ==> s.group[p].origin == Some(IdOf(s.target)))
            && (s.signal == Term ==> Identical(s.group, s.target))
  {
    ReachableIsSound(w);
    assert SignalOk(w.host.signals[i], w.host.launches);
  }

  /** DESTROYED means nothing is left: no live process of any launch, no log, no directory, no cache. */
  lemma DestroyedIsGone(w: World, id: string)
    requires Reachable(w) && id in w.host.rows && w.host.rows[id].phase == Destroyed
    ensures NoneLive(w.host, OwnerOf(w.host.rows[id])) && Gone(w.host.files, w.host.root, w.host.rows[id])
  {
    ReachableIsSound(w);
    DestroyedLeavesNothing(w.host, id);
  }

  /**
   * A deployment is shown as serving only after /health answered while exactly its recorded runtime was running, and as
   * registering only after the readiness checks passed for its own served ID.
   */
  lemma ServingWasProbed(w: World, id: string)
    requires Reachable(w) && id in w.host.rows
    ensures var d := w.host.rows[id];
            && (d.phase in {Healthy, Registering, Ready, UnregisteredHealthy} ==>
                  && d.pid != 0 && d.key in w.host.healthy
                  && w.host.healthy[d.key].who == RuntimeOf(d) && Identical(w.host.healthy[d.key].procs, RuntimeOf(d)))
            && (d.phase in {Registering, Ready, UnregisteredHealthy} ==>
                  d.key in w.host.ready && w.host.ready[d.key] == id)
            && (d.failureReason != "" ==> d.phase == Failed || d.phase == Crashed)
  {
    ReachableIsSound(w);
    assert RowOk(w.host, w.host.rows[id]);
  }

  /** A command launching a deployment. */
  predicate Launching(pc: Pc) {
    || pc.ToValidating? || pc.WriteKey? || pc.MakeCache? || pc.ClaimCache? || pc.ToDownloading? || pc.WriteIntent?
    || pc.ToStarting? || pc.Exec? || pc.Capture? || pc.Record? || pc.AwaitHealth? || pc.ToHealthy? || pc.AwaitReady?
    || pc.ToRegistering? || pc.ToUnregistered? || pc.FailStop? || pc.FailAwait? || pc.FailMark?
  }

  predicate LaunchingOrDone(pc: Pc, r: Run) {
    (Launching(pc) || pc.Deployed? || pc.DeployFailed?) && pc.r == r
  }

  /**
   * executeDeploy has only two ends, unless it crashes: from any point of it, each effect leads to another point of the
   * same launch, or to its end with the row in UNREGISTERED_HEALTHY or FAILED.
   */
  lemma DeployEndsInTwoPhases(w: World, c: nat, choice: Choice)
    requires Reachable(w) && c in w.cmds && Launching(w.cmds[c].pc)
    ensures var next := Step(w, Advance(c, choice));
            && c in next.cmds
            && LaunchingOrDone(next.cmds[c].pc, w.cmds[c].pc.r)
            && (next.cmds[c].pc.Deployed? ==> Mine(next.host, w.cmds[c].pc.r, UnregisteredHealthy))
            && (next.cmds[c].pc.DeployFailed? ==> Mine(next.host, w.cmds[c].pc.r, Failed))
  {
    var next := Step(w, Advance(c, choice));
    ReachableIsSound(w);
    AdvanceActs(w, c, choice);
    StaysLaunching(w.host, w.cmds[c].goal, w.cmds[c].pc, choice);
    assert PcInv(next.host, next.cmds[c].pc) by {
      StepKeeps(w, Advance(c, choice));
      assert CmdInv(next, c);
    }
    hide *;
    EndsHold(next.host, next.cmds[c].pc);
  }

  /** Advancing a command is one effect of it, or nothing if the assumption on intents would fail. */
  lemma AdvanceActs(w: World, c: nat, choice: Choice)
    requires c in w.cmds && Holding(w.cmds[c].pc)
    ensures var next := Step(w, Advance(c, choice));
            && c in next.cmds
            && (next == w || (next.host, next.cmds[c].pc) == Act(w.host, w.cmds[c].goal, w.cmds[c].pc, choice))
  {
    hide Act, NoImposter;
  }

  lemma EndsHold(h: Host, pc: Pc)
    requires PcInv(h, pc)
    ensures !pc.StoreFault?
    ensures pc.Deployed? ==> Mine(h, pc.r, UnregisteredHealthy)
    ensures pc.DeployFailed? ==> Mine(h, pc.r, Failed)
  {
    hide Mine;
  }

  /** How many effects of a deploy command are left at most. */
  function Remaining(pc: Pc): nat {
    match pc
    case ToValidating(_) => 19
    case WriteKey(_) => 18
    case MakeCache(_) => 17
    case ClaimCache(_) => 16
    case ToDownloading(_) => 15
    case WriteIntent(_) => 14
    case ToStarting(_) => 13
    case Exec(_) => 12
    case Capture(_, _) => 11
    case Record(_, _) => 10
    case AwaitHealth(_, _) => 9
    case ToHealthy(_, _) => 8
    case AwaitReady(_, _) => 7
    case ToRegistering(_, _) => 6
    case ToUnregistered(_, _) => 5
    case FailStop(_, _, _) => 4
    case FailAwait(_, _, killed, _) => if killed then 2 else 3
    case FailMark(_, _) => 1
    case _ => 0
  }

  lemma RemainingIsBounded(pc: Pc)
    ensures Remaining(pc) <= 19
  {
  }

  /** A deploy command goes on with its own launch, and closer to an end unless it polls. */
  predicate Onward(pc: Pc, pc': Pc)
    requires Launching(pc)
  {
    (LaunchingOrDone(pc', pc.r) || pc'.StoreFault?) && (pc' == pc || Remaining(pc') < Remaining(pc))
  }

  /** The points that transitions lead to. */
  lemma PreparePoints(r: Run)
    ensures Onward(ToValidating(r), WriteKey(r)) && Onward(ToDownloading(r), WriteIntent(r))
    ensures Onward(WriteIntent(r), ToStarting(r)) && Onward(ToStarting(r), Exec(r))
  {
  }

  lemma ServePoints(r: Run, who: Ident)
    ensures Onward(ToHealthy(r, who), AwaitReady(r, who)) && Onward(ToRegistering(r, who), ToUnregistered(r, who))
    ensures Onward(ToUnregistered(r, who), Deployed(r))
  {
  }

  lemma FaultIsOnward(pc: Pc, e: StoreError)
    requires Launching(pc)
    ensures Onward(pc, StoreFault(e))
  {
  }

  /** A transition leads to its next point, or to a fault. */
  lemma MoveOnward(pc: Pc, h: Host, id: string, from: Phase, to: Phase, reason: string, next: Pc)
    requires Launching(pc) && Onward(pc, next)
    ensures Onward(pc, Move(h, id, from, to, reason, next).1)
  {
    hide Move, Launching, Onward;
    MoveGoesOn(h, id, from, to, reason, next);
    var pc' := Move(h, id, from, to, reason, next).1;
    if pc'.StoreFault? {
      FaultIsOnward(pc, pc'.error);
    }
  }

  lemma MoveGoesOn(h: Host, id: string, from: Phase, to: Phase, reason: string, next: Pc)
    ensures Move(h, id, from, to, reason, next).1 == next || Move(h, id, from, to, reason, next).1.StoreFault?
  {
    hide TransitionRow;
  }

  lemma StaysClaiming(h: Host, pc: Pc, c: Choice)
    requires pc.WriteKey? || pc.MakeCache? || pc.ClaimCache?
    ensures Onward(pc, ActPrepare(h, pc, c).1)
  {
    hide SetMarker, Move, Write;
  }

  lemma StaysMoving(h: Host, pc: Pc, c: Choice)
    requires pc.ToValidating? || pc.ToDownloading? || pc.WriteIntent? || pc.ToStarting?
    ensures Onward(pc, ActPrepare(h, pc, c).1)
  {
    hide Onward, Move, SetIntentRow;
    var r := pc.r;
    PreparePoints(r);
    match pc
    case ToValidating(_) => MoveOnward(pc, h, r.spec.id, Requested, Validating, "", WriteKey(r));
    case ToDownloading(_) => MoveOnward(pc, h, r.spec.id, Validating, Downloading, "", WriteIntent(r));
    case ToStarting(_) => MoveOnward(pc, h, r.spec.id, Downloading, Starting, "", Exec(r));
    case WriteIntent(_) =>
      FailsOnward(pc, Downloading);
      forall e | ActPrepare(h, pc, c).1 == StoreFault(e) ensures Onward(pc, StoreFault(e)) {
        FaultIsOnward(pc, e);
      }
  }

  lemma FailsOnward(pc: Pc, from: Phase)
    requires pc.WriteKey? || pc.MakeCache? || pc.ClaimCache? || pc.WriteIntent?
    ensures Onward(pc, FailMark(pc.r, from))
  {
  }

  lemma StaysPreparing(h: Host, pc: Pc, c: Choice)
    requires pc.ToValidating? || pc.WriteKey? || pc.MakeCache? || pc.ClaimCache? || pc.ToDownloading?
             || pc.WriteIntent? || pc.ToStarting?
    ensures Onward(pc, ActPrepare(h, pc, c).1)
  {
    hide Onward, Move, Write;
    if pc.WriteKey? || pc.MakeCache? || pc.ClaimCache? {
      StaysClaiming(h, pc, c);
    } else {
      StaysMoving(h, pc, c);
    }
  }

  lemma StaysStarting(h: Host, pc: Pc, c: Choice)
    requires pc.Exec? || pc.Capture? || pc.Record?
    ensures Onward(pc, ActLaunch(h, pc, c).1)
  {
    hide Spawns, Launched, LogCreated, Send, Group, SetRuntimeRow;
  }

  /** The points that the fail closure passes. */
  lemma FailPoints(r: Run, who: Ident, from: Phase)
    ensures Onward(FailStop(r, who, from), FailAwait(r, who, false, from))
    ensures Onward(FailStop(r, who, from), FailMark(r, from)) && Onward(FailMark(r, from), DeployFailed(r))
    ensures Onward(FailAwait(r, who, false, from), FailAwait(r, who, true, from))
    ensures forall killed :: Onward(FailAwait(r, who, killed, from), FailMark(r, from))
  {
  }

  lemma Waits(pc: Pc)
    requires Launching(pc)
    ensures Onward(pc, pc)
  {
  }

  lemma StaysFailing(h: Host, pc: Pc, c: Choice)
    requires pc.FailStop? || pc.FailAwait? || pc.FailMark?
    ensures Onward(pc, ActFail(h, pc, c).1)
  {
    hide Onward, DecideStop, Send, GroupAlive, Move;
    Waits(pc);
    match pc
    case FailStop(r, who, from) => FailPoints(r, who, from);
    case FailAwait(r, who, killed, from) => FailPoints(r, who, from);
    case FailMark(r, from) =>
      FailPoints(r, Ident(0, "", 0, ""), from);
      MoveOnward(pc, h, r.spec.id, from, Failed, "cause", DeployFailed(r));
  }

  lemma StaysPolling(h: Host, pc: Pc, c: Choice)
    requires pc.AwaitHealth? || pc.AwaitReady?
    ensures Onward(pc, ActServe(h, pc, c).1)
  {
    hide Reconcile, Move;
  }

  lemma StaysServing(h: Host, pc: Pc, c: Choice)
    requires pc.ToHealthy? || pc.ToRegistering? || pc.ToUnregistered?
    ensures Onward(pc, ActServe(h, pc, c).1)
  {
    hide Onward, Move;
    var r, who := pc.r, pc.who;
    ServePoints(r, who);
    match pc
    case ToHealthy(_, _) => MoveOnward(pc, h, r.spec.id, Starting, Healthy, "", AwaitReady(r, who));
    case ToRegistering(_, _) => MoveOnward(pc, h, r.spec.id, Healthy, Registering, "", ToUnregistered(r, who));
    case ToUnregistered(_, _) =>
      MoveOnward(pc, h, r.spec.id, Registering, UnregisteredHealthy, "gateway registration not implemented yet (M4)",
                 Deployed(r));
  }

  lemma StaysEarly(h: Host, goal: Goal, pc: Pc, c: Choice)
    requires pc.ToValidating? || pc.WriteKey? || pc.MakeCache? || pc.ClaimCache? || pc.ToDownloading?
             || pc.WriteIntent? || pc.ToStarting?
    ensures Onward(pc, Act(h, goal, pc, c).1)
  {
    hide Onward, ActPrepare, ActLaunch, ActServe, ActFail, ActRecovery, ActRecovered, ActDestroy, ActStop, ActRemove,
         ActCreate;
    StaysPreparing(h, pc, c);
  }

  lemma StaysLate(h: Host, goal: Goal, pc: Pc, c: Choice)
    requires pc.Exec? || pc.Capture? || pc.Record? || pc.AwaitHealth? || pc.ToHealthy? || pc.AwaitReady?
             || pc.ToRegistering? || pc.ToUnregistered?
    ensures Onward(pc, Act(h, goal, pc, c).1)
  {
    hide Onward, ActPrepare, ActLaunch, ActServe, ActFail, ActRecovery, ActRecovered, ActDestroy, ActStop, ActRemove,
         ActCreate;
    if pc.Exec? || pc.Capture? || pc.Record? {
      StaysStarting(h, pc, c);
    } else if pc.AwaitHealth? || pc.AwaitReady? {
      StaysPolling(h, pc, c);
    } else {
      StaysServing(h, pc, c);
    }
  }

  lemma StaysAtEnd(h: Host, goal: Goal, pc: Pc, c: Choice)
    requires pc.FailStop? || pc.FailAwait? || pc.FailMark?
    ensures Onward(pc, Act(h, goal, pc, c).1)
  {
    hide Onward, ActPrepare, ActLaunch, ActServe, ActFail, ActRecovery, ActRecovered, ActDestroy, ActStop, ActRemove,
         ActCreate;
    StaysFailing(h, pc, c);
  }

  /**
   * executeDeploy ends, unless it crashes: each effect leads to another point of the same launch or to one of its ends,
   * and except while it polls it is closer to an end, at most nineteen effects away.
   */
  lemma StaysLaunching(h: Host, goal: Goal, pc: Pc, c: Choice)
    requires Launching(pc)
    ensures Onward(pc, Act(h, goal, pc, c).1) && Remaining(pc) <= 19
  {
    hide Onward, Act, Remaining;
    RemainingIsBounded(pc);
    if pc.ToValidating? || pc.WriteKey? || pc.MakeCache? || pc.ClaimCache? || pc.ToDownloading? || pc.WriteIntent?
       || pc.ToStarting? {
      StaysEarly(h, goal, pc, c);
    } else if pc.FailStop? || pc.FailAwait? || pc.FailMark? {
      StaysAtEnd(h, goal, pc, c);
    } else {
      StaysLate(h, goal, pc, c);
    }
  }

  /** Rows change only by an effect of the command that holds the lock. */
  lemma OnlyHolderWrites(w: World, e: Event)
    requires Reachable(w)
    ensures Step(w, e).host.rows != w.host.rows ==> e.Advance? && w.lock == Some(e.c)
  {
    ReachableIsSound(w);
    hide Reachable, Inv, NoImposter, PcInv, Step;
    if e.Advance? && e.c in w.cmds && Holding(w.cmds[e.c].pc) {
      assert CmdInv(w, e.c);
    } else {
      OtherEvents(w, e);
    }
  }
}
