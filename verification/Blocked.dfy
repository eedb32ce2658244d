/**
 * The other half of resumable destroy: while the recorded runtime cannot be stopped, or the cache may not go, no run of
 * commands ends the deployment.
 */
module Blocked {
  import opened Basics
  import opened Phases
  import opened Store
  import opened Supervisor
  import opened Recovery
  import opened Host
  import opened Protocol
  import opened ProtocolInvariant
  import opened ProtocolSteps
  import opened ProtocolWorld
  import opened Lifecycle
  import opened Restart
  import opened Effects
  import opened Markers
  import opened Scripts
  import opened Resume

  /** The identity that Stop refuses, on the process table as it is, under whatever reading. */
  predicate Refused(procs: Procs, who: Ident) {
    who.pid > 0 && DecideStop(procs, who, Readable) == Refuse
  }

  lemma RefusedAnyway(procs: Procs, who: Ident, reading: Reading)
    requires Refused(procs, who)
    ensures DecideStop(procs, who, reading) == Refuse
  {
  }

  /** The deployment is active, recovery leaves `who` recorded for it, and no signal was sent since the `n`-th. */
  ghost predicate Held(h: Host, id: string, who: Ident, n: nat) {
    && |h.signals| == n
    && id in h.rows && Active(h.rows[id])
    && RuntimeOf(RecoverRow(h.procs, h.rows[id])) == who
    && Refused(h.procs, who)
  }

  /** The points a command can be at while the only active deployment is held. */
  predicate ShortOfStop(pc: Pc) {
    || pc.Idle? || Recovering(pc) || pc.Ended? || pc.DestroyNext? || pc.MarkFailed? || pc.MarkDestroying?
    || pc.CheckRuntime? || pc.StopRuntime? || pc.Purge?
  }

  ghost predicate HeldAt(h: Host, pc: Pc, id: string, who: Ident, n: nat) {
    Held(h, id, who, n) && ShortOfStop(pc) && Coherent(h, pc)
  }

  /** Past recovery, the row itself records `who`. */
  lemma RowRecords(procs: Procs, d: Deployment)
    requires d.phase != Starting
    ensures RuntimeOf(RecoverRow(procs, d)) == RuntimeOf(d)
  {
    hide Reconcile;
  }

  lemma SameRecovered(h: Host, h': Host, id: string)
    requires h'.procs == h.procs && RecoverAll(h.procs, h'.rows) == RecoverAll(h.procs, h.rows)
    requires id in h.rows && id in h'.rows && Active(h.rows[id])
    ensures Active(h'.rows[id])
        && RuntimeOf(RecoverRow(h.procs, h'.rows[id])) == RuntimeOf(RecoverRow(h.procs, h.rows[id]))
  {
    assert RecoverAll(h.procs, h'.rows)[id] == RecoverAll(h.procs, h.rows)[id];
    RecoveredKeepsFields(h.procs, h.rows[id]);
    TeardownIsRecovered(h.procs, h'.rows[id]);
    hide RecoverRow, RecoverAll;
    var a, b := RecoverRow(h.procs, h'.rows[id]), RecoverRow(h.procs, h.rows[id]);
    assert RuntimeOf(Erase(a)) == RuntimeOf(a) && RuntimeOf(Erase(b)) == RuntimeOf(b);
    assert Erase(a).phase == a.phase && Erase(b).phase == b.phase;
  }

  /** What one effect may lead to: the deployment is still held, or the store failed. */
  ghost predicate StillHeld(r: (Host, Pc), id: string, who: Ident, n: nat) {
    Held(r.0, id, who, n) && (ShortOfStop(r.1) || r.1.StoreFault?) && Coherent(r.0, r.1)
  }

  /** Recovery keeps the recovered form of the row, so what it records. */
  lemma RecoveryHolds(h: Host, goal: Goal, pc: Pc, c: Choice, id: string, who: Ident, n: nat)
    requires Inv(h) && Recovering(pc) && HeldAt(h, pc, id, who, n)
    ensures StillHeld(Act(h, goal, pc, c), id, who, n)
  {
    RowsNamed(h);
    hide Act, Inv, Coherent, Refused, RecoverAll, RecoverRow;
    ActConverges(h, goal, pc, c);
    RecoveringStays(h, goal, pc, c);
    SameRecovered(h, Act(h, goal, pc, c).0, id);
    hide ShortOfStop, Recovering;
  }

  lemma RecoveryStays(h: Host, pc: Pc, c: Choice)
    requires pc.ListRows? || pc.Recover? || pc.Adopt? || pc.Settle? || pc.MarkCrashed?
    ensures var (h', pc') := ActRecovery(h, pc, c); h'.signals == h.signals && (ShortOfStop(pc') || pc'.StoreFault?)
  {
    hide Reconcile, Only, Candidates, Enumerates, TransitionRow, SetRuntimeRow;
  }

  lemma RecoveredStays(h: Host, goal: Goal, c: Choice)
    ensures var (h', pc') := ActRecovered(h, goal, c); h' == h && ShortOfStop(pc')
  {
    hide Enumerates, ValidSpec;
  }

  /** Recovery sends nothing, and leads no further than the checks after it. */
  lemma RecoveringStays(h: Host, goal: Goal, pc: Pc, c: Choice)
    requires Recovering(pc)
    ensures Act(h, goal, pc, c).0.signals == h.signals
    ensures ShortOfStop(Act(h, goal, pc, c).1) || Act(h, goal, pc, c).1.StoreFault?
  {
    hide ShortOfStop, ActRecovery, ActRecovered, ActDestroy, ActStop, ActRemove, ActCreate, ActPrepare, ActLaunch,
         ActServe, ActFail;
    if pc.Recovered? {
      RecoveredStays(h, goal, c);
    } else {
      RecoveryStays(h, pc, c);
    }
  }

  /** Nothing but the held deployment is active, so a record that is not DESTROYED is its own. */
  lemma ActiveIsHeld(h: Host, d: Deployment, id: string, who: Ident, n: nat)
    requires Inv(h) && Held(h, id, who, n) && Snap(h.rows, d) && Active(d)
    ensures d.id == id && h.rows[id].id == id
    ensures !Early(d.phase) ==> RuntimeOf(d) == who && d.pid > 0
  {
    hide Inv, RecoverRow, DecideStop;
    OnlyActive(h, id);
    RowsNamed(h);
    if !Early(d.phase) {
      RowRecords(h.procs, h.rows[d.id]);
    }
    assert RuntimeOf(h.rows[d.id]) == RuntimeOf(d);
  }

  lemma DispatchStops(d: Deployment, todo: seq<Deployment>, job: Job)
    requires d.phase == Destroying ==> d.pid > 0
    ensures ShortOfStop(Dispatch(d, todo, job)) && !Recovering(Dispatch(d, todo, job))
  {
  }

  lemma DestroyNextHolds(h: Host, todo: seq<Deployment>, job: Job, c: Choice, id: string, who: Ident, n: nat)
    requires Inv(h) && AtDestroyNext(h, todo, job) && Held(h, id, who, n)
    ensures StillHeld(ActDestroy(h, DestroyNext(todo, job), c), id, who, n)
  {
    hide Inv, Dispatch, RecoverRow, Refused, ValidSpec;
    if todo == [] {
      assert Ids(todo) == {};
    } else {
      TakeTarget(h, todo, job);
      hide AtDestroyNext, Queue, JobOk;
      if Active(todo[0]) {
        ActiveIsHeld(h, todo[0], id, who, n);
      }
      DispatchStops(todo[0], todo[1..], job);
      hide ShortOfStop, Held;
    }
  }

  lemma MoveFrame(h: Host, id: string, from: Phase, to: Phase, reason: string, next: Pc)
    ensures var (h', pc') := Move(h, id, from, to, reason, next);
            || (h' == h && pc'.StoreFault?)
            || (id in h.rows && pc' == next && h' == h.(rows := h.rows[id := Moved(h.rows[id], to, reason, h.now)]))
  {
    hide Legal;
  }

  /** Marking the held record changes its phase, not what it records. */
  lemma MarkHolds(h: Host, d: Deployment, to: Phase, reason: string, next: Pc, id: string, who: Ident, n: nat)
    requires Inv(h) && Held(h, id, who, n) && Snap(h.rows, d) && Active(d) && !Early(d.phase)
    requires to in {Failed, Destroying} && ShortOfStop(next) && Coherent(h, next) && !Recovering(next)
    ensures StillHeld(Move(h, d.id, d.phase, to, reason, next), id, who, n)
  {
    hide Inv, RecoverRow, DecideStop, ShortOfStop, Coherent, Legal;
    ActiveIsHeld(h, d, id, who, n);
    var d' := Moved(h.rows[id], to, reason, h.now);
    RowRecords(h.procs, d');
    MoveFrame(h, d.id, d.phase, to, reason, next);
    var (h', pc') := Move(h, d.id, d.phase, to, reason, next);
    OutsideIsCoherent(h', pc');
  }

  lemma MarkFailedHolds(h: Host, d: Deployment, todo: seq<Deployment>, job: Job, c: Choice, id: string, who: Ident,
      n: nat)
    requires Inv(h) && AtMark(h, d, todo, job, {Healthy, Registering}) && Held(h, id, who, n)
    ensures StillHeld(ActDestroy(h, MarkFailed(d, todo, job), c), id, who, n)
  {
    hide Inv, Held, StillHeld, Move, Queue, JobOk;
    MarkHolds(h, d, Failed, "destroy requested", MarkDestroying(d.(phase := Failed), todo, job), id, who, n);
  }

  lemma MarkDestroyingHolds(h: Host, d: Deployment, todo: seq<Deployment>, job: Job, c: Choice, id: string, who: Ident,
      n: nat)
    requires Inv(h) && AtMark(h, d, todo, job, {Ready, Failed, Crashed, UnregisteredHealthy}) && Held(h, id, who, n)
    ensures StillHeld(ActDestroy(h, MarkDestroying(d, todo, job), c), id, who, n)
  {
    hide Inv, Held, StillHeld, Move, Queue, JobOk;
    ActiveIsHeld(h, d, id, who, n);
    MarkHolds(h, d, Destroying, "", CheckRuntime(d.(phase := Destroying), todo, job), id, who, n);
  }

  lemma PurgeHolds(h: Host, d: Deployment, todo: seq<Deployment>, job: Job, c: Choice, id: string, who: Ident, n: nat)
    requires AtMark(h, d, todo, job, {Destroyed}) && Held(h, id, who, n)
    ensures StillHeld(ActDestroy(h, Purge(d, todo, job), c), id, who, n)
  {
    hide RecoverRow, Refused, Queue, JobOk;
  }

  lemma StopHolds(h: Host, pc: Pc, c: Choice, id: string, who: Ident, n: nat)
    requires pc.CheckRuntime? || pc.StopRuntime?
    requires Inv(h) && AtStop(h, pc.d, pc.todo, pc.job) && Held(h, id, who, n)
    ensures StillHeld(ActStop(h, pc, c), id, who, n)
  {
    hide Inv, Reconcile, DecideStop, Queue, JobOk, RecoverRow;
    ActiveIsHeld(h, pc.d, id, who, n);
    if c.Identity? {
      RefusedAnyway(h.procs, who, c.reading);
    }
    hide Held, Refused;
  }

  lemma DestroyHolds(h: Host, pc: Pc, c: Choice, id: string, who: Ident, n: nat)
    requires pc.DestroyNext? || pc.MarkFailed? || pc.MarkDestroying? || pc.Purge?
    requires Inv(h) && PcInv(h, pc) && Held(h, id, who, n)
    ensures StillHeld(ActDestroy(h, pc, c), id, who, n)
  {
    hide Inv, Held, StillHeld, AtDestroyNext, AtMark;
    match pc
    case DestroyNext(todo, job) => DestroyNextHolds(h, todo, job, c, id, who, n);
    case MarkFailed(d, todo, job) => MarkFailedHolds(h, d, todo, job, c, id, who, n);
    case MarkDestroying(d, todo, job) => MarkDestroyingHolds(h, d, todo, job, c, id, who, n);
    case Purge(d, todo, job) => PurgeHolds(h, d, todo, job, c, id, who, n);
  }

  /** Every effect of a command leaves a held deployment held. */
  lemma ActHolds(h: Host, goal: Goal, pc: Pc, c: Choice, id: string, who: Ident, n: nat)
    requires Inv(h) && PcInv(h, pc) && Holding(pc) && HeldAt(h, pc, id, who, n)
    ensures StillHeld(Act(h, goal, pc, c), id, who, n)
  {
    hide Inv, Held, StillHeld, PcInv, Coherent, ActDestroy, ActStop, ActRecovery, ActRecovered;
    if Recovering(pc) {
      RecoveryHolds(h, goal, pc, c, id, who, n);
    } else if pc.CheckRuntime? || pc.StopRuntime? {
      StopPoint(h, pc);
      StopHolds(h, pc, c, id, who, n);
    } else if !pc.Ended? {
      DestroyHolds(h, pc, c, id, who, n);
    } else {
      EndHolds(h, pc, id, who, n);
    }
  }

  lemma StopPoint(h: Host, pc: Pc)
    requires PcInv(h, pc)
    ensures pc.CheckRuntime? || pc.StopRuntime? ==> AtStop(h, pc.d, pc.todo, pc.job)
  {
    hide AtStop;
  }

  lemma EndHolds(h: Host, pc: Pc, id: string, who: Ident, n: nat)
    requires HeldAt(h, pc, id, who, n)
    ensures StillHeld((h, pc), id, who, n)
  {
  }

  // ----- runs -----

  /** The deployment is held, and no command is anywhere near it. */
  ghost predicate AllHeld(w: World, id: string, who: Ident, n: nat) {
    Held(w.host, id, who, n) && forall c :: c in w.cmds ==> HeldAt(w.host, w.cmds[c].pc, id, who, n)
  }

  lemma AdvanceHolds(w: World, c: nat, choice: Choice, id: string, who: Ident, n: nat)
    requires WorldInv(w) && AllHeld(w, id, who, n) && c in w.cmds && Holding(w.cmds[c].pc)
    ensures AllHeld(Step(w, Advance(c, choice)), id, who, n)
  {
    hide Inv, NoImposter, PcInv, Act, Held, Coherent, Step;
    StepKeeps(w, Advance(c, choice));
    AdvanceActs(w, c, choice);
    OthersIdle(w, c);
    ActHolds(w.host, w.cmds[c].goal, w.cmds[c].pc, choice, id, who, n);
    var next := Step(w, Advance(c, choice));
    assert CmdInv(next, c);
    EndsHold(next.host, next.cmds[c].pc);
    OutsideIsCoherent(next.host, Idle);
    AdvanceOnlyMoves(w, c, choice);
  }

  lemma AdvanceOnlyMoves(w: World, c: nat, choice: Choice)
    requires c in w.cmds && Holding(w.cmds[c].pc)
    ensures var next := Step(w, Advance(c, choice));
            && next.cmds.Keys == w.cmds.Keys
            && forall other :: other in w.cmds && other != c ==> next.cmds[other] == w.cmds[other]
  {
    hide NoImposter, Act;
  }

  lemma CalmEnv(w: World, e: EnvEvent, id: string, who: Ident, n: nat)
    requires MayHappen(w, n, Environment(e)) && Held(w.host, id, who, n)
    ensures var h' := Env(w.host, AllPinned(w.cmds), e);
            h'.rows == w.host.rows && h'.procs == w.host.procs && h'.signals == w.host.signals
  {
    if e.Exits? {
      NobodyExits(w.host, n, e.gone);
    }
    hide CanExit;
  }

  /** An undisturbed process table stays as it is while no signal is sent. */
  lemma OtherEventHolds(w: World, e: Event, id: string, who: Ident, n: nat)
    requires WorldInv(w) && AllHeld(w, id, who, n) && MayHappen(w, n, e)
    requires e.Advance? ==> !(e.c in w.cmds && Holding(w.cmds[e.c].pc))
    ensures AllHeld(Step(w, e), id, who, n)
  {
    hide Inv, NoImposter, PcInv, Act, Held, Coherent, Env, Signalled;
    if e.Environment? {
      var h' := Env(w.host, AllPinned(w.cmds), e.e);
      CalmEnv(w, e.e, id, who, n);
      CalmHolds(w.host, h', id, who, n);
      forall c | c in w.cmds ensures Coherent(h', w.cmds[c].pc) {
        CalmCoherent(w.host, h', w.cmds[c].pc);
      }
    } else {
      OutsideIsCoherent(w.host, Idle);
      OutsideIsCoherent(w.host, ListRows);
    }
  }

  lemma NobodyExits(h: Host, n: nat, gone: set<int>)
    requires |h.signals| == n
    requires forall p :: p in gone && p in h.procs ==> Signalled(h, n, h.procs[p].pgid)
    ensures h.procs - gone == h.procs
  {
    assert forall p :: p in h.procs ==> !Signalled(h, n, h.procs[p].pgid);
    assert forall p :: p in h.procs ==> p in h.procs - gone;
    assert (h.procs - gone).Keys == h.procs.Keys;
  }

  lemma CalmHolds(h: Host, h': Host, id: string, who: Ident, n: nat)
    requires Held(h, id, who, n) && h'.rows == h.rows && h'.procs == h.procs && h'.signals == h.signals
    ensures Held(h', id, who, n)
  {
  }

  lemma CalmCoherent(h: Host, h': Host, pc: Pc)
    requires Coherent(h, pc) && h'.rows == h.rows && h'.procs == h.procs
    ensures Coherent(h', pc)
  {
  }

  lemma HeldIsThere(w: World, id: string, who: Ident, n: nat)
    requires AllHeld(w, id, who, n)
    ensures id in w.host.rows && Active(w.host.rows[id])
  {
    hide HeldAt, Refused, RecoverRow;
  }

  lemma {:induction false} HeldForever(w: World, events: seq<Event>, id: string, who: Ident, n: nat)
    requires WorldInv(w) && AllHeld(w, id, who, n) && Undisturbed(w, n, events)
    ensures AllHeld(RunAll(w, events), id, who, n) && id in w.host.rows
    ensures StillThere(RunAll(w, events).host, id, w.host.rows[id].key)
    decreases |events|
  {
    hide WorldInv, AllHeld, Step, MayHappen;
    HeldIsThere(w, id, who, n);
    if events != [] {
      var e := events[0];
      StepKeeps(w, e);
      if e.Advance? && e.c in w.cmds && Holding(w.cmds[e.c].pc) {
        AdvanceHolds(w, e.c, e.choice, id, who, n);
      } else {
        OtherEventHolds(w, e, id, who, n);
      }
      HeldIsThere(Step(w, e), id, who, n);
      StepKeepsKey(w, e, id);
      HeldForever(Step(w, e), events[1..], id, who, n);
    }
  }

  /** The deployment is over: its record is gone or says DESTROYED. */
  predicate Over(h: Host, id: string) {
    id in h.rows ==> h.rows[id].phase == Destroyed
  }

  lemma RecoveredPid(h: Host, id: string)
    requires Inv(h) && id in h.rows
    ensures RecoverRow(h.procs, h.rows[id]).pid >= 0
  {
    assert RowOk(h, h.rows[id]);
    AdoptedHasRuntime(h.procs, h.rows[id]);
    hide Inv, Candidates, Only, Reconcile;
  }

  /**
   * While the runtime cannot be stopped, no undisturbed run ends the deployment, or gives its record to another one.
   */
  lemma RefusedStays(w: World, events: seq<Event>, id: string)
    requires Reachable(w) && w.lock == None && id in w.host.rows && Active(w.host.rows[id])
    requires !Stoppable(w.host.procs, w.host.rows[id]) && Undisturbed(w, |w.host.signals|, events)
    ensures StillThere(RunAll(w, events).host, id, w.host.rows[id].key)
  {
    hide RecoverRow, Inv, NoImposter, PcInv, Undisturbed, RunAll, Reachable, Coherent, DecideStop;
    ReachableIsSound(w);
    var h := w.host;
    var n := |h.signals|;
    var who := RuntimeOf(RecoverRow(h.procs, h.rows[id]));
    RecoveredPid(h, id);
    forall c | c in w.cmds ensures HeldAt(h, w.cmds[c].pc, id, who, n) {
      assert CmdInv(w, c);
      OutsideIsCoherent(h, Idle);
    }
    HeldForever(w, events, id, who, n);
  }

  /**
   * Resumable destroy, exactly. In every reachable world whose lock is free, for every active deployment: some run of
   * commands, in which no process is disturbed except by the signals sent, ends the deployment, if and only if the
   * runtime that recovery leaves recorded can be stopped and the cache is absent or carries the deployment's key.
   */
  lemma DestroyIsResumable(w: World, id: string)
    requires Reachable(w) && w.lock == None && id in w.host.rows && Active(w.host.rows[id])
    ensures (exists events :: EndsIt(w, events, id))
            <==> Stoppable(w.host.procs, w.host.rows[id]) && Releasable(w.host, id)
  {
    hide Stoppable, Releasable, Reachable, RunAll, Undisturbed;
    if Stoppable(w.host.procs, w.host.rows[id]) && Releasable(w.host, id) {
      var s, v := DestroyCanFinish(w, id, false);
      var events :| Ends(s, events, v);
      assert EndsIt(w, events, id);
    } else {
      forall events | Undisturbed(w, |w.host.signals|, events) ensures !EndsIt(w, events, id) {
        if Releasable(w.host, id) {
          RefusedStays(w, events, id);
        } else {
          UnreleasableStays(w, events, id);
        }
      }
    }
  }

  ghost predicate EndsIt(w: World, events: seq<Event>, id: string) {
    Undisturbed(w, |w.host.signals|, events) && Over(RunAll(w, events).host, id)
  }

  lemma NobodyInWindow(w: World, id: string)
    requires WorldInv(w) && w.lock == None
    ensures forall c :: c in w.cmds ==> !InWindow(w.cmds[c].pc, id)
  {
    hide Inv, NoImposter, PcInv;
    assert forall c :: c in w.cmds ==> CmdInv(w, c);
  }

  /**
   * While the cache may not go, no run at all ends the deployment, or gives its record to another one, whatever happens
   * to processes.
   */
  lemma UnreleasableStays(w: World, events: seq<Event>, id: string)
    requires Reachable(w) && w.lock == None && id in w.host.rows && Active(w.host.rows[id]) && !Releasable(w.host, id)
    ensures StillThere(RunAll(w, events).host, id, w.host.rows[id].key)
  {
    hide Inv, NoImposter, PcInv, Reachable, RunAll, Releasable;
    ReachableIsSound(w);
    hide InWindow, WorldInv;
    NobodyInWindow(w, id);
    StuckIsUnreleasable(w, id);
    StuckForever(w, events, id);
  }
}
