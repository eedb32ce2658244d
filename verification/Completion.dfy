/**
 * Every run of a destroy command to which nothing bad happens ends the deployment: not only some run does, and no run
 * of it ends otherwise.
 */
module Completion {
  import opened Basics
  import opened Phases
  import opened Store
  import opened Supervisor
  import opened Recovery
  import opened Files
  import opened Host
  import opened Protocol
  import opened ProtocolInvariant
  import opened ProtocolSteps
  import opened ProtocolWorld
  import opened Lifecycle
  import opened Restart
  import opened Termination
  import opened Markers
  import opened Scripts
  import opened Resume
  import opened Blocked

  /** The effect fails: an error, an identity that cannot be read, or a group that outlives SIGKILL. */
  predicate Fails(pc: Pc, c: Choice) {
    || c == IoError
    || (c.Identity? && c.reading != Readable)
    || (pc.AwaitExit? && pc.killed && c.Expired?)
  }

  /** No effect of the command fails. */
  ghost predicate Smooth(w: World, c: nat, events: seq<Event>)
    decreases |events|
  {
    events != [] ==>
      && (events[0].Advance? && events[0].c == c && c in w.cmds ==> !Fails(w.cmds[c].pc, events[0].choice))
      && Smooth(Step(w, events[0]), c, events[1..])
  }

  /** What is to be destroyed: this deployment, purging it or not, when so many signals had been sent. */
  datatype Order = Order(id: string, purge: bool, signals: nat)

  function JobOf(o: Order): Job {
    DestroyJob(o.purge)
  }

  function GoalOf(o: Order): Goal {
    DestroyGoal(Some(o.id), o.purge)
  }

  /** The cache of the record may go. */
  predicate MayGo(h: Host, d: Deployment) {
    CacheOwnership(h.files, CachePath(h.root, d), d.id, d.key) != Refused
  }

  /** The runtime of the record can be stopped, if it has one. */
  predicate MayStop(h: Host, d: Deployment) {
    d.pid == 0 || DecideStop(h.procs, RuntimeOf(d), Readable) != Refuse
  }

  /** Nothing was signalled yet, and the deployment can be destroyed once recovery is done. */
  ghost predicate Destroyable(h: Host, o: Order) {
    && |h.signals| == o.signals
    && o.id in h.rows && Active(h.rows[o.id])
    && Stoppable(h.procs, h.rows[o.id]) && Releasable(h, o.id)
  }

  /** The record at work, before its runtime is stopped. */
  predicate Unstopped(h: Host, d: Deployment, o: Order) {
    |h.signals| == o.signals && d.id == o.id && Active(d) && MayStop(h, d) && MayGo(h, d)
  }

  /** How far a destroy command is to which nothing bad has happened. */
  ghost predicate Well(h: Host, pc: Pc, o: Order) {
    if pc.Idle? || Recovering(pc) then Destroyable(h, o) && Coherent(h, pc)
    else if pc.DestroyNext? then
      && pc.job == JobOf(o)
      && (|| (pc.todo == [] && Finished(h, o.id, o.purge))
          || (o.id in h.rows && pc.todo == [h.rows[o.id]] && Unstopped(h, h.rows[o.id], o)))
    else if pc.Ended? then Finished(h, o.id, o.purge)
    else Destroys(pc) && pc.todo == [] && pc.job == JobOf(o) && WellAt(h, pc, o)
  }

  predicate WellAt(h: Host, pc: Pc, o: Order)
    requires Destroys(pc) && !pc.DestroyNext?
  {
    if pc.MarkFailed? || pc.MarkDestroying? || pc.CheckRuntime? || pc.StopRuntime? then Unstopped(h, pc.d, o)
    else if pc.AwaitExit? || pc.CheckOwner? then pc.d.id == o.id && MayGo(h, pc.d)
    else pc.d.id == o.id && (pc.Purge? ==> o.purge)
  }

  /** The outcome of an effect: the command is well, or the store failed. */
  ghost predicate StillWell(r: (Host, Pc), o: Order) {
    Well(r.0, r.1, o) || r.1.StoreFault?
  }

  // ----- recovery -----

  lemma RecoveryTouchesRows(h: Host, pc: Pc, c: Choice)
    requires pc.ListRows? || pc.Recover? || pc.Adopt? || pc.Settle? || pc.MarkCrashed?
    ensures var h' := ActRecovery(h, pc, c).0; h' == h.(rows := h'.rows)
  {
    hide Reconcile, Only, Candidates, Enumerates, TransitionRow, SetRuntimeRow;
  }

  /** The row keeps its recovered form, so it can be destroyed as well as before. */
  lemma SameDestroyable(h: Host, h': Host, o: Order)
    requires Inv(h) && Destroyable(h, o) && h' == h.(rows := h'.rows) && h'.rows.Keys == h.rows.Keys
    requires RecoverAll(h.procs, h'.rows) == RecoverAll(h.procs, h.rows)
    ensures Destroyable(h', o)
  {
    hide Inv, RecoverAll, RecoverRow, DecideStop, CacheOwnership;
    SameRecovered(h, h', o.id);
    SamePlace(h.procs, h.rows, h'.rows, o.id);
  }

  lemma SamePlace(procs: Procs, rows: Rows, rows': Rows, id: string)
    requires id in rows && id in rows' && RecoverAll(procs, rows') == RecoverAll(procs, rows)
    ensures rows'[id].cacheDir == rows[id].cacheDir && rows'[id].key == rows[id].key && rows'[id].id == rows[id].id
  {
    assert RecoverAll(procs, rows')[id] == RecoverAll(procs, rows)[id];
    RecoveredKeepsFields(procs, rows[id]);
    RecoveredKeepsFields(procs, rows'[id]);
    hide RecoverRow, RecoverAll;
    var a, b := RecoverRow(procs, rows[id]), RecoverRow(procs, rows'[id]);
    assert (Erase(a).cacheDir, Erase(a).key, Erase(a).id) == (a.cacheDir, a.key, a.id);
    assert (Erase(b).cacheDir, Erase(b).key, Erase(b).id) == (b.cacheDir, b.key, b.id);
  }

  /** The identity of a runtime that can be stopped can be decided. */
  lemma StoppableIsKnown(h: Host, d: Deployment, todo: seq<Deployment>)
    requires AtDecision(h, d, todo) && Stoppable(h.procs, h.rows[d.id]) && d.pid != 0
    ensures Reconcile(h.procs, RuntimeOf(d), Readable) != Unknown
  {
    DecisionIsRecovery(h, d, todo);
    ReconciledRuntime(h.procs, d);
    hide RecoverRow, ReconcileRow, AtDecision;
    var a, b := RecoverRow(h.procs, h.rows[d.id]), ReconcileRow(h.procs, d);
    assert RuntimeOf(Erase(a)) == RuntimeOf(a) && RuntimeOf(Erase(b)) == RuntimeOf(b);
  }

  lemma ReconciledRuntime(procs: Procs, d: Deployment)
    ensures RuntimeOf(ReconcileRow(procs, d)) == RuntimeOf(d)
  {
    hide Reconcile;
  }

  lemma SettleEnds(h: Host, d: Deployment, todo: seq<Deployment>, c: Choice, o: Order)
    requires Inv(h) && PcInv(h, Settle(d, todo)) && Coherent(h, Settle(d, todo)) && Destroyable(h, o)
    requires !Fails(Settle(d, todo), c)
    ensures var pc' := ActRecovery(h, Settle(d, todo), c).1; Recovering(pc') || pc'.StoreFault?
  {
    hide Inv, PcInv, NoneLive, Stoppable, Releasable, Reconcile, TransitionRow;
    RecoveryPart(h, Settle(d, todo));
    OnlyActive(h, o.id);
    if d.pid != 0 {
      StoppableIsKnown(h, d, todo);
    }
    hide AtDecision, Queue, SettledBut;
  }

  lemma RecoveryGoesOn(h: Host, pc: Pc, c: Choice, o: Order)
    requires pc.ListRows? || pc.Recover? || pc.Adopt? || pc.MarkCrashed?
    requires !Fails(pc, c)
    ensures var pc' := ActRecovery(h, pc, c).1; Recovering(pc') || pc'.StoreFault?
  {
    hide Only, Candidates, Enumerates, TransitionRow, SetRuntimeRow;
  }

  lemma RecoveryIsWell(h: Host, pc: Pc, c: Choice, o: Order)
    requires pc.ListRows? || pc.Recover? || pc.Adopt? || pc.Settle? || pc.MarkCrashed?
    requires Inv(h) && PcInv(h, pc) && Well(h, pc, o) && !Fails(pc, c)
    ensures StillWell(ActRecovery(h, pc, c), o)
  {
    hide Inv, PcInv, ActRecovery, Destroyable, Coherent, RecoverAll, Fails;
    RowsNamed(h);
    RecoveryConverges(h, pc, c);
    RecoveryTouchesRows(h, pc, c);
    SameDestroyable(h, ActRecovery(h, pc, c).0, o);
    if pc.Settle? {
      SettleEnds(h, pc.d, pc.todo, c, o);
    } else {
      RecoveryGoesOn(h, pc, c, o);
    }
  }

  lemma RecoveredIsWell(h: Host, c: Choice, o: Order)
    requires Inv(h) && Well(h, Recovered, o)
    ensures StillWell(ActRecovered(h, GoalOf(o), c), o)
  {
    RowsNamed(h);
    SettledIsRecovered(h.procs, h.rows[o.id]);
    hide Inv, RecoverRow, DecideStop, CacheOwnership;
  }

  // ----- destruction -----

  lemma NextIsWell(h: Host, todo: seq<Deployment>, job: Job, c: Choice, o: Order)
    requires Inv(h) && PcInv(h, DestroyNext(todo, job)) && Well(h, DestroyNext(todo, job), o)
    ensures StillWell(ActDestroy(h, DestroyNext(todo, job), c), o)
  {
    hide Inv, PcInv, MayStop, MayGo, Finished;
    if todo != [] {
      assert h.rows[o.id].pid >= 0 by { RowHasPid(h, o.id); }
      DestroyPart(h, DestroyNext(todo, job));
      TakeTarget(h, todo, job);
      hide AtDestroyNext, Current;
    }
  }

  lemma RowHasPid(h: Host, id: string)
    requires Inv(h) && id in h.rows
    ensures h.rows[id].pid >= 0
  {
    assert RowOk(h, h.rows[id]);
  }

  /** A record with another phase is stopped and released as before. */
  lemma PhaseDoesNotMatter(h: Host, h': Host, d: Deployment, to: Phase, o: Order)
    requires Unstopped(h, d, o) && to != Destroyed && h' == h.(rows := h'.rows)
    ensures Unstopped(h', d.(phase := to), o)
  {
    assert RuntimeOf(d.(phase := to)) == RuntimeOf(d);
    assert CachePath(h.root, d.(phase := to)) == CachePath(h.root, d);
    hide DecideStop, CacheOwnership;
  }

  lemma MarkFailedIsWell(h: Host, d: Deployment, c: Choice, o: Order)
    requires Well(h, MarkFailed(d, [], JobOf(o)), o)
    ensures StillWell(ActDestroy(h, MarkFailed(d, [], JobOf(o)), c), o)
  {
    hide Unstopped, Move;
    var next := MarkDestroying(d.(phase := Failed), [], JobOf(o));
    MoveFrame(h, d.id, d.phase, Failed, "destroy requested", next);
    PhaseDoesNotMatter(h, Move(h, d.id, d.phase, Failed, "destroy requested", next).0, d, Failed, o);
  }

  lemma MarkDestroyingIsWell(h: Host, d: Deployment, c: Choice, o: Order)
    requires Well(h, MarkDestroying(d, [], JobOf(o)), o) && d.pid >= 0
    ensures StillWell(ActDestroy(h, MarkDestroying(d, [], JobOf(o)), c), o)
  {
    hide Unstopped, Move;
    var next := AfterMarked(d.(phase := Destroying), [], JobOf(o));
    var h' := Move(h, d.id, d.phase, Destroying, "", next).0;
    MoveFrame(h, d.id, d.phase, Destroying, "", next);
    PhaseDoesNotMatter(h, h', d, Destroying, o);
    UnstoppedMayGo(h', d.(phase := Destroying), o);
  }

  lemma MarkIsWell(h: Host, pc: Pc, c: Choice, o: Order)
    requires pc.MarkFailed? || pc.MarkDestroying?
    requires Inv(h) && PcInv(h, pc) && Well(h, pc, o)
    ensures StillWell(ActDestroy(h, pc, c), o)
  {
    hide Inv, PcInv, ActDestroy, WellAt, StillWell;
    CurrentHasPid(h, pc);
    match pc
    case MarkFailed(d, _, _) => MarkFailedIsWell(h, d, c, o);
    case MarkDestroying(d, _, _) => MarkDestroyingIsWell(h, d, c, o);
  }

  lemma UnstoppedMayGo(h: Host, d: Deployment, o: Order)
    requires Unstopped(h, d, o)
    ensures d.id == o.id && MayGo(h, d)
  {
    hide MayStop, MayGo;
  }

  lemma CurrentHasPid(h: Host, pc: Pc)
    requires pc.MarkFailed? || pc.MarkDestroying?
    requires Inv(h) && PcInv(h, pc)
    ensures pc.d.pid >= 0
  {
    hide Inv, PcInv, Queue, JobOk;
    DestroyPart(h, pc);
    RowHasPid(h, pc.d.id);
  }

  lemma MarkedIsWell(h: Host, pc: Pc, c: Choice, o: Order)
    requires pc.MarkDestroyed? || pc.Purge?
    requires Well(h, pc, o)
    ensures StillWell(ActDestroy(h, pc, c), o)
  {
    hide Unstopped, MayGo, Destroyable, Coherent;
    match pc
    case MarkDestroyed(d, todo, job) =>
      MoveFrame(h, d.id, Destroying, Destroyed, "", AfterDestroyed(d.(phase := Destroyed), todo, job));
      hide Move;
    case Purge(_, _, _) =>
  }

  /** A runtime that can be stopped is running as recorded, or gone. */
  lemma StoppableStatus(procs: Procs, who: Ident)
    requires DecideStop(procs, who, Readable) != Refuse
    ensures Reconcile(procs, who, Readable) in {Running, Stale}
  {
  }

  lemma CheckIsWell(h: Host, d: Deployment, c: Choice, o: Order)
    requires Well(h, CheckRuntime(d, [], JobOf(o)), o) && d.pid > 0
    requires c.Identity? ==> c.reading == Readable
    ensures StillWell(ActStop(h, CheckRuntime(d, [], JobOf(o)), c), o)
  {
    hide DecideStop, Reconcile, CacheOwnership, Destroyable, Coherent;
    StoppableStatus(h.procs, RuntimeOf(d));
  }

  lemma SignalIsWell(h: Host, d: Deployment, c: Choice, o: Order)
    requires Well(h, StopRuntime(d, [], JobOf(o)), o) && d.pid > 0
    requires c != IoError && (c.Identity? ==> c.reading == Readable)
    ensures StillWell(ActStop(h, StopRuntime(d, [], JobOf(o)), c), o)
  {
    hide DecideStop, CacheOwnership, Destroyable, Coherent;
  }

  lemma AwaitIsWell(h: Host, d: Deployment, killed: bool, c: Choice, o: Order)
    requires Well(h, AwaitExit(d, killed, [], JobOf(o)), o) && c != IoError && !(killed && c.Expired?)
    ensures StillWell(ActStop(h, AwaitExit(d, killed, [], JobOf(o)), c), o)
  {
    hide CacheOwnership, GroupAlive, Destroyable, Coherent;
  }

  lemma StopIsWell(h: Host, pc: Pc, c: Choice, o: Order)
    requires pc.CheckRuntime? || pc.StopRuntime? || pc.AwaitExit?
    requires PcInv(h, pc) && Well(h, pc, o) && !Fails(pc, c)
    ensures StillWell(ActStop(h, pc, c), o)
  {
    hide PcInv, Current, OnlyLaunch, WellAt, ActStop, StillWell;
    DestroyPart(h, pc);
    match pc
    case CheckRuntime(d, _, _) => CheckIsWell(h, d, c, o);
    case StopRuntime(d, _, _) => SignalIsWell(h, d, c, o);
    case AwaitExit(d, killed, _, _) => AwaitIsWell(h, d, killed, c, o);
  }

  lemma OwnerIsWell(h: Host, d: Deployment, c: Choice, o: Order)
    requires Well(h, CheckOwner(d, [], JobOf(o)), o) && c != IoError && ValidId(d.id)
    ensures StillWell(ActRemove(h, CheckOwner(d, [], JobOf(o)), c), o)
  {
    hide CacheOwnership, CachePath, ValidId;
  }

  /** Past the check of the owner only the order matters. */
  lemma RemovalIsOfOrder(h: Host, pc: Pc, o: Order)
    requires pc.RemoveLog? || pc.RemoveDir? || pc.RemoveCache? || pc.RemoveCacheRest? || pc.MarkDestroyed?
    ensures Well(h, pc, o) <==> pc.todo == [] && pc.job == JobOf(o) && pc.d.id == o.id
  {
    hide Unstopped, MayGo, Destroyable, Coherent;
  }

  lemma RemovingIsWell(h: Host, pc: Pc, c: Choice, o: Order)
    requires pc.RemoveLog? || pc.RemoveDir? || pc.RemoveCache? || pc.RemoveCacheRest?
    requires Well(h, pc, o) && c != IoError
    ensures Well(ActRemove(h, pc, c).0, ActRemove(h, pc, c).1, o)
  {
    hide Well, CacheOwnership, CachePath, DropLog, DropDir, DropCache, SetMarker, ValidId;
    var (h', pc') := ActRemove(h, pc, c);
    RemovalIsOfOrder(h, pc, o);
    RemovalIsOfOrder(h', pc', o);
  }

  lemma RemovalIsWell(h: Host, pc: Pc, c: Choice, o: Order)
    requires pc.CheckOwner? || pc.RemoveLog? || pc.RemoveDir? || pc.RemoveCache? || pc.RemoveCacheRest?
    requires Inv(h) && PcInv(h, pc) && Well(h, pc, o) && !Fails(pc, c)
    ensures StillWell(ActRemove(h, pc, c), o)
  {
    hide Inv, PcInv, ValidId, Current, WellAt, ActRemove;
    if pc.CheckOwner? {
      RemovalIsCurrent(h, pc);
      CurrentIsNamed(h, pc.d, pc.todo, pc.job);
      OwnerIsWell(h, pc.d, c, o);
      hide StillWell;
    } else {
      RemovingIsWell(h, pc, c, o);
    }
  }

  lemma CurrentIsNamed(h: Host, d: Deployment, todo: seq<Deployment>, job: Job)
    requires Inv(h) && Current(h, d, todo, job)
    ensures ValidId(d.id)
  {
    assert RowOk(h, h.rows[d.id]) && h.rows[d.id].id == d.id;
  }

  lemma StartIsWell(h: Host, pc: Pc, c: Choice, o: Order)
    requires Inv(h) && PcInv(h, pc) && Recovering(pc) && Well(h, pc, o) && !Fails(pc, c)
    ensures StillWell(Act(h, GoalOf(o), pc, c), o)
  {
    hide Inv, PcInv, Well, StillWell, Fails, ActRecovery, ActRecovered, ActDestroy, ActStop, ActRemove, ActCreate,
         ActPrepare, ActLaunch, ActServe, ActFail;
    if pc.Recovered? {
      RecoveredIsWell(h, c, o);
    } else {
      RecoveryIsWell(h, pc, c, o);
    }
  }

  lemma DestructionIsWell(h: Host, pc: Pc, c: Choice, o: Order)
    requires Inv(h) && PcInv(h, pc) && Destroys(pc) && Well(h, pc, o) && !Fails(pc, c)
    ensures StillWell(Act(h, GoalOf(o), pc, c), o)
  {
    hide Inv, PcInv, Well, StillWell, Fails, ActRecovery, ActRecovered, ActDestroy, ActStop, ActRemove, ActCreate,
         ActPrepare, ActLaunch, ActServe, ActFail;
    if pc.DestroyNext? {
      NextIsWell(h, pc.todo, pc.job, c, o);
    } else if pc.MarkFailed? || pc.MarkDestroying? {
      MarkIsWell(h, pc, c, o);
    } else if pc.MarkDestroyed? || pc.Purge? {
      MarkedIsWell(h, pc, c, o);
    } else if pc.CheckRuntime? || pc.StopRuntime? || pc.AwaitExit? {
      StopIsWell(h, pc, c, o);
    } else {
      RemovalIsWell(h, pc, c, o);
    }
  }

  /** No effect of a destroy command that is well and does not fail makes it otherwise. */
  lemma ActIsWell(h: Host, pc: Pc, c: Choice, o: Order)
    requires Inv(h) && PcInv(h, pc) && Holding(pc) && Well(h, pc, o) && !Fails(pc, c)
    ensures StillWell(Act(h, GoalOf(o), pc, c), o)
  {
    hide Inv, PcInv, Well, Fails, Act, Recovering, Destroys;
    WellPoints(h, pc, o);
    if Recovering(pc) {
      StartIsWell(h, pc, c, o);
    } else if Destroys(pc) {
      DestructionIsWell(h, pc, c, o);
    } else {
      EndStays(h, GoalOf(o), c);
    }
  }

  lemma EndStays(h: Host, goal: Goal, c: Choice)
    ensures Act(h, goal, Ended, c) == (h, Ended)
  {
  }

  lemma WellPoints(h: Host, pc: Pc, o: Order)
    requires Well(h, pc, o)
    ensures pc.Idle? || Recovering(pc) || Destroys(pc) || pc.Ended?
  {
  }

  // ----- runs -----

  /** The command has not started, or is well. */
  ghost predicate AllWell(w: World, c: nat, o: Order) {
    if c in w.cmds then w.cmds[c].goal == GoalOf(o) && Well(w.host, w.cmds[c].pc, o) else Destroyable(w.host, o)
  }

  lemma AdvanceIsWell(w: World, c: nat, choice: Choice, o: Order)
    requires WorldInv(w) && AllWell(w, c, o) && c in w.cmds && Holding(w.cmds[c].pc) && !Fails(w.cmds[c].pc, choice)
    ensures AllWell(Step(w, Advance(c, choice)), c, o)
  {
    hide Inv, NoImposter, PcInv, Act, Well, Step;
    assert CmdInv(w, c);
    ActIsWell(w.host, w.cmds[c].pc, choice, o);
    AdvanceActs(w, c, choice);
    StepKeeps(w, Advance(c, choice));
    var next := Step(w, Advance(c, choice));
    assert CmdInv(next, c);
    EndsHold(next.host, next.cmds[c].pc);
    GoalStays(w, c, choice);
  }

  lemma GoalStays(w: World, c: nat, choice: Choice)
    requires c in w.cmds && Holding(w.cmds[c].pc)
    ensures c in Step(w, Advance(c, choice)).cmds && Step(w, Advance(c, choice)).cmds[c].goal == w.cmds[c].goal
  {
    hide NoImposter, Act;
  }

  /** Exits touch nothing that matters: before a signal nobody exits, and after it only files and rows matter. */
  lemma ExitIsWell(h: Host, h': Host, pc: Pc, o: Order)
    requires Well(h, pc, o) && h' == h.(procs := h'.procs) && (|h.signals| == o.signals ==> h'.procs == h.procs)
    ensures Well(h', pc, o)
  {
    if |h.signals| == o.signals {
      assert h' == h;
    } else {
      hide CacheOwnership, DecideStop, Stoppable, Releasable, Coherent;
    }
  }

  lemma ExitsAreWell(w: World, c: nat, gone: set<int>, o: Order)
    requires AllWell(w, c, o) && MayHappen(w, o.signals, Environment(Exits(gone)))
    ensures AllWell(Step(w, Environment(Exits(gone))), c, o)
  {
    hide NoImposter, CanExit, Well, Destroyable, Signalled;
    var h' := Step(w, Environment(Exits(gone))).host;
    if |w.host.signals| == o.signals {
      NobodyExits(w.host, o.signals, gone);
    }
    if c in w.cmds {
      ExitIsWell(w.host, h', w.cmds[c].pc, o);
    } else {
      DestroyableIsQuiet(w.host, o);
    }
  }

  lemma DestroyableIsQuiet(h: Host, o: Order)
    requires Destroyable(h, o)
    ensures |h.signals| == o.signals
  {
    hide Stoppable, Releasable;
  }

  lemma EventIsWell(w: World, c: nat, e: Event, o: Order)
    requires WorldInv(w) && AllWell(w, c, o) && OfOne(c, GoalOf(o), e) && MayHappen(w, o.signals, e)
    requires e.Advance? && c in w.cmds ==> !Fails(w.cmds[c].pc, e.choice)
    ensures AllWell(Step(w, e), c, o)
  {
    if e.Environment? {
      hide AllWell, Step;
      ExitsAreWell(w, c, e.e.gone, o);
    } else if e.Advance? && c in w.cmds && Holding(w.cmds[c].pc) {
      hide AllWell, Step;
      AdvanceIsWell(w, c, e.choice, o);
    } else {
      hide Inv, NoImposter, PcInv, Act, Env, Destroyable, Coherent;
      OutsideIsCoherent(w.host, Idle);
      OutsideIsCoherent(w.host, ListRows);
    }
  }

  lemma {:induction false} RunIsWell(w: World, c: nat, events: seq<Event>, o: Order)
    requires WorldInv(w) && AllWell(w, c, o)
    requires AllOfOne(c, GoalOf(o), events) && Undisturbed(w, o.signals, events) && Smooth(w, c, events)
    ensures AllWell(RunAll(w, events), c, o)
    decreases |events|
  {
    hide WorldInv, AllWell, Step, OfOne, MayHappen, Fails;
    if events != [] {
      StepKeeps(w, events[0]);
      OfOneAdvances(c, GoalOf(o), events[0]);
      EventIsWell(w, c, events[0], o);
      RunIsWell(Step(w, events[0]), c, events[1..], o);
    }
  }

  lemma OfOneAdvances(c: nat, goal: Goal, e: Event)
    requires OfOne(c, goal, e)
    ensures e.Advance? ==> e.c == c
  {
  }

  /** A run of one new destroy command in which no process is disturbed but by its signals, and no effect fails. */
  ghost predicate GoodRun(w: World, id: string, purge: bool, c: nat, events: seq<Event>) {
    && c !in w.cmds && AllOfOne(c, DestroyGoal(Some(id), purge), events)
    && Undisturbed(w, |w.host.signals|, events) && Smooth(w, c, events)
  }

  lemma GoodRunIsWell(w: World, id: string, purge: bool, c: nat, events: seq<Event>)
    requires Reachable(w) && w.lock == None && id in w.host.rows && Active(w.host.rows[id])
    requires Stoppable(w.host.procs, w.host.rows[id]) && Releasable(w.host, id)
    requires GoodRun(w, id, purge, c, events)
    ensures AllWell(RunAll(w, events), c, Order(id, purge, |w.host.signals|)) && WorldInv(RunAll(w, events))
  {
    hide Reachable, WorldInv, RunAll, Undisturbed, Smooth, Stoppable, Releasable, AllOfOne, Well;
    ReachableIsSound(w);
    RunKeeps(w, events);
    RunIsWell(w, c, events, Order(id, purge, |w.host.signals|));
  }

  /**
   * Every destroy finishes. From every reachable world whose lock is free, for every active deployment that can be
   * stopped and released: in whatever good run of one new destroy command, if the command ends then the deployment is
   * DESTROYED, or purged.
   */
  lemma EveryDestroyFinishes(w: World, id: string, purge: bool, c: nat, events: seq<Event>)
    requires Reachable(w) && w.lock == None && id in w.host.rows && Active(w.host.rows[id])
    requires Stoppable(w.host.procs, w.host.rows[id]) && Releasable(w.host, id)
    requires GoodRun(w, id, purge, c, events)
    ensures var v := RunAll(w, events);
            c in v.cmds && IsEnd(v.cmds[c].pc) ==> Finished(v.host, id, purge)
  {
    hide Reachable, WorldInv, RunAll, GoodRun, Stoppable, Releasable, Well, Finished;
    GoodRunIsWell(w, id, purge, c, events);
    var v := RunAll(w, events);
    if c in v.cmds && IsEnd(v.cmds[c].pc) {
      WellEnds(v.host, v.cmds[c].pc, Order(id, purge, |w.host.signals|));
    }
  }

  lemma WellEnds(h: Host, pc: Pc, o: Order)
    requires Well(h, pc, o) && IsEnd(pc)
    ensures Finished(h, o.id, o.purge)
  {
  }

  // ----- and such runs go on -----

  /** A group that was sent SIGKILL is still there. */
  predicate AwaitsDeath(h: Host, pc: Pc) {
    pc.AwaitExit? && pc.killed && GroupAlive(h.procs, pc.d.pid)
  }

  lemma StoppingGoesOn(h: Host, pc: Pc) returns (c: Choice)
    requires (pc.CheckRuntime? || pc.StopRuntime? || pc.AwaitExit?) && !AwaitsDeath(h, pc)
    ensures !Fails(pc, c) && ActStop(h, pc, c).1 != pc
  {
    hide Reconcile, DecideStop, Send, GroupAlive;
    c := if !pc.AwaitExit? then Identity(Readable) else if pc.killed then Proceed else Expired(Readable);
  }

  lemma RecoveringGoesOn(h: Host, goal: Goal, pc: Pc) returns (c: Choice)
    requires pc.ListRows? || pc.Recover? || pc.Adopt? || pc.Settle? || pc.MarkCrashed?
    requires forall id :: id in h.rows ==> h.rows[id].id == id
    ensures !Fails(pc, c) && ActRecovery(h, pc, c).1 != pc
  {
    hide Reconcile, Only, Candidates, Enumerates, TransitionRow, SetRuntimeRow;
    c := Identity(Readable);
    if pc.ListRows? {
      var all := Enumerate(h.rows);
      c := Listing(all);
    }
  }

  lemma DestroyingGoesOn(h: Host, pc: Pc) returns (c: Choice)
    requires Destroys(pc) && !AwaitsDeath(h, pc)
    ensures !Fails(pc, c) && Act(h, StatusGoal, pc, c).1 != pc
  {
    hide AwaitsDeath, ActRecovery, ActRecovered, ActDestroy, ActStop, ActRemove, ActCreate, ActPrepare, ActLaunch,
         ActServe, ActFail;
    c := Proceed;
    if pc.CheckRuntime? || pc.StopRuntime? || pc.AwaitExit? {
      c := StoppingGoesOn(h, pc);
    } else if pc.CheckOwner? || pc.RemoveLog? || pc.RemoveDir? || pc.RemoveCache? || pc.RemoveCacheRest? {
      RemoveCanGoOn(h, pc, c);
    } else {
      DestroyCanGoOn(h, pc, c);
    }
  }

  lemma StartGoesOn(h: Host, pc: Pc, o: Order) returns (c: Choice)
    requires Recovering(pc) && forall id :: id in h.rows ==> h.rows[id].id == id
    ensures !Fails(pc, c) && Act(h, GoalOf(o), pc, c).1 != pc
  {
    hide ActRecovery, ActRecovered, ActDestroy, ActStop, ActRemove, ActCreate, ActPrepare, ActLaunch, ActServe,
         ActFail;
    if pc.Recovered? {
      c := Proceed;
      ChoosesTarget(h, c, o);
    } else {
      c := RecoveringGoesOn(h, GoalOf(o), pc);
    }
  }

  lemma ChoosesTarget(h: Host, c: Choice, o: Order)
    ensures ActRecovered(h, GoalOf(o), c).1 != Recovered
  {
  }

  /** Past recovery the goal plays no part. */
  lemma GoalPlaysNoPart(h: Host, goal: Goal, pc: Pc, c: Choice)
    requires !pc.Recovered?
    ensures Act(h, goal, pc, c) == Act(h, StatusGoal, pc, c)
  {
    hide ActRecovery, ActRecovered, ActDestroy, ActStop, ActRemove, ActCreate, ActPrepare, ActLaunch, ActServe,
         ActFail;
  }

  /** A destroy command that is well can go on, unless it waits for the death of a group that was sent SIGKILL. */
  lemma DestroyGoesOn(h: Host, pc: Pc, o: Order) returns (c: Choice)
    requires Inv(h) && Well(h, pc, o) && Holding(pc) && !pc.Ended? && !AwaitsDeath(h, pc)
    ensures !Fails(pc, c) && Closer(pc, Act(h, GoalOf(o), pc, c).1)
  {
    hide Inv, Well, Closer, AwaitsDeath, Act, Fails, Recovering, Destroys;
    WellPoints(h, pc, o);
    if Recovering(pc) {
      RowsNamed(h);
      c := StartGoesOn(h, pc, o);
    } else {
      c := DestroyingGoesOn(h, pc);
      GoalPlaysNoPart(h, GoalOf(o), pc, c) by { DestroyIsPastRecovery(pc); }
    }
    CommandsEnd(h, GoalOf(o), pc, c);
  }

  lemma DestroyIsPastRecovery(pc: Pc)
    requires Destroys(pc)
    ensures !pc.Recovered?
  {
  }

  /**
   * And it does end, as far as it depends on the command: at every point of a good run before the end, some answer that
   * is no failure brings the command closer to its end, unless it waits for the death of a group that was sent SIGKILL.
   */
  lemma EveryDestroyGoesOn(w: World, id: string, purge: bool, c: nat, events: seq<Event>) returns (choice: Choice)
    requires Reachable(w) && w.lock == None && id in w.host.rows && Active(w.host.rows[id])
    requires Stoppable(w.host.procs, w.host.rows[id]) && Releasable(w.host, id)
    requires GoodRun(w, id, purge, c, events)
    requires var v := RunAll(w, events);
             c in v.cmds && Holding(v.cmds[c].pc) && !IsEnd(v.cmds[c].pc) && !AwaitsDeath(v.host, v.cmds[c].pc)
    ensures var v := RunAll(w, events);
            && !Fails(v.cmds[c].pc, choice)
            && Closer(v.cmds[c].pc, Act(v.host, v.cmds[c].goal, v.cmds[c].pc, choice).1)
  {
    hide Reachable, Inv, NoImposter, PcInv, RunAll, GoodRun, Stoppable, Releasable, Well, Act, Closer, Fails,
         AwaitsDeath;
    GoodRunIsWell(w, id, purge, c, events);
    var v := RunAll(w, events);
    choice := DestroyGoesOn(v.host, v.cmds[c].pc, Order(id, purge, |w.host.signals|));
  }
}
