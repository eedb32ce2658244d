/** The port of a deployment: settled when its record is created, and the same from then on. */
module Ports {
  import opened Basics
  import opened Phases
  import opened Store
  import opened Supervisor
  import opened Recovery
  import opened Files
  import opened Host
  import opened Protocol
  import opened ProtocolInvariant
  import opened ProtocolWorld
  import opened Effects

  /** The points at which a command is launching a deployment whose record it has created. */
  predicate HasRun(pc: Pc) {
    || pc.ToValidating? || pc.WriteKey? || pc.MakeCache? || pc.ClaimCache? || pc.ToDownloading? || pc.WriteIntent?
    || pc.ToStarting? || pc.Exec? || pc.Capture? || pc.Record? || pc.AwaitHealth? || pc.ToHealthy? || pc.AwaitReady?
    || pc.ToRegistering? || pc.ToUnregistered? || pc.FailStop? || pc.FailAwait? || pc.FailMark? || pc.Deployed?
    || pc.DeployFailed?
  }

  /** The record being launched has the port of its spec. */
  predicate PortOfSpec(rows: Rows, pc: Pc) {
    HasRun(pc) && pc.r.spec.id in rows ==> rows[pc.r.spec.id].port == pc.r.spec.port
  }

  predicate SamePorts(before: Rows, after: Rows) {
    forall id :: id in before && id in after ==> after[id].port == before[id].port
  }

  /** A run goes on with its own spec, or has just created its record, with the port of the spec. */
  ghost predicate Launching(pc: Pc, r: (Host, Pc)) {
    HasRun(r.1) ==>
      || (HasRun(pc) && r.1.r == pc.r)
      || (pc.CreateRecord? && r.1.r.spec == pc.spec && PortOfSpec(r.0.rows, r.1))
  }

  ghost predicate PortEffect(h: Host, pc: Pc, r: (Host, Pc)) {
    SamePorts(h.rows, r.0.rows) && Launching(pc, r)
  }

  lemma MovePorts(h: Host, id: string, from: Phase, to: Phase, reason: string, next: Pc)
    ensures SamePorts(h.rows, Move(h, id, from, to, reason, next).0.rows)
    ensures Move(h, id, from, to, reason, next).1 == next || !HasRun(Move(h, id, from, to, reason, next).1)
  {
    hide Legal;
  }

  lemma AdoptPorts(h: Host, d: Deployment, m: Ident, todo: seq<Deployment>)
    requires PcInv(h, Adopt(d, m, todo))
    ensures var r := Write(h, SetRuntimeRow(h.rows, d.id, m.pid, d.port, m.command, m.startedAt, m.token, h.now),
                           Settle(RowAdopted(d, m), todo));
            SamePorts(h.rows, r.0.rows) && !HasRun(r.1)
  {
    RecoveryPart(h, Adopt(d, m, todo));
    hide PcInv, Queue, SettledBut, DestroyInv;
    assert d.id in h.rows && h.rows[d.id].port == d.port;
  }

  lemma RecoverHasNone(todo: seq<Deployment>)
    ensures !HasRun(Recover(todo))
  {
  }

  lemma RecoveryPoints(h: Host, pc: Pc, c: Choice)
    requires pc.ListRows? || pc.Recover? || (pc.Settle? && pc.d.pid != 0)
    ensures ActRecovery(h, pc, c).0 == h && !HasRun(ActRecovery(h, pc, c).1)
  {
    hide Reconcile, Only, Candidates, Enumerates, Move;
  }

  lemma RecoveryPorts(h: Host, pc: Pc, c: Choice)
    requires pc.ListRows? || pc.Recover? || pc.Adopt? || pc.Settle? || pc.MarkCrashed?
    requires PcInv(h, pc)
    ensures PortEffect(h, pc, ActRecovery(h, pc, c))
  {
    hide SamePorts, HasRun, PcInv, Move, Write, Reconcile, Only, Candidates, Enumerates;
    RowsStay(h.rows);
    match pc
    case ListRows => RecoveryPoints(h, pc, c);
    case Recover(todo) => RecoveryPoints(h, pc, c);
    case Adopt(d, m, todo) => AdoptPorts(h, d, m, todo);
    case Settle(d, todo) =>
      if d.pid == 0 {
        RecoverHasNone(todo);
        MovePorts(h, d.id, d.phase, Crashed, NO_IDENTITY, Recover(todo));
      } else {
        RecoveryPoints(h, pc, c);
      }
    case MarkCrashed(d, reason, todo) =>
      RecoverHasNone(todo);
      MovePorts(h, d.id, d.phase, Crashed, reason, Recover(todo));
  }

  lemma DestroyPoints(d: Deployment, todo: seq<Deployment>, job: Job)
    ensures !HasRun(Dispatch(d, todo, job)) && !HasRun(AfterMarked(d, todo, job))
    ensures !HasRun(AfterDestroyed(d, todo, job))
    ensures !HasRun(MarkDestroying(d, todo, job)) && !HasRun(DestroyNext(todo, job))
  {
  }

  lemma PurgePorts(h: Host, d: Deployment, todo: seq<Deployment>, job: Job)
    ensures var r := Write(h, DeleteRow(h.rows, d.id), DestroyNext(todo, job));
            SamePorts(h.rows, r.0.rows) && !HasRun(r.1)
  {
  }

  lemma NextPorts(h: Host, todo: seq<Deployment>, job: Job, c: Choice)
    ensures var r := ActDestroy(h, DestroyNext(todo, job), c); r.0 == h && !HasRun(r.1)
  {
    hide Dispatch;
    if todo != [] {
      DestroyPoints(todo[0], todo[1..], job);
    }
  }

  lemma DestroyPorts(h: Host, pc: Pc, c: Choice)
    requires pc.DestroyNext? || pc.MarkFailed? || pc.MarkDestroying? || pc.MarkDestroyed? || pc.Purge?
    ensures PortEffect(h, pc, ActDestroy(h, pc, c))
  {
    hide SamePorts, HasRun, Move, DeleteRow, Dispatch, AfterMarked, AfterDestroyed;
    RowsStay(h.rows);
    match pc
    case DestroyNext(todo, job) =>
      NextPorts(h, todo, job, c);
    case MarkFailed(d, todo, job) =>
      DestroyPoints(d.(phase := Failed), todo, job);
      MovePorts(h, d.id, d.phase, Failed, "destroy requested", MarkDestroying(d.(phase := Failed), todo, job));
    case MarkDestroying(d, todo, job) =>
      DestroyPoints(d.(phase := Destroying), todo, job);
      MovePorts(h, d.id, d.phase, Destroying, "", AfterMarked(d.(phase := Destroying), todo, job));
    case MarkDestroyed(d, todo, job) =>
      DestroyPoints(d.(phase := Destroyed), todo, job);
      MovePorts(h, d.id, Destroying, Destroyed, "", AfterDestroyed(d.(phase := Destroyed), todo, job));
    case Purge(d, todo, job) => PurgePorts(h, d, todo, job);
  }

  lemma StopPorts(h: Host, pc: Pc, c: Choice)
    requires pc.CheckRuntime? || pc.StopRuntime? || pc.AwaitExit?
    ensures PortEffect(h, pc, ActStop(h, pc, c))
  {
    hide Reconcile, DecideStop, GroupAlive;
  }

  lemma RemovePoints(d: Deployment, todo: seq<Deployment>, job: Job)
    ensures !HasRun(RemoveLog(d, false, todo, job)) && !HasRun(RemoveLog(d, true, todo, job))
    ensures !HasRun(RemoveDir(d, false, todo, job)) && !HasRun(RemoveDir(d, true, todo, job))
    ensures !HasRun(RemoveCache(d, todo, job)) && !HasRun(RemoveCacheRest(d, todo, job))
    ensures !HasRun(MarkDestroyed(d, todo, job)) && !HasRun(Abandon(todo, job))
  {
  }

  lemma RemovePorts(h: Host, pc: Pc, c: Choice)
    requires pc.CheckOwner? || pc.RemoveLog? || pc.RemoveDir? || pc.RemoveCache? || pc.RemoveCacheRest?
    ensures PortEffect(h, pc, ActRemove(h, pc, c))
  {
    RowsStay(h.rows);
    RemovePoints(pc.d, pc.todo, pc.job);
    hide SamePorts, HasRun, Abandon, ValidId, CacheOwnership, SetMarker, DropCache, DropDir, DropLog, CachePath;
    if c != IoError {
      match pc
      case CheckOwner(d, todo, job) =>
      case RemoveLog(d, owned, todo, job) =>
      case RemoveDir(d, owned, todo, job) =>
      case RemoveCache(d, todo, job) =>
      case RemoveCacheRest(d, todo, job) =>
    }
  }

  lemma CreatePorts(h: Host, pc: Pc, c: Choice)
    requires pc.ClearTombstone? || pc.CreateRecord?
    ensures PortEffect(h, pc, ActCreate(h, pc, c))
  {
  }

  lemma CreateAdds(h: Host, pc: Pc, c: Choice)
    requires pc.ClearTombstone? || pc.CreateRecord?
    ensures forall id :: id in ActCreate(h, pc, c).0.rows && id !in h.rows ==>
              pc.CreateRecord? && pc.spec.id == id && ActCreate(h, pc, c).0.rows[id].port == pc.spec.port
  {
  }

  lemma PreparePorts(h: Host, pc: Pc, c: Choice)
    requires pc.ToValidating? || pc.WriteKey? || pc.MakeCache? || pc.ClaimCache? || pc.ToDownloading?
             || pc.WriteIntent? || pc.ToStarting?
    requires PortOfSpec(h.rows, pc)
    ensures PortEffect(h, pc, ActPrepare(h, pc, c))
  {
    hide TransitionRow;
    match pc
    case ToValidating(r) => MovePorts(h, r.spec.id, Requested, Validating, "", WriteKey(r));
    case WriteKey(r) =>
    case MakeCache(r) =>
    case ClaimCache(r) =>
    case ToDownloading(r) => MovePorts(h, r.spec.id, Validating, Downloading, "", WriteIntent(r));
    case WriteIntent(r) =>
    case ToStarting(r) => MovePorts(h, r.spec.id, Downloading, Starting, "", Exec(r));
  }

  lemma LaunchPorts(h: Host, pc: Pc, c: Choice)
    requires pc.Exec? || pc.Capture? || pc.Record?
    requires PortOfSpec(h.rows, pc)
    ensures PortEffect(h, pc, ActLaunch(h, pc, c))
  {
    hide Spawns;
  }

  /** A transition between two points of one launch. */
  lemma MovesOn(h: Host, pc: Pc, id: string, from: Phase, to: Phase, reason: string, next: Pc)
    requires HasRun(pc) && HasRun(next) && next.r == pc.r
    ensures PortEffect(h, pc, Move(h, id, from, to, reason, next))
  {
    hide SamePorts, Move;
    MovePorts(h, id, from, to, reason, next);
  }

  lemma PollPorts(h: Host, pc: Pc, c: Choice)
    requires pc.AwaitHealth? || pc.AwaitReady?
    ensures PortEffect(h, pc, ActServe(h, pc, c))
  {
    RowsStay(h.rows);
    hide SamePorts, Reconcile;
  }

  lemma ServePorts(h: Host, pc: Pc, c: Choice)
    requires pc.AwaitHealth? || pc.ToHealthy? || pc.AwaitReady? || pc.ToRegistering? || pc.ToUnregistered?
    ensures PortEffect(h, pc, ActServe(h, pc, c))
  {
    hide PortEffect, Move;
    match pc {
      case AwaitHealth(_, _) => PollPorts(h, pc, c);
      case AwaitReady(_, _) => PollPorts(h, pc, c);
      case ToHealthy(r, who) => MovesOn(h, ToHealthy(r, who), r.spec.id, Starting, Healthy, "", AwaitReady(r, who));
      case ToRegistering(r, who) =>
        MovesOn(h, ToRegistering(r, who), r.spec.id, Healthy, Registering, "", ToUnregistered(r, who));
      case ToUnregistered(r, who) =>
        MovesOn(h, ToUnregistered(r, who), r.spec.id, Registering, UnregisteredHealthy,
                "gateway registration not implemented yet (M4)", Deployed(r));
    }
  }

  lemma FailPorts(h: Host, pc: Pc, c: Choice)
    requires pc.FailStop? || pc.FailAwait? || pc.FailMark?
    ensures PortEffect(h, pc, ActFail(h, pc, c))
  {
    if pc.FailMark? {
      hide PortEffect, Move;
      MovesOn(h, pc, pc.r.spec.id, pc.from, Failed, "cause", DeployFailed(pc.r));
    } else {
      RowsStay(h.rows);
      hide SamePorts, DecideStop, GroupAlive;
    }
  }

  /** Where none of these effects is next. */
  lemma RecoveredPorts(h: Host, goal: Goal, pc: Pc, c: Choice)
    requires pc.Idle? || pc.Recovered? || IsEnd(pc)
    ensures PortEffect(h, pc, Act(h, goal, pc, c))
  {
    hide ActRecovered, ActRecovery, ActDestroy, ActStop, ActRemove, ActCreate, ActPrepare, ActLaunch, ActServe, ActFail;
    GoalPorts(h, goal, c);
  }

  lemma GoalPorts(h: Host, goal: Goal, c: Choice)
    ensures ActRecovered(h, goal, c).0.rows == h.rows && Launching(Recovered, ActRecovered(h, goal, c))
  {
    hide Enumerates, ValidSpec;
  }

  lemma ActPorts(h: Host, goal: Goal, pc: Pc, c: Choice)
    requires PcInv(h, pc) && PortOfSpec(h.rows, pc)
    ensures PortEffect(h, pc, Act(h, goal, pc, c))
  {
    hide PcInv, ActRecovery, ActDestroy, ActStop, ActRemove, ActCreate, ActPrepare, ActLaunch, ActServe, ActFail,
         PortOfSpec, PortEffect;
    if pc.ListRows? || pc.Recover? || pc.Adopt? || pc.Settle? || pc.MarkCrashed? {
      RecoveryPorts(h, pc, c);
    } else if pc.DestroyNext? || pc.MarkFailed? || pc.MarkDestroying? || pc.MarkDestroyed? || pc.Purge? {
      DestroyPorts(h, pc, c);
    } else if pc.ClearTombstone? || pc.CreateRecord? {
      CreatePorts(h, pc, c);
    } else if pc.ToValidating? || pc.WriteKey? || pc.MakeCache? || pc.ClaimCache? || pc.ToDownloading?
              || pc.WriteIntent? || pc.ToStarting? {
      PreparePorts(h, pc, c);
    } else if pc.Exec? || pc.Capture? || pc.Record? {
      LaunchPorts(h, pc, c);
    } else if pc.AwaitHealth? || pc.ToHealthy? || pc.AwaitReady? || pc.ToRegistering? || pc.ToUnregistered? {
      ServePorts(h, pc, c);
    } else if pc.FailStop? || pc.FailAwait? || pc.FailMark? {
      FailPorts(h, pc, c);
    } else if pc.CheckRuntime? || pc.StopRuntime? || pc.AwaitExit? {
      StopPorts(h, pc, c);
    } else if pc.CheckOwner? || pc.RemoveLog? || pc.RemoveDir? || pc.RemoveCache? || pc.RemoveCacheRest? {
      RemovePorts(h, pc, c);
    } else {
      RecoveredPorts(h, goal, pc, c);
    }
  }

  lemma RowsStay(rows: Rows)
    ensures SamePorts(rows, rows)
  {
  }

  /** Only creation adds a record, and with the port of its spec. */
  lemma ActAdds(h: Host, goal: Goal, pc: Pc, c: Choice, id: string)
    requires PcInv(h, pc) && id in Act(h, goal, pc, c).0.rows && id !in h.rows
    ensures pc.CreateRecord? && pc.spec.id == id && Act(h, goal, pc, c).0.rows[id].port == pc.spec.port
  {
    hide PcInv, ActRecovery, ActDestroy, ActStop, ActRemove, ActCreate, ActPrepare, ActLaunch, ActServe, ActFail,
         CacheEffect, RowFollows;
    ActEffect(h, goal, pc, c, h.root);
    CreateAdds(h, pc, c);
  }

  lemma ActKeepsSpec(h: Host, goal: Goal, pc: Pc, c: Choice)
    requires PcInv(h, pc) && PortOfSpec(h.rows, pc)
    ensures PortOfSpec(Act(h, goal, pc, c).0.rows, Act(h, goal, pc, c).1)
  {
    hide PcInv, Act;
    ActPorts(h, goal, pc, c);
    var (h', pc') := Act(h, goal, pc, c);
    if HasRun(pc') && HasRun(pc) && pc.r.spec.id in h'.rows && pc.r.spec.id !in h.rows {
      ActAdds(h, goal, pc, c, pc.r.spec.id);
    }
  }

  // ----- over runs -----

  ghost predicate PortsHold(w: World) {
    forall c :: c in w.cmds ==> PortOfSpec(w.host.rows, w.cmds[c].pc)
  }

  /** The lock holder creates the record of this deployment, for a spec with this port. */
  ghost predicate CreatesAt(w: World, e: Event, id: string, port: int) {
    && e.Advance? && e.c in w.cmds && w.lock == Some(e.c)
    && w.cmds[e.c].pc.CreateRecord? && w.cmds[e.c].pc.spec.id == id && w.cmds[e.c].pc.spec.port == port
  }

  lemma AdvancePorts(w: World, c: nat, choice: Choice)
    requires WorldInv(w) && PortsHold(w) && c in w.cmds && Holding(w.cmds[c].pc)
    ensures var next := Attempt(w, Advance(c, choice));
            && PortsHold(next) && SamePorts(w.host.rows, next.host.rows)
            && forall id :: id in next.host.rows && id !in w.host.rows ==>
                 CreatesAt(w, Advance(c, choice), id, next.host.rows[id].port)
  {
    hide Inv, NoImposter, Act, PcInv, SamePorts, PortOfSpec, HasRun;
    var pc := w.cmds[c].pc;
    assert CmdInv(w, c);
    OthersIdle(w, c);
    ActPorts(w.host, w.cmds[c].goal, pc, choice);
    ActKeepsSpec(w.host, w.cmds[c].goal, pc, choice);
    var next := Attempt(w, Advance(c, choice));
    forall id | id in next.host.rows && id !in w.host.rows
      ensures CreatesAt(w, Advance(c, choice), id, next.host.rows[id].port)
    {
      ActAdds(w.host, w.cmds[c].goal, pc, choice, id);
    }
    forall other | other in next.cmds ensures PortOfSpec(next.host.rows, next.cmds[other].pc) {
      if other != c {
        IdleHasNone(next.host.rows);
      }
    }
  }

  lemma IdleHasNone(rows: Rows)
    ensures PortOfSpec(rows, Idle) && PortOfSpec(rows, ListRows)
  {
  }

  lemma OtherPorts(w: World, e: Event)
    requires PortsHold(w) && !(e.Advance? && e.c in w.cmds && Holding(w.cmds[e.c].pc))
    ensures PortsHold(Attempt(w, e)) && Attempt(w, e).host.rows == w.host.rows
  {
    hide PortOfSpec;
    IdleHasNone(w.host.rows);
    match e
    case Environment(env) => EnvRows(w.host, AllPinned(w.cmds), env);
    case Invoke(c, goal) =>
    case Acquire(c) =>
    case GiveUpLock(c) =>
    case Finish(c) =>
    case Crash(c) =>
    case Advance(c, choice) =>
  }

  lemma EnvRows(h: Host, pinned: set<int>, e: EnvEvent)
    ensures Env(h, pinned, e).rows == h.rows
  {
    hide CanSpawn, CanExit;
  }

  lemma StepPorts(w: World, e: Event)
    requires WorldInv(w) && PortsHold(w)
    ensures var next := Step(w, e);
            && PortsHold(next) && SamePorts(w.host.rows, next.host.rows)
            && forall id :: id in next.host.rows && id !in w.host.rows ==> CreatesAt(w, e, id, next.host.rows[id].port)
  {
    hide WorldInv, NoImposter, Attempt, PortsHold, CreatesAt;
    if e.Advance? && e.c in w.cmds && Holding(w.cmds[e.c].pc) {
      AdvancePorts(w, e.c, e.choice);
    } else {
      OtherPorts(w, e);
    }
  }

  lemma {:induction false} RunPorts(worlds: seq<World>, events: seq<Event>, k: nat)
    requires IsRun(worlds, events) && k <= |events|
    ensures PortsHold(worlds[k])
  {
    hide Step, WorldInv;
    if k > 0 {
      hide PortsHold;
      RunPorts(worlds, events, k - 1);
      RunIsSound(worlds, events, k - 1);
      assert Moves(worlds, events, k - 1);
      StepPorts(worlds[k - 1], events[k - 1]);
    }
  }

  /**
   * In every run the port of a deployment is settled once: its record is created with the port of its spec, no later
   * event changes it, and a command that launches it finds its own spec's port there.
   */
  lemma PortIsSettled(w: World, e: Event, id: string, c: nat)
    requires Reachable(w) && id in Step(w, e).host.rows
    ensures var port := Step(w, e).host.rows[id].port;
            if id in w.host.rows then port == w.host.rows[id].port else CreatesAt(w, e, id, port)
    ensures c in w.cmds && HasRun(w.cmds[c].pc) && w.cmds[c].pc.r.spec.id in w.host.rows ==>
              w.host.rows[w.cmds[c].pc.r.spec.id].port == w.cmds[c].pc.r.spec.port
  {
    hide Step, WorldInv, HasRun, CreatesAt;
    var worlds, events :| IsRun(worlds, events) && w == worlds[|events|];
    hide IsRun;
    RunIsSound(worlds, events, |events|);
    RunPorts(worlds, events, |events|);
    StepPorts(w, e);
  }
}
