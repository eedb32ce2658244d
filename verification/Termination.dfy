/** Every command ends: no effect leads back, and there is always an answer that leads on. */
module Termination {
  import opened Phases
  import opened Store
  import opened Supervisor
  import opened Recovery
  import opened Files
  import opened Host
  import opened Protocol
  import opened ProtocolWorld
  import opened Lifecycle
  import opened Scripts

  /** Which part of its work a command is at, counted down. */
  function Stage(pc: Pc): nat {
    if pc.Idle? then 6
    else if pc.ListRows? then 5
    else if pc.Recover? || pc.Adopt? || pc.Settle? || pc.MarkCrashed? then 4
    else if pc.Recovered? then 3
    else if Destroys(pc) then 2
    else if pc.ClearTombstone? || pc.CreateRecord? || Launching(pc) then 1
    else 0
  }

  /** A command inside the destroy loop. */
  predicate Destroys(pc: Pc) {
    || pc.DestroyNext? || pc.MarkFailed? || pc.MarkDestroying? || pc.CheckRuntime? || pc.StopRuntime? || pc.AwaitExit?
    || pc.CheckOwner? || pc.RemoveLog? || pc.RemoveDir? || pc.RemoveCache? || pc.RemoveCacheRest? || pc.MarkDestroyed?
    || pc.Purge?
  }

  /** How many listed records are left after the current one. */
  function RecordsLeft(pc: Pc): nat {
    if Stage(pc) == 4 || Stage(pc) == 2 then |pc.todo| else 0
  }

  /** How many effects the current record, or the launch, needs at most. */
  function StepsLeft(pc: Pc): nat {
    match pc
    case Adopt(_, _, _) => 3
    case Settle(_, _) => 2
    case MarkCrashed(_, _, _) => 1
    case MarkFailed(_, _, _) => 13
    case MarkDestroying(_, _, _) => 12
    case CheckRuntime(_, _, _) => 11
    case StopRuntime(_, _, _) => 10
    case AwaitExit(_, killed, _, _) => if killed then 8 else 9
    case CheckOwner(_, _, _) => 7
    case RemoveLog(_, _, _, _) => 6
    case RemoveDir(_, _, _, _) => 5
    case RemoveCache(_, _, _) => 4
    case RemoveCacheRest(_, _, _) => 3
    case MarkDestroyed(_, _, _) => 2
    case Purge(_, _, _) => 1
    case ClearTombstone(_) => 21
    case CreateRecord(_) => 20
    case _ => Remaining(pc)
  }

  /** The lexicographic order of the three measures: it has no infinite descent. */
  predicate Closer(pc: Pc, pc': Pc) {
    || Stage(pc') < Stage(pc)
    || (Stage(pc') == Stage(pc) && RecordsLeft(pc') < RecordsLeft(pc))
    || (Stage(pc') == Stage(pc) && RecordsLeft(pc') == RecordsLeft(pc) && StepsLeft(pc') < StepsLeft(pc))
  }

  /** The effect changes nothing for the command, or leads on. */
  predicate LeadsOn(pc: Pc, pc': Pc) {
    pc' == pc || Closer(pc, pc')
  }

  lemma MoveLeadsOn(h: Host, pc: Pc, id: string, from: Phase, to: Phase, reason: string, next: Pc)
    requires Stage(pc) > 0 && Closer(pc, next)
    ensures LeadsOn(pc, Move(h, id, from, to, reason, next).1)
  {
    hide Closer;
    MoveGoesOn(h, id, from, to, reason, next);
    assert forall e :: Closer(pc, StoreFault(e)) by { FaultIsCloser(pc); }
  }

  lemma FaultIsCloser(pc: Pc)
    requires Stage(pc) > 0
    ensures forall e :: Closer(pc, StoreFault(e))
  {
  }

  lemma ListingEnds()
    ensures LeadsOn(Recover([]), Recovered)
  {
  }

  lemma TakingSteps(todo: seq<Deployment>, m: Ident)
    requires todo != []
    ensures LeadsOn(Recover(todo), Recover(todo[1..])) && LeadsOn(Recover(todo), Ended)
    ensures LeadsOn(Recover(todo), Settle(todo[0], todo[1..])) && LeadsOn(Recover(todo), Adopt(todo[0], m, todo[1..]))
  {
  }

  /** Taking a record off the listing. */
  lemma TakingLeadsOn(h: Host, todo: seq<Deployment>, c: Choice)
    ensures LeadsOn(Recover(todo), ActRecovery(h, Recover(todo), c).1)
  {
    hide LeadsOn, Only, Candidates;
    if todo == [] {
      ListingEnds();
    } else {
      var pc' := ActRecovery(h, Recover(todo), c).1;
      TakingSteps(todo, if pc'.Adopt? then pc'.m else Ident(0, "", 0, ""));
    }
  }

  lemma DecidingLeadsOn(h: Host, pc: Pc, c: Choice)
    requires pc.ListRows? || pc.Adopt?
    ensures LeadsOn(pc, ActRecovery(h, pc, c).1)
  {
    hide Enumerates, SetRuntimeRow;
  }

  lemma SettlingLeadsOn(h: Host, pc: Pc, c: Choice)
    requires pc.Settle? || pc.MarkCrashed?
    ensures LeadsOn(pc, ActRecovery(h, pc, c).1)
  {
    hide Reconcile, TransitionRow;
  }

  lemma RecoveryLeadsOn(h: Host, pc: Pc, c: Choice)
    requires pc.ListRows? || pc.Recover? || pc.Adopt? || pc.Settle? || pc.MarkCrashed?
    ensures LeadsOn(pc, ActRecovery(h, pc, c).1)
  {
    hide LeadsOn, ActRecovery;
    match pc
    case ListRows => DecidingLeadsOn(h, pc, c);
    case Recover(todo) => TakingLeadsOn(h, todo, c);
    case Adopt(_, _, _) => DecidingLeadsOn(h, pc, c);
    case Settle(_, _) => SettlingLeadsOn(h, pc, c);
    case MarkCrashed(_, _, _) => SettlingLeadsOn(h, pc, c);
  }

  lemma RecoveredLeadsOn(h: Host, goal: Goal, c: Choice)
    ensures LeadsOn(Recovered, ActRecovered(h, goal, c).1)
  {
    hide Enumerates, ValidSpec;
  }

  lemma DispatchLeadsOn(d: Deployment, todo: seq<Deployment>, job: Job)
    ensures Destroys(Dispatch(d, todo, job)) && Dispatch(d, todo, job).todo == todo
  {
  }

  lemma DestroyNextLeadsOn(h: Host, pc: Pc, c: Choice)
    requires pc.DestroyNext?
    ensures LeadsOn(pc, ActDestroy(h, pc, c).1)
  {
    if pc.todo != [] {
      DispatchLeadsOn(pc.todo[0], pc.todo[1..], pc.job);
    }
    hide Dispatch;
  }

  lemma DestroyLeadsOn(h: Host, pc: Pc, c: Choice)
    requires pc.DestroyNext? || pc.MarkFailed? || pc.MarkDestroying? || pc.MarkDestroyed? || pc.Purge?
    ensures LeadsOn(pc, ActDestroy(h, pc, c).1)
  {
    if pc.DestroyNext? {
      hide LeadsOn, ActDestroy;
      DestroyNextLeadsOn(h, pc, c);
    } else if pc.Purge? {
      hide DeleteRow;
    } else if pc.MarkFailed? {
      var d := pc.d;
      MoveLeadsOn(h, pc, d.id, d.phase, Failed, "destroy requested",
          MarkDestroying(d.(phase := Failed), pc.todo, pc.job));
      hide LeadsOn, Move;
    } else if pc.MarkDestroying? {
      var d := pc.d;
      MoveLeadsOn(h, pc, d.id, d.phase, Destroying, "", AfterMarked(d.(phase := Destroying), pc.todo, pc.job));
      hide LeadsOn, Move, AfterMarked;
    } else {
      var d := pc.d;
      MoveLeadsOn(h, pc, d.id, Destroying, Destroyed, "", AfterDestroyed(d.(phase := Destroyed), pc.todo, pc.job));
      hide LeadsOn, Move, AfterDestroyed;
    }
  }

  /** The points that a shutdown passes. */
  lemma StopSteps(d: Deployment, todo: seq<Deployment>, job: Job)
    ensures LeadsOn(CheckRuntime(d, todo, job), StopRuntime(d, todo, job))
    ensures LeadsOn(CheckRuntime(d, todo, job), Abandon(todo, job))
        && LeadsOn(StopRuntime(d, todo, job), Abandon(todo, job))
    ensures LeadsOn(StopRuntime(d, todo, job), CheckOwner(d, todo, job))
    ensures LeadsOn(StopRuntime(d, todo, job), AwaitExit(d, false, todo, job))
    ensures LeadsOn(AwaitExit(d, false, todo, job), AwaitExit(d, true, todo, job))
    ensures forall killed ::
              && LeadsOn(AwaitExit(d, killed, todo, job), CheckOwner(d, todo, job))
              && LeadsOn(AwaitExit(d, killed, todo, job), Abandon(todo, job))
  {
  }

  lemma StopLeadsOn(h: Host, pc: Pc, c: Choice)
    requires pc.CheckRuntime? || pc.StopRuntime? || pc.AwaitExit?
    ensures LeadsOn(pc, ActStop(h, pc, c).1)
  {
    hide LeadsOn, Abandon, Reconcile, DecideStop, Send, GroupAlive;
    StaysPut(pc);
    match pc
    case CheckRuntime(d, todo, job) => StopSteps(d, todo, job);
    case StopRuntime(d, todo, job) => StopSteps(d, todo, job);
    case AwaitExit(d, killed, todo, job) => StopSteps(d, todo, job);
  }

  /** The points that a removal passes. */
  lemma RemovalSteps(d: Deployment, owned: bool, todo: seq<Deployment>, job: Job)
    ensures LeadsOn(CheckOwner(d, todo, job), RemoveLog(d, owned, todo, job))
    ensures LeadsOn(RemoveLog(d, owned, todo, job), RemoveDir(d, owned, todo, job))
    ensures LeadsOn(RemoveDir(d, owned, todo, job), RemoveCache(d, todo, job))
    ensures LeadsOn(RemoveCache(d, todo, job), RemoveCacheRest(d, todo, job))
  {
  }

  lemma RemovalEnds(d: Deployment, owned: bool, todo: seq<Deployment>, job: Job)
    ensures LeadsOn(RemoveDir(d, owned, todo, job), MarkDestroyed(d, todo, job))
    ensures LeadsOn(RemoveCache(d, todo, job), MarkDestroyed(d, todo, job))
    ensures LeadsOn(RemoveCacheRest(d, todo, job), MarkDestroyed(d, todo, job))
  {
  }

  lemma RemovalAbandons(pc: Pc)
    requires pc.CheckOwner? || pc.RemoveLog? || pc.RemoveDir? || pc.RemoveCache? || pc.RemoveCacheRest?
    ensures LeadsOn(pc, Abandon(pc.todo, pc.job))
  {
  }

  lemma RemoveLeadsOn(h: Host, pc: Pc, c: Choice)
    requires pc.CheckOwner? || pc.RemoveLog? || pc.RemoveDir? || pc.RemoveCache? || pc.RemoveCacheRest?
    ensures LeadsOn(pc, ActRemove(h, pc, c).1)
  {
    hide LeadsOn, Abandon, CacheOwnership, ValidId, SetMarker, DropCache, DropLog, DropDir, CachePath;
    RemovalAbandons(pc);
    RemovalSteps(pc.d, true, pc.todo, pc.job);
    RemovalSteps(pc.d, false, pc.todo, pc.job);
    RemovalEnds(pc.d, true, pc.todo, pc.job);
    RemovalEnds(pc.d, false, pc.todo, pc.job);
  }

  lemma CreateLeadsOn(h: Host, pc: Pc, c: Choice)
    requires pc.ClearTombstone? || pc.CreateRecord?
    ensures LeadsOn(pc, ActCreate(h, pc, c).1)
  {
    hide DeleteRow, CreateRow;
  }

  lemma LaunchIsOneStage(pc: Pc)
    requires Launching(pc)
    ensures Stage(pc) == 1 && RecordsLeft(pc) == 0 && StepsLeft(pc) == Remaining(pc)
  {
  }

  lemma LaunchEnds(pc: Pc)
    requires pc.Deployed? || pc.DeployFailed? || pc.StoreFault?
    ensures Stage(pc) == 0
  {
  }

  lemma LaunchNext(pc: Pc, pc': Pc)
    requires Launching(pc) && Onward(pc, pc')
    ensures Launching(pc') || pc'.Deployed? || pc'.DeployFailed? || pc'.StoreFault?
    ensures pc' == pc || Remaining(pc') < Remaining(pc)
  {
    hide Launching, Remaining;
  }

  lemma LaunchLeadsOn(pc: Pc, pc': Pc)
    requires Launching(pc) && Onward(pc, pc')
    ensures LeadsOn(pc, pc')
  {
    hide StepsLeft;
    LaunchIsOneStage(pc);
    LaunchNext(pc, pc');
    if Launching(pc') {
      LaunchIsOneStage(pc');
    } else if pc' != pc {
      LaunchEnds(pc');
    }
  }

  /**
   * Every command ends, unless it waits: each effect, of recovery, of the destroy loop or of a launch, leaves the
   * command where it is or brings it closer to its end in an order without infinite descent.
   */
  lemma CommandsEnd(h: Host, goal: Goal, pc: Pc, c: Choice)
    ensures LeadsOn(pc, Act(h, goal, pc, c).1)
  {
    hide LeadsOn, ActRecovery, ActRecovered, ActDestroy, ActStop, ActRemove, ActCreate, ActPrepare, ActLaunch,
         ActServe, ActFail, Onward;
    if pc.ListRows? || pc.Recover? || pc.Adopt? || pc.Settle? || pc.MarkCrashed? {
      RecoveryLeadsOn(h, pc, c);
    } else if pc.Recovered? {
      RecoveredLeadsOn(h, goal, c);
    } else if pc.DestroyNext? || pc.MarkFailed? || pc.MarkDestroying? || pc.MarkDestroyed? || pc.Purge? {
      DestroyLeadsOn(h, pc, c);
    } else if pc.CheckRuntime? || pc.StopRuntime? || pc.AwaitExit? {
      StopLeadsOn(h, pc, c);
    } else if pc.CheckOwner? || pc.RemoveLog? || pc.RemoveDir? || pc.RemoveCache? || pc.RemoveCacheRest? {
      RemoveLeadsOn(h, pc, c);
    } else if pc.ClearTombstone? || pc.CreateRecord? {
      CreateLeadsOn(h, pc, c);
    } else if Launching(pc) {
      StaysLaunching(h, goal, pc, c);
      LaunchLeadsOn(pc, Act(h, goal, pc, c).1);
    } else {
      StaysPut(pc);
    }
  }

  lemma StaysPut(pc: Pc)
    ensures LeadsOn(pc, pc)
  {
  }

  // ----- no command is blocked -----

  /** Recovery can always go on. */
  lemma RecoveryCanGoOn(h: Host, goal: Goal, pc: Pc) returns (c: Choice)
    requires pc.ListRows? || pc.Recover? || pc.Adopt? || pc.Settle? || pc.MarkCrashed?
    requires forall id :: id in h.rows ==> h.rows[id].id == id
    ensures ActRecovery(h, pc, c).1 != pc
  {
    c := Identity(Readable);
    if pc.ListRows? {
      var all := Enumerate(h.rows);
      c := Listing(all);
    }
    hide Reconcile, Only, Candidates, Enumerates, TransitionRow, SetRuntimeRow;
  }

  lemma RecoveredCanGoOn(h: Host, goal: Goal) returns (c: Choice)
    requires forall id :: id in h.rows ==> h.rows[id].id == id
    ensures ActRecovered(h, goal, c).1 != Recovered
  {
    c := IoError;
    if goal.DestroyGoal? && goal.target.None? {
      var all := Enumerate(h.rows);
      c := Listing(all);
    }
    hide Enumerates, ValidSpec;
  }

  lemma DestroyCanGoOn(h: Host, pc: Pc, c: Choice)
    requires pc.DestroyNext? || pc.MarkFailed? || pc.MarkDestroying? || pc.MarkDestroyed? || pc.Purge?
    ensures ActDestroy(h, pc, c).1 != pc
  {
    if pc.DestroyNext? && pc.todo != [] {
      DispatchLeadsOn(pc.todo[0], pc.todo[1..], pc.job);
    }
    hide TransitionRow, DeleteRow, Dispatch;
  }

  lemma StopCanGoOn(h: Host, pc: Pc) returns (c: Choice)
    requires pc.CheckRuntime? || pc.StopRuntime? || pc.AwaitExit?
    ensures ActStop(h, pc, c).1 != pc
  {
    c := if pc.AwaitExit? then Expired(Readable) else Identity(Readable);
    hide Reconcile, DecideStop, Send, GroupAlive;
  }

  lemma RemoveCanGoOn(h: Host, pc: Pc, c: Choice)
    requires pc.CheckOwner? || pc.RemoveLog? || pc.RemoveDir? || pc.RemoveCache? || pc.RemoveCacheRest?
    ensures ActRemove(h, pc, c).1 != pc
  {
    hide CacheOwnership, ValidId, SetMarker, DropCache, DropLog, DropDir;
  }

  lemma CreateCanGoOn(h: Host, pc: Pc) returns (c: Choice)
    requires pc.ClearTombstone? || pc.CreateRecord?
    ensures ActCreate(h, pc, c).1 != pc
  {
    var key := NewText(h.keys);
    c := FreshKey(key);
    hide DeleteRow, CreateRow;
  }

  lemma PrepareCanGoOn(h: Host, pc: Pc, c: Choice)
    requires pc.ToValidating? || pc.WriteKey? || pc.MakeCache? || pc.ClaimCache? || pc.ToDownloading?
             || pc.WriteIntent? || pc.ToStarting?
    ensures ActPrepare(h, pc, c).1 != pc
  {
    hide TransitionRow, SetIntentRow, SetMarker;
  }

  lemma LaunchCanGoOn(h: Host, pc: Pc) returns (c: Choice)
    requires pc.Exec? || pc.Capture? || pc.Record?
    ensures ActLaunch(h, pc, c).1 != pc
  {
    c := IoError;
    hide Spawns, Launched, LogCreated, Send, SetRuntimeRow;
  }

  lemma ServeCanGoOn(h: Host, pc: Pc) returns (c: Choice)
    requires pc.AwaitHealth? || pc.ToHealthy? || pc.AwaitReady? || pc.ToRegistering? || pc.ToUnregistered?
    ensures ActServe(h, pc, c).1 != pc
  {
    c := Expired(Readable);
    hide Reconcile, TransitionRow;
  }

  lemma FailCanGoOn(h: Host, pc: Pc) returns (c: Choice)
    requires pc.FailStop? || pc.FailAwait? || pc.FailMark?
    ensures ActFail(h, pc, c).1 != pc
  {
    c := if pc.FailAwait? then Expired(Readable) else IoError;
    hide DecideStop, Send, TransitionRow;
  }

  /**
   * No command is blocked: in every reachable world, wherever a command stands that has the lock and is not at an
   * end, some answer of its environment brings it closer to its end.
   */
  lemma CommandsCanGoOn(w: World, c: nat) returns (choice: Choice)
    requires Reachable(w) && c in w.cmds && Holding(w.cmds[c].pc) && !IsEnd(w.cmds[c].pc)
    ensures Closer(w.cmds[c].pc, Act(w.host, w.cmds[c].goal, w.cmds[c].pc, choice).1)
  {
    var h, goal, pc := w.host, w.cmds[c].goal, w.cmds[c].pc;
    ReachableIsSound(w);
    RowsNamed(h);
    hide WorldInv, Closer, ActRecovery, ActRecovered, ActDestroy, ActStop, ActRemove, ActCreate, ActPrepare,
         ActLaunch, ActServe, ActFail;
    choice := Proceed;
    if pc.ListRows? || pc.Recover? || pc.Adopt? || pc.Settle? || pc.MarkCrashed? {
      choice := RecoveryCanGoOn(h, goal, pc);
    } else if pc.Recovered? {
      choice := RecoveredCanGoOn(h, goal);
    } else if pc.DestroyNext? || pc.MarkFailed? || pc.MarkDestroying? || pc.MarkDestroyed? || pc.Purge? {
      DestroyCanGoOn(h, pc, choice);
    } else if pc.CheckRuntime? || pc.StopRuntime? || pc.AwaitExit? {
      choice := StopCanGoOn(h, pc);
    } else if pc.CheckOwner? || pc.RemoveLog? || pc.RemoveDir? || pc.RemoveCache? || pc.RemoveCacheRest? {
      RemoveCanGoOn(h, pc, choice);
    } else if pc.ClearTombstone? || pc.CreateRecord? {
      choice := CreateCanGoOn(h, pc);
    } else if pc.ToValidating? || pc.WriteKey? || pc.MakeCache? || pc.ClaimCache? || pc.ToDownloading?
              || pc.WriteIntent? || pc.ToStarting? {
      PrepareCanGoOn(h, pc, choice);
    } else if pc.Exec? || pc.Capture? || pc.Record? {
      choice := LaunchCanGoOn(h, pc);
    } else if pc.AwaitHealth? || pc.ToHealthy? || pc.AwaitReady? || pc.ToRegistering? || pc.ToUnregistered? {
      choice := ServeCanGoOn(h, pc);
    } else {
      choice := FailCanGoOn(h, pc);
    }
    CommandsEnd(h, goal, pc, choice);
  }
}
