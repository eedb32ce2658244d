/** Ownership markers over whole runs: never overwritten, removed only by their owner, and what a lost marker means. */
module Markers {
  import opened Basics
  import opened Phases
  import opened Store
  import opened Supervisor
  import opened Recovery
  import opened Files
  import opened Host
  import opened Protocol
  import opened ProtocolInvariant
  import opened Effects
  import opened ProtocolWorld
  import opened Lifecycle

  /** The event is the lock holder removing the cache of a deployment with this key. */
  predicate RemovesOwn(w: World, e: Event, p: Path, key: string) {
    && e.Advance? && e.c in w.cmds && w.lock == Some(e.c)
    && w.cmds[e.c].pc.RemoveCache?
    && CachePath(w.host.root, w.cmds[e.c].pc.d) == p
    && w.cmds[e.c].pc.d.key == key
  }

  /**
   * Marker conservation: in every run, a written marker is never overwritten, and it or its directory disappears only
   * when the command destroying the deployment whose key it holds removes it.
   */
  lemma MarkersAreConserved(w: World, e: Event, p: Path)
    requires Reachable(w) && p in w.host.files.caches && w.host.files.caches[p].marker.Some?
    ensures SameMarker(w.host.files, Step(w, e).host.files, p)
            || RemovesOwn(w, e, p, w.host.files.caches[p].marker.value)
  {
    hide Step, PcInv;
    ReachableIsSound(w);
    StepHasEffect(w, e, p);
    hide WorldInv, TableFollows;
  }

  // ----- when the proof of ownership is lost -----

  /**
   * The cache of a deployment that is not DESTROYED is absent or carries its key, at a safe path: destroy may go on.
   */
  ghost predicate Releasable(h: Host, id: string) {
    && id in h.rows && Active(h.rows[id])
    && CacheOwnership(h.files, CachePath(h.root, h.rows[id]), id, h.rows[id].key) != Refused
  }

  /** One of the two effects that open a window: making the cache directory, or taking its marker away first. */
  predicate OpensWindow(pc: Pc, c: Choice, id: string) {
    (pc.MakeCache? && pc.r.spec.id == id) || (pc.RemoveCache? && pc.d.id == id && c == MarkerFirst)
  }

  lemma RowPathNamesIt(h: Host, id: string)
    requires Inv(h) && id in h.rows
    ensures SafeCachePath(CachePath(h.root, h.rows[id]), id, h.rows[id].key)
  {
    assert RowOk(h, h.rows[id]) && h.rows[id].id == id;
  }

  /** The cache path that a command works on names the deployment it works for. */
  lemma PcPathNamesIt(h: Host, pc: Pc)
    requires Inv(h) && PcInv(h, pc)
    ensures pc.MakeCache? || pc.ClaimCache? ==>
              LastElement(pc.r.spec.cache) == pc.r.spec.id && Mine(h, pc.r, Validating)
    ensures pc.RemoveCache? || pc.RemoveCacheRest? ==>
              LastElement(CachePath(h.root, pc.d)) == pc.d.id && Snap(h.rows, pc.d) && pc.d.phase == Destroying
  {
    hide Inv;
    if pc.RemoveCache? || pc.RemoveCacheRest? {
      hide NoneLive, Queue, JobOk;
      RowPathNamesIt(h, pc.d.id);
    }
  }

  /**
   * Ownership is lost in just two windows: in every run, the cache of a deployment that is not DESTROYED stays
   * releasable through every step, except that creating its directory comes before its marker, and its marker may go
   * before the rest.
   */
  lemma LostOnlyInWindows(w: World, e: Event, id: string)
    requires Reachable(w) && Releasable(w.host, id)
    ensures var next := Step(w, e);
            || Releasable(next.host, id)
            || (id in next.host.rows && !Active(next.host.rows[id]))
            || (e.Advance? && e.c in w.cmds && w.lock == Some(e.c) && OpensWindow(w.cmds[e.c].pc, e.choice, id))
  {
    hide Step;
    ReachableIsSound(w);
    KeepsReleasable(w, e, Step(w, e).host, id);
  }

  lemma KeepsReleasable(w: World, e: Event, after: Host, id: string)
    requires WorldInv(w) && Releasable(w.host, id) && after == Step(w, e).host
    ensures || Releasable(after, id)
            || (id in after.rows && !Active(after.rows[id]))
            || (e.Advance? && e.c in w.cmds && w.lock == Some(e.c) && OpensWindow(w.cmds[e.c].pc, e.choice, id))
  {
    hide Step, Inv, PcInv, ValidSpec, NoImposter;
    var p := CachePath(w.host.root, w.host.rows[id]);
    StepHasEffect(w, e, p);
    RowPathNamesIt(w.host, id);
    if e.Advance? && e.c in w.cmds && w.lock == Some(e.c) && PcInv(w.host, w.cmds[e.c].pc) {
      PcPathNamesIt(w.host, w.cmds[e.c].pc);
    }
  }

  // ----- and then for good -----

  /** A command between the two halves of a window on the cache of `id`. */
  predicate InWindow(pc: Pc, id: string) {
    || ((pc.ToValidating? || pc.WriteKey? || pc.MakeCache? || pc.ClaimCache?) && pc.r.spec.id == id)
    || (pc.RemoveCacheRest? && pc.d.id == id)
  }

  /** A deployment that is not DESTROYED, whose cache directory exists without its key. */
  ghost predicate Unproven(h: Host, id: string) {
    && id in h.rows && Active(h.rows[id])
    && var p := CachePath(h.root, h.rows[id]);
       p in h.files.caches && h.files.caches[p].marker != Some(h.rows[id].key)
  }

  /** And no command is left that is about to mark the directory, or to remove the rest of it. */
  ghost predicate Stuck(w: World, id: string) {
    Unproven(w.host, id) && forall c :: c in w.cmds ==> !InWindow(w.cmds[c].pc, id)
  }

  /** Outside the windows, to be stuck is just not to be releasable. */
  lemma StuckIsUnreleasable(w: World, id: string)
    requires WorldInv(w) && id in w.host.rows && Active(w.host.rows[id])
    requires forall c :: c in w.cmds ==> !InWindow(w.cmds[c].pc, id)
    ensures Stuck(w, id) <==> !Releasable(w.host, id)
  {
    RowPathNamesIt(w.host, id);
    hide WorldInv, ValidId;
  }

  lemma CrashOnlyDrops(w: World, c: nat)
    requires WorldInv(w) && c in w.cmds
    ensures Step(w, Crash(c)) == Without(w, c)
  {
    hide Inv, NoImposter;
  }

  // ----- no way into a window -----

  predicate NoWindow(pc: Pc, id: string) {
    !InWindow(pc, id) && !pc.ToDownloading?
  }

  lemma RecoveryOpensNone(h: Host, pc: Pc, c: Choice, id: string)
    requires pc.ListRows? || pc.Recover? || pc.Adopt? || pc.Settle? || pc.MarkCrashed?
    ensures NoWindow(ActRecovery(h, pc, c).1, id)
  {
    hide Reconcile, Only, Candidates, Enumerates, TransitionRow, SetRuntimeRow;
  }

  lemma RecoveredOpensNone(h: Host, goal: Goal, c: Choice, id: string)
    ensures NoWindow(ActRecovered(h, goal, c).1, id)
  {
    hide Enumerates, ValidSpec;
  }

  lemma DispatchOpensNone(d: Deployment, todo: seq<Deployment>, job: Job, id: string)
    ensures NoWindow(Dispatch(d, todo, job), id)
  {
  }

  lemma DestroyOpensNone(h: Host, pc: Pc, c: Choice, id: string)
    ensures pc.DestroyNext? || pc.MarkFailed? || pc.MarkDestroying? || pc.MarkDestroyed? || pc.Purge? ==>
              NoWindow(ActDestroy(h, pc, c).1, id)
  {
    if pc.DestroyNext? && pc.todo != [] {
      DispatchOpensNone(pc.todo[0], pc.todo[1..], pc.job, id);
    }
    hide TransitionRow, DeleteRow, Dispatch;
  }

  lemma StopOpensNone(h: Host, pc: Pc, c: Choice, id: string)
    ensures pc.CheckRuntime? || pc.StopRuntime? || pc.AwaitExit? ==> NoWindow(ActStop(h, pc, c).1, id)
  {
    hide Reconcile, DecideStop;
  }

  lemma RemoveOpens(h: Host, pc: Pc, c: Choice, id: string)
    requires pc.CheckOwner? || pc.RemoveLog? || pc.RemoveDir? || pc.RemoveCache? || pc.RemoveCacheRest?
    requires InWindow(ActRemove(h, pc, c).1, id)
    ensures pc.RemoveCache? && pc.d.id == id
  {
    hide ValidId, CacheOwnership, SetMarker, DropCache, DropDir, DropLog, CachePath;
  }

  lemma RemoveOpensOwn(h: Host, pc: Pc, c: Choice, id: string)
    requires pc.CheckOwner? || pc.RemoveLog? || pc.RemoveDir? || pc.RemoveCache? || pc.RemoveCacheRest?
    requires PcInv(h, pc) && InWindow(ActRemove(h, pc, c).1, id)
    ensures pc.RemoveCache? && pc.d.id == id && CacheAs(h, pc.d, true) && Snap(h.rows, pc.d)
  {
    hide PcInv, ActRemove, NoneLive, Queue, JobOk, CacheAs;
    RemoveOpens(h, pc, c, id);
    RemovalPart(h, pc);
  }

  lemma CreateOpensOwn(h: Host, pc: Pc, c: Choice, id: string)
    requires pc.ClearTombstone? || pc.CreateRecord?
    requires PcInv(h, pc) && InWindow(ActCreate(h, pc, c).1, id)
    ensures pc.CreateRecord? && id !in h.rows
  {
    hide DeleteRow, DestroyedBut, ValidSpec;
  }

  lemma PrepareOpensNone(h: Host, pc: Pc, c: Choice, id: string)
    requires pc.ToValidating? || pc.WriteKey? || pc.MakeCache? || pc.ClaimCache? || pc.ToDownloading?
             || pc.WriteIntent? || pc.ToStarting?
    requires InWindow(ActPrepare(h, pc, c).1, id)
    ensures InWindow(pc, id)
  {
    hide TransitionRow, SetIntentRow, SetMarker;
  }

  lemma LaunchOpensNone(h: Host, pc: Pc, c: Choice, id: string)
    ensures pc.Exec? || pc.Capture? || pc.Record? ==> NoWindow(ActLaunch(h, pc, c).1, id)
  {
    hide SetRuntimeRow, Spawns, Launched, LogCreated, Send;
  }

  lemma MoveOpensNone(h: Host, row: string, from: Phase, to: Phase, reason: string, next: Pc, id: string)
    requires NoWindow(next, id)
    ensures NoWindow(Move(h, row, from, to, reason, next).1, id)
  {
    hide Move;
    MoveGoesOn(h, row, from, to, reason, next);
  }

  lemma ServingPoints(r: Run, who: Ident, id: string)
    ensures NoWindow(AwaitReady(r, who), id) && NoWindow(ToUnregistered(r, who), id) && NoWindow(Deployed(r), id)
  {
  }

  lemma PollOpensNone(h: Host, pc: Pc, c: Choice, id: string)
    requires pc.AwaitHealth? || pc.AwaitReady?
    ensures NoWindow(ActServe(h, pc, c).1, id)
  {
    hide Reconcile, Move;
  }

  lemma ServeOpensNone(h: Host, pc: Pc, c: Choice, id: string)
    requires pc.AwaitHealth? || pc.ToHealthy? || pc.AwaitReady? || pc.ToRegistering? || pc.ToUnregistered?
    ensures NoWindow(ActServe(h, pc, c).1, id)
  {
    hide Reconcile, Move, NoWindow;
    match pc
    case AwaitHealth(_, _) => PollOpensNone(h, pc, c, id);
    case AwaitReady(_, _) => PollOpensNone(h, pc, c, id);
    case ToHealthy(r, who) =>
      ServingPoints(r, who, id);
      MoveOpensNone(h, r.spec.id, Starting, Healthy, "", AwaitReady(r, who), id);
    case ToRegistering(r, who) =>
      ServingPoints(r, who, id);
      MoveOpensNone(h, r.spec.id, Healthy, Registering, "", ToUnregistered(r, who), id);
    case ToUnregistered(r, who) =>
      ServingPoints(r, who, id);
      MoveOpensNone(h, r.spec.id, Registering, UnregisteredHealthy, "gateway registration not implemented yet (M4)",
                    Deployed(r), id);
  }

  lemma FailOpensNone(h: Host, pc: Pc, c: Choice, id: string)
    ensures pc.FailStop? || pc.FailAwait? || pc.FailMark? ==> NoWindow(ActFail(h, pc, c).1, id)
  {
    hide DecideStop, TransitionRow, Send;
  }

  /** The only ways into a window: creating the record, or taking the marker of one's own cache. */
  lemma EntersWindow(h: Host, goal: Goal, pc: Pc, c: Choice, id: string)
    requires PcInv(h, pc) && !InWindow(pc, id) && InWindow(Act(h, goal, pc, c).1, id)
    ensures || (pc.CreateRecord? && id !in h.rows)
            || (pc.RemoveCache? && pc.d.id == id && CacheAs(h, pc.d, true) && Snap(h.rows, pc.d))
  {
    hide InWindow, PcInv, Snap, CacheAs, ActRecovery, ActDestroy, ActRecovered, ActStop, ActRemove, ActCreate,
         ActPrepare, ActLaunch, ActServe, ActFail;
    if pc.ListRows? || pc.Recover? || pc.Adopt? || pc.Settle? || pc.MarkCrashed? {
      RecoveryOpensNone(h, pc, c, id);
    } else if pc.CheckOwner? || pc.RemoveLog? || pc.RemoveDir? || pc.RemoveCache? || pc.RemoveCacheRest? {
      RemoveOpensOwn(h, pc, c, id);
    } else if pc.ClearTombstone? || pc.CreateRecord? {
      CreateOpensOwn(h, pc, c, id);
    } else if pc.ToValidating? || pc.WriteKey? || pc.MakeCache? || pc.ClaimCache? || pc.ToDownloading?
              || pc.WriteIntent? || pc.ToStarting? {
      PrepareOpensNone(h, pc, c, id);
    } else {
      RecoveredOpensNone(h, goal, c, id);
      DestroyOpensNone(h, pc, c, id);
      StopOpensNone(h, pc, c, id);
      LaunchOpensNone(h, pc, c, id);
      if pc.AwaitHealth? || pc.ToHealthy? || pc.AwaitReady? || pc.ToRegistering? || pc.ToUnregistered? {
        ServeOpensNone(h, pc, c, id);
      }
      FailOpensNone(h, pc, c, id);
    }
  }

  // ----- becoming stuck, exactly -----

  /** The effect fails with the window open: an error, or a directory that may not be claimed, or a broken marker. */
  predicate FailsInWindow(h: Host, pc: Pc, c: Choice) {
    match pc
    case WriteKey(_) => c == IoError
    case MakeCache(_) => c == IoError
    case ClaimCache(r) =>
      || c == IoError
      || (&& r.spec.cache in h.files.caches
          && var cache := h.files.caches[r.spec.cache];
             cache.marker != Some(r.key)
             && (cache.marker.Some? || cache.payload || (c.PartialMarker? && c.text != r.key)))
    case RemoveCacheRest(_, _, _) => c == IoError
    case _ => false
  }

  /** The lock holder leaves a window, by dying or by failing, while the directory exists without the key. */
  ghost predicate LeavesUnproven(w: World, e: Event, id: string) {
    && w.lock.Some? && w.lock.value in w.cmds
    && Unproven(w.host, id)
    && var pc := w.cmds[w.lock.value].pc;
       && InWindow(pc, id)
       && (e == Crash(w.lock.value)
           || (e.Advance? && e.c == w.lock.value && FailsInWindow(w.host, pc, e.choice)))
  }

  /** In the windows a command works on its own row, at its own path. */
  lemma WindowIsOwn(h: Host, pc: Pc, id: string)
    requires Inv(h) && PcInv(h, pc) && InWindow(pc, id)
    ensures id in h.rows
    ensures pc.RemoveCacheRest? ==> CachePath(h.root, h.rows[id]) == CachePath(h.root, pc.d)
    ensures pc.ToValidating? || pc.WriteKey? || pc.MakeCache? || pc.ClaimCache? ==>
              && CachePath(h.root, h.rows[id]) == pc.r.spec.cache && h.rows[id].key == pc.r.key
              && h.rows[id].phase in {Requested, Validating}
    ensures pc.ToValidating? ==> h.rows[id].phase == Requested
  {
    hide Inv, PcInv, NoneLive, Queue, JobOk, ValidSpec;
    if pc.RemoveCacheRest? {
      RemovalPart(h, pc);
    } else {
      PreparePart(h, pc);
    }
  }

  /** Failing before the marker is written changes at most the marker, to a text that is not the key. */
  lemma PrepareFailure(h: Host, pc: Pc, c: Choice, id: string)
    requires pc.WriteKey? || pc.MakeCache? || pc.ClaimCache?
    requires FailsInWindow(h, pc, c) && pc.r.spec.id == id && Unproven(h, id)
    requires CachePath(h.root, h.rows[id]) == pc.r.spec.cache && h.rows[id].key == pc.r.key
    ensures var (h', pc') := ActPrepare(h, pc, c);
            Unproven(h', id) && pc'.FailMark? && h'.rows == h.rows && h'.procs == h.procs
  {
    hide CachePath;
  }

  /** A failing effect leaves the window, and the directory as unproven as it was. */
  lemma FailureLeaves(h: Host, goal: Goal, pc: Pc, c: Choice, id: string)
    requires Inv(h) && PcInv(h, pc) && InWindow(pc, id) && Unproven(h, id) && FailsInWindow(h, pc, c)
    ensures var (h', pc') := Act(h, goal, pc, c); Unproven(h', id) && !InWindow(pc', id)
    ensures Act(h, goal, pc, c).0.rows == h.rows && Act(h, goal, pc, c).0.procs == h.procs
  {
    hide Inv, PcInv, Unproven, CachePath, ActPrepare, ActRecovery, ActRecovered, ActDestroy, ActStop, ActCreate,
         ActLaunch, ActServe, ActFail;
    WindowIsOwn(h, pc, id);
    if pc.WriteKey? || pc.MakeCache? || pc.ClaimCache? {
      assert Unproven(h, id) ==> id in h.rows;
      PrepareFailure(h, pc, c, id);
    }
  }

  /** Going on from the claim means the marker is there. */
  lemma PrepareSuccess(h: Host, pc: Pc, c: Choice, id: string)
    requires pc.WriteKey? || pc.MakeCache? || pc.ClaimCache?
    requires id in h.rows && CachePath(h.root, h.rows[id]) == pc.r.spec.cache && h.rows[id].key == pc.r.key
    requires pc.r.spec.id == id
    requires var (h', pc') := ActPrepare(h, pc, c); !InWindow(pc', id) && Unproven(h', id)
    ensures Unproven(h, id) && FailsInWindow(h, pc, c)
  {
    hide CachePath;
  }

  lemma ValidatingStays(h: Host, goal: Goal, pc: Pc, c: Choice, id: string)
    requires pc.ToValidating? && pc.r.spec.id == id && id in h.rows && h.rows[id].phase == Requested
    ensures var pc' := Act(h, goal, pc, c).1; pc'.StoreFault? || InWindow(pc', id)
  {
    hide TransitionRow, ActRecovery, ActRecovered, ActDestroy, ActStop, ActRemove, ActCreate, ActLaunch, ActServe,
         ActFail;
  }

  lemma RestSuccess(h: Host, goal: Goal, pc: Pc, c: Choice, id: string)
    requires pc.RemoveCacheRest? && id in h.rows && CachePath(h.root, h.rows[id]) == CachePath(h.root, pc.d)
    requires Unproven(Act(h, goal, pc, c).0, id)
    ensures Unproven(h, id) && c == IoError
  {
    hide CachePath, ActRecovery, ActRecovered, ActDestroy, ActStop, ActPrepare, ActCreate, ActLaunch, ActServe,
         ActFail;
  }

  /** An effect that leaves a window without failing leaves nothing unproven. */
  lemma SuccessProves(h: Host, goal: Goal, pc: Pc, c: Choice, id: string)
    requires Inv(h) && PcInv(h, pc) && InWindow(pc, id)
    requires var (h', pc') := Act(h, goal, pc, c); !pc'.StoreFault? && !InWindow(pc', id) && Unproven(h', id)
    ensures Unproven(h, id) && FailsInWindow(h, pc, c)
  {
    hide Inv, PcInv, Unproven, CachePath, ActPrepare, ActRecovery, ActRecovered, ActDestroy, ActStop, ActRemove,
         ActCreate, ActLaunch, ActServe, ActFail;
    WindowIsOwn(h, pc, id);
    if pc.ToValidating? {
      ValidatingStays(h, goal, pc, c, id);
    } else if pc.RemoveCacheRest? {
      RestSuccess(h, goal, pc, c, id);
    } else {
      PrepareSuccess(h, pc, c, id);
    }
  }

  lemma LeavingSticks(w: World, e: Event, id: string)
    requires WorldInv(w) && LeavesUnproven(w, e, id)
    ensures !Stuck(w, id) && Stuck(Step(w, e), id)
  {
    hide Inv, NoImposter, PcInv, Act, Unproven, FailsInWindow;
    var c := w.lock.value;
    OthersIdle(w, c);
    if e.Advance? {
      FailureLeaves(w.host, w.cmds[c].goal, w.cmds[c].pc, e.choice, id);
      SameRowsHonest(w.host, Act(w.host, w.cmds[c].goal, w.cmds[c].pc, e.choice).0);
    } else {
      CrashOnlyDrops(w, c);
      hide Step, Attempt;
    }
  }

  lemma UnprovenIsUnreleasable(h: Host, id: string)
    requires Unproven(h, id)
    ensures Active(h.rows[id]) && !Releasable(h, id)
  {
    hide CachePath;
  }

  lemma UnreleasableIsUnproven(h: Host, id: string)
    requires Inv(h) && id in h.rows && Active(h.rows[id]) && !Releasable(h, id)
    ensures Unproven(h, id)
  {
    RowPathNamesIt(h, id);
    hide Inv, CachePath;
  }

  lemma RestProves(w: World, c: nat, choice: Choice, id: string)
    requires WorldInv(w) && c in w.cmds && Holding(w.cmds[c].pc) && !InWindow(w.cmds[c].pc, id)
    requires var next := Step(w, Advance(c, choice));
             Unproven(next.host, id) && c in next.cmds && !InWindow(next.cmds[c].pc, id)
    requires !Releasable(w.host, id)
    ensures Unproven(w.host, id)
  {
    hide Step, Inv, NoImposter, PcInv, Act, CacheEffect, Releasable, InWindow;
    var e := Advance(c, choice);
    AdvanceActs(w, c, choice);
    StepHasEffect(w, e, w.host.root);
    if id !in w.host.rows {
      NewIsEntered(w.host, w.cmds[c].goal, w.cmds[c].pc, choice, id);
    } else if Active(w.host.rows[id]) {
      UnreleasableIsUnproven(w.host, id);
    }
  }

  /** An effect outside the windows proves what was not unproven before, or enters a window. */
  lemma OutsideProves(w: World, c: nat, choice: Choice, id: string)
    requires WorldInv(w) && c in w.cmds && Holding(w.cmds[c].pc) && !InWindow(w.cmds[c].pc, id)
    requires var next := Step(w, Advance(c, choice));
             Unproven(next.host, id) && c in next.cmds && !InWindow(next.cmds[c].pc, id)
    ensures Unproven(w.host, id)
  {
    hide Step, Inv, NoImposter, PcInv, Act, CacheEffect, Unproven, Releasable, OpensWindow, InWindow;
    var e := Advance(c, choice);
    var next := Step(w, e);
    OthersIdle(w, c);
    AdvanceActs(w, c, choice);
    if Releasable(w.host, id) {
      UnprovenIsUnreleasable(next.host, id);
      KeepsReleasable(w, e, next.host, id);
      OpenedIsEntered(w.host, w.cmds[c].goal, w.cmds[c].pc, choice, id);
    } else {
      RestProves(w, c, choice, id);
    }
  }

  /** Whoever opens a window is in it. */
  lemma OpenedIsEntered(h: Host, goal: Goal, pc: Pc, c: Choice, id: string)
    requires OpensWindow(pc, c, id) && PcInv(h, pc)
    ensures InWindow(pc, id) || InWindow(Act(h, goal, pc, c).1, id)
  {
    hide NoneLive, Current;
  }

  /** Whoever creates a record is in the first window. */
  lemma NewIsEntered(h: Host, goal: Goal, pc: Pc, c: Choice, id: string)
    requires pc.CreateRecord? && pc.spec.id == id && id in Act(h, goal, pc, c).0.rows && id !in h.rows
    ensures InWindow(Act(h, goal, pc, c).1, id)
  {
  }

  lemma AdvanceSticksByFailing(w: World, c: nat, choice: Choice, id: string)
    requires WorldInv(w) && c in w.cmds && Holding(w.cmds[c].pc)
    requires !Stuck(w, id) && Stuck(Step(w, Advance(c, choice)), id)
    ensures LeavesUnproven(w, Advance(c, choice), id)
  {
    hide Inv, NoImposter, PcInv, Act, Step, Unproven, FailsInWindow, Mine;
    var e := Advance(c, choice);
    var next := Step(w, e);
    OthersIdle(w, c);
    AdvanceActs(w, c, choice);
    StepKeeps(w, e);
    assert CmdInv(next, c) && CmdInv(w, c);
    EndsHold(next.host, next.cmds[c].pc);
    if InWindow(w.cmds[c].pc, id) {
      SuccessProves(w.host, w.cmds[c].goal, w.cmds[c].pc, choice, id);
    } else {
      OutsideProves(w, c, choice, id);
    }
  }

  /** No event but an effect or the death of a command makes a difference. */
  lemma OnlyDeathSticks(w: World, e: Event, id: string)
    requires WorldInv(w) && (e.Advance? ==> !(e.c in w.cmds && Holding(w.cmds[e.c].pc)))
    requires !Stuck(w, id) && Stuck(Step(w, e), id)
    ensures LeavesUnproven(w, e, id)
  {
    hide Inv, NoImposter, PcInv, Act, Step, Unproven;
    OtherEvents(w, e);
    SamePathUnproven(w.host, Step(w, e).host, id);
    forall c | c in w.cmds && InWindow(w.cmds[c].pc, id) ensures e == Crash(c) && w.lock == Some(c) {
      assert CmdInv(w, c);
      BusyStays(w, e, c);
    }
  }

  /** Without an effect of its own only death takes a command in the middle of its work away. */
  lemma BusyStays(w: World, e: Event, c: nat)
    requires e.Advance? ==> !(e.c in w.cmds && Holding(w.cmds[e.c].pc))
    requires c in w.cmds && Holding(w.cmds[c].pc) && !IsEnd(w.cmds[c].pc)
    ensures e == Crash(c) || (c in Step(w, e).cmds && Step(w, e).cmds[c] == w.cmds[c])
  {
    hide NoImposter, Act, Env;
  }

  /** Without an effect of a command no marker changes. */
  lemma SamePathUnproven(h: Host, h': Host, id: string)
    requires Aside(h, h')
    ensures Unproven(h', id) ==> Unproven(h, id)
  {
    hide CachePath;
  }

  /**
   * How deployments get stuck, exactly: in every sound world, an event makes a deployment stuck if and only if the
   * lock holder is in one of the two windows of its cache, the directory exists without its key, and the event is the
   * holder's death or an effect that fails there.
   */
  lemma BecomesStuck(w: World, e: Event, id: string)
    requires WorldInv(w)
    ensures !Stuck(w, id) && Stuck(Step(w, e), id) <==> LeavesUnproven(w, e, id)
  {
    hide WorldInv, Step, Stuck;
    if LeavesUnproven(w, e, id) {
      LeavingSticks(w, e, id);
    } else if !Stuck(w, id) && Stuck(Step(w, e), id) {
      if e.Advance? && e.c in w.cmds && Holding(w.cmds[e.c].pc) {
        AdvanceSticksByFailing(w, e.c, e.choice, id);
      } else {
        OnlyDeathSticks(w, e, id);
      }
    }
  }

  // ----- stuck is for good -----

  /** No event lets a command into a window on a cache whose marker is not the deployment's own. */
  lemma NobodyEnters(w: World, e: Event, id: string)
    requires WorldInv(w) && Stuck(w, id)
    ensures var next := Step(w, e); forall c :: c in next.cmds ==> !InWindow(next.cmds[c].pc, id)
  {
    hide Inv, NoImposter, Act, PcInv;
    if e.Advance? && e.c in w.cmds && Holding(w.cmds[e.c].pc) {
      OthersIdle(w, e.c);
      CannotEnter(w, e.c, e.choice, id);
    }
  }

  lemma CannotEnter(w: World, c: nat, choice: Choice, id: string)
    requires WorldInv(w) && Stuck(w, id) && c in w.cmds && Holding(w.cmds[c].pc) && PcInv(w.host, w.cmds[c].pc)
    ensures !InWindow(Act(w.host, w.cmds[c].goal, w.cmds[c].pc, choice).1, id)
  {
    hide Inv, NoImposter, Act, PcInv, InWindow;
    RowPathNamesIt(w.host, id);
    if InWindow(Act(w.host, w.cmds[c].goal, w.cmds[c].pc, choice).1, id) {
      EntersWindow(w.host, w.cmds[c].goal, w.cmds[c].pc, choice, id);
    }
  }

  /** No event removes or re-marks that cache. */
  lemma CacheStays(w: World, e: Event, id: string)
    requires WorldInv(w) && Stuck(w, id)
    ensures var after := Step(w, e).host;
            var p := CachePath(w.host.root, w.host.rows[id]);
            && SameMarker(w.host.files, after.files, p)
            && id in after.rows && CachePath(after.root, after.rows[id]) == p
                && after.rows[id].key == w.host.rows[id].key
  {
    hide Step, Inv, PcInv, ValidSpec, NoImposter;
    var p := CachePath(w.host.root, w.host.rows[id]);
    StepHasEffect(w, e, p);
    RowPathNamesIt(w.host, id);
    if e.Advance? && e.c in w.cmds && w.lock == Some(e.c) && PcInv(w.host, w.cmds[e.c].pc) {
      PcPathNamesIt(w.host, w.cmds[e.c].pc);
      assert !InWindow(w.cmds[e.c].pc, id);
    }
  }

  /** The incarnation of the deployment with this key is there, and not DESTROYED. */
  predicate StillThere(h: Host, id: string, key: string) {
    id in h.rows && Active(h.rows[id]) && h.rows[id].key == key
  }

  lemma StuckIsThere(w: World, id: string)
    requires Stuck(w, id)
    ensures id in w.host.rows && Active(w.host.rows[id])
  {
    hide CachePath, InWindow;
  }

  lemma StuckStep(w: World, e: Event, id: string)
    requires WorldInv(w) && Stuck(w, id)
    ensures Stuck(Step(w, e), id)
  {
    NobodyEnters(w, e, id);
    CacheStays(w, e, id);
    StepKeeps(w, e);
    var next := Step(w, e);
    assert RowOk(next.host, next.host.rows[id]);
    hide Step, InWindow, NoImposter;
  }

  /**
   * A stuck deployment is never DESTROYED or purged, whatever commands run: its cache is never re-marked or removed.
   */
  lemma {:induction false} StuckForever(w: World, events: seq<Event>, id: string)
    requires WorldInv(w) && Stuck(w, id)
    ensures Stuck(RunAll(w, events), id) && StillThere(RunAll(w, events).host, id, w.host.rows[id].key)
    decreases |events|
  {
    hide WorldInv, Stuck, Step;
    StuckIsThere(w, id);
    if events != [] {
      StepKeeps(w, events[0]);
      StuckStep(w, events[0], id);
      StuckIsThere(Step(w, events[0]), id);
      StepKeepsKey(w, events[0], id);
      StuckForever(Step(w, events[0]), events[1..], id);
    }
  }

  // ----- what a deployment in service owns -----

  ghost predicate OwnsCache(h: Host, id: string) {
    && id in h.rows
    && var p := CachePath(h.root, h.rows[id]);
       p in h.files.caches && h.files.caches[p].marker == Some(h.rows[id].key)
  }

  /** Whoever is past the claim, row or command, has the marker. */
  ghost predicate ClaimsHold(w: World) {
    && (forall id :: id in w.host.rows && Owning(w.host.rows[id].phase) ==> OwnsCache(w.host, id))
    && (forall c :: c in w.cmds && w.cmds[c].pc.ToDownloading? ==> Claimed(w.host, w.cmds[c].pc.r))
  }

  lemma OnlyPreparingClaims(h: Host, pc: Pc, c: Choice)
    requires pc.ToValidating? || pc.WriteKey? || pc.MakeCache? || pc.ClaimCache? || pc.ToDownloading?
             || pc.WriteIntent? || pc.ToStarting?
    requires ActPrepare(h, pc, c).1.ToDownloading?
    ensures pc.ClaimCache? && ActPrepare(h, pc, c).1.r == pc.r && Claimed(ActPrepare(h, pc, c).0, pc.r)
  {
    hide TransitionRow, SetIntentRow;
  }

  lemma OthersClaimNothing(h: Host, pc: Pc, c: Choice)
    ensures pc.CheckOwner? || pc.RemoveLog? || pc.RemoveDir? || pc.RemoveCache? || pc.RemoveCacheRest? ==>
              !ActRemove(h, pc, c).1.ToDownloading?
    ensures pc.ClearTombstone? || pc.CreateRecord? ==> !ActCreate(h, pc, c).1.ToDownloading?
  {
    hide CacheOwnership, ValidId, DeleteRow, CreateRow;
  }

  /** A command moves on to DOWNLOADING only with the marker of its cache written. */
  lemma DownloadsAfterClaim(h: Host, goal: Goal, pc: Pc, c: Choice)
    requires Holding(pc) && Act(h, goal, pc, c).1.ToDownloading?
    ensures Claimed(Act(h, goal, pc, c).0, Act(h, goal, pc, c).1.r)
  {
    hide Claimed, ActRecovery, ActDestroy, ActRecovered, ActStop, ActRemove, ActCreate, ActPrepare, ActLaunch,
         ActServe, ActFail;
    if pc.ListRows? || pc.Recover? || pc.Adopt? || pc.Settle? || pc.MarkCrashed? {
      RecoveryOpensNone(h, pc, c, "");
    } else if pc.ToValidating? || pc.WriteKey? || pc.MakeCache? || pc.ClaimCache? || pc.ToDownloading?
              || pc.WriteIntent? || pc.ToStarting? {
      OnlyPreparingClaims(h, pc, c);
    } else {
      OthersClaimNothing(h, pc, c);
      RecoveredOpensNone(h, goal, c, "");
      DestroyOpensNone(h, pc, c, "");
      StopOpensNone(h, pc, c, "");
      LaunchOpensNone(h, pc, c, "");
      if pc.AwaitHealth? || pc.ToHealthy? || pc.AwaitReady? || pc.ToRegistering? || pc.ToUnregistered? {
        ServeOpensNone(h, pc, c, "");
      }
      FailOpensNone(h, pc, c, "");
    }
  }

  lemma RowsKeepClaims(w: World, e: Event, id: string)
    requires WorldInv(w) && ClaimsHold(w)
    requires id in Step(w, e).host.rows && Owning(Step(w, e).host.rows[id].phase)
    ensures OwnsCache(Step(w, e).host, id)
  {
    hide Step, Inv, PcInv, ValidSpec, NoImposter;
    var after := Step(w, e).host;
    var p := if id in w.host.rows then CachePath(w.host.root, w.host.rows[id]) else w.host.root;
    StepHasEffect(w, e, p);
    if id in w.host.rows {
      RowPathNamesIt(w.host, id);
    }
    if e.Advance? && e.c in w.cmds && w.lock == Some(e.c) && PcInv(w.host, w.cmds[e.c].pc) {
      PcPathNamesIt(w.host, w.cmds[e.c].pc);
      DownloadingIsMine(w.host, w.cmds[e.c].pc);
    }
  }

  lemma DownloadingIsMine(h: Host, pc: Pc)
    requires PcInv(h, pc)
    ensures pc.ToDownloading? ==> Mine(h, pc.r, Validating)
  {
    hide Mine;
  }

  lemma CommandsKeepClaims(w: World, e: Event, c: nat)
    requires WorldInv(w) && ClaimsHold(w)
    requires c in Step(w, e).cmds && Step(w, e).cmds[c].pc.ToDownloading?
    ensures Claimed(Step(w, e).host, Step(w, e).cmds[c].pc.r)
  {
    hide Inv, NoImposter, Act, PcInv, Effect, OwnsCache;
    StepHasEffect(w, e, Step(w, e).cmds[c].pc.r.spec.cache);
    if c in w.cmds && Holding(w.cmds[c].pc) {
      OthersIdle(w, c);
      if e.Advance? && e.c == c && Act(w.host, w.cmds[c].goal, w.cmds[c].pc, e.choice).1.ToDownloading? {
        DownloadsAfterClaim(w.host, w.cmds[c].goal, w.cmds[c].pc, e.choice);
      }
    }
  }

  lemma ClaimStep(w: World, e: Event)
    requires WorldInv(w) && ClaimsHold(w)
    ensures ClaimsHold(Step(w, e))
  {
    hide Step, Inv, NoImposter, Owning, OwnsCache, Claimed;
    var next := Step(w, e);
    forall id | id in next.host.rows && Owning(next.host.rows[id].phase) ensures OwnsCache(next.host, id) {
      RowsKeepClaims(w, e, id);
    }
    forall c | c in next.cmds && next.cmds[c].pc.ToDownloading? ensures Claimed(next.host, next.cmds[c].pc.r) {
      CommandsKeepClaims(w, e, c);
    }
  }

  lemma {:induction false} ClaimRun(worlds: seq<World>, events: seq<Event>, k: nat)
    requires IsRun(worlds, events) && k <= |events|
    ensures ClaimsHold(worlds[k])
  {
    hide Step;
    if k > 0 {
      hide ClaimsHold;
      ClaimRun(worlds, events, k - 1);
      RunIsSound(worlds, events, k - 1);
      assert Moves(worlds, events, k - 1);
      ClaimStep(worlds[k - 1], events[k - 1]);
    }
  }

  lemma OwnedIsReleasable(w: World, id: string)
    requires WorldInv(w) && OwnsCache(w.host, id) && Active(w.host.rows[id])
    ensures Releasable(w.host, id)
  {
    RowPathNamesIt(w.host, id);
    hide WorldInv;
  }

  /**
   * A deployment in service owns its cache: in every run, a record past VALIDATING and not being torn down has its
   * cache directory, with its own key as the marker.
   */
  lemma InServiceOwnsCache(w: World, id: string)
    requires Reachable(w) && id in w.host.rows && Owning(w.host.rows[id].phase)
    ensures OwnsCache(w.host, id) && Releasable(w.host, id)
  {
    hide WorldInv, Releasable, OwnsCache;
    ReachableIsSound(w);
    var worlds, events :| IsRun(worlds, events) && w == worlds[|events|];
    hide IsRun;
    ClaimRun(worlds, events, |events|);
    OwnedIsReleasable(w, id);
  }
}
