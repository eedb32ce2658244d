/** What each single effect of a command does to the rows and to the cache directories. */
module Effects {
  import opened Basics
  import opened Phases
  import opened Store
  import opened Supervisor
  import opened Recovery
  import opened Files
  import opened Host
  import opened Protocol
  import opened ProtocolInvariant
  import opened ProtocolWorld

  predicate SameMarker(before: Files, after: Files, p: Path) {
    p in before.caches && p in after.caches && after.caches[p].marker == before.caches[p].marker
  }

  /** What one effect may do to the cache directory at `p`, if it does anything at all. */
  ghost predicate CacheEffect(h: Host, pc: Pc, c: Choice, after: Files, p: Path) {
    if p in h.files.caches then
      || SameMarker(h.files, after, p)
      || (&& pc.ClaimCache? && pc.r.spec.cache == p && h.files.caches[p].marker == None
          && p in after.caches && after.caches[p].marker == Some(if c.PartialMarker? then c.text else pc.r.key))
      || (pc.RemoveCache? && CachePath(h.root, pc.d) == p && h.files.caches[p].marker == Some(pc.d.key)
          && (p in after.caches ==> c == MarkerFirst))
      || (pc.RemoveCacheRest? && CachePath(h.root, pc.d) == p && h.files.caches[p].marker == None)
    else
      p in after.caches ==> pc.MakeCache? && pc.r.spec.cache == p
  }

  /** Phases past VALIDATING and before teardown. */
  predicate Owning(p: Phase) {
    p in {Downloading, Starting, Healthy, Registering, Ready, UnregisteredHealthy}
  }

  /** One effect moves a row into these phases. */
  predicate Downloads(pc: Pc, id: string) {
    pc.ToDownloading? && pc.r.spec.id == id
  }

  /**
   * The effects that begin the teardown of a row: recovery marking it CRASHED, for want of a runtime or because of what
   * became of it; destroyOne marking it FAILED or DESTROYING; and a failing deploy.
   */
  predicate BeginsTeardown(pc: Pc, id: string) {
    || ((pc.MarkCrashed? || pc.MarkFailed? || pc.MarkDestroying?) && pc.d.id == id)
    || (pc.Settle? && pc.d.id == id && pc.d.pid == 0)
    || (pc.FailMark? && pc.r.spec.id == id)
  }

  /** What one effect may make of a row: identity and key stay, teardown is final, and so is DESTROYED. */
  predicate RowFollows(a: Deployment, b: Deployment, pc: Pc, id: string) {
    && (b.id, b.cacheDir, b.key) == (a.id, a.cacheDir, a.key)
    && (Teardown(a.phase) ==> Teardown(b.phase))
    && (a.phase == Destroyed ==> b.phase == Destroyed)
    && (Owning(b.phase) ==> Owning(a.phase) || Downloads(pc, id))
    && (Teardown(b.phase) ==> Teardown(a.phase) || BeginsTeardown(pc, id))
  }

  /** What one effect may do to the table: rows follow, vanish only when DESTROYED, and appear only under a new key. */
  predicate TableFollows(before: Rows, after: Rows, keys: set<string>, pc: Pc) {
    && (forall id :: id in before && id in after ==> RowFollows(before[id], after[id], pc, id))
    && (forall id :: id in before && id !in after ==> before[id].phase == Destroyed)
    && (forall id :: id in after && id !in before ==>
          after[id].phase == Requested && after[id].key !in keys && pc.CreateRecord? && pc.spec.id == id)
  }

  /** What every effect of every command does to caches and rows. */
  ghost predicate Effect(h: Host, pc: Pc, c: Choice, after: Host, p: Path) {
    && after.root == h.root
    && h.keys <= after.keys
    && TableFollows(h.rows, after.rows, h.keys, pc)
    && CacheEffect(h, pc, c, after.files, p)
  }

  lemma RowEffect(h: Host, pc: Pc, c: Choice, p: Path, id: string, d: Deployment)
    requires id in h.rows && RowFollows(h.rows[id], d, pc, id)
    ensures Effect(h, pc, c, h.(rows := h.rows[id := d]), p)
  {
    hide CacheEffect, RowFollows;
    SameCaches(h, pc, c, h.files, p);
    SameTable(h.rows, h.keys, pc);
  }

  lemma SameTable(rows: Rows, keys: set<string>, pc: Pc)
    ensures TableFollows(rows, rows, keys, pc)
  {
  }

  lemma SameCaches(h: Host, pc: Pc, c: Choice, after: Files, p: Path)
    requires after.caches == h.files.caches
    ensures CacheEffect(h, pc, c, after, p)
  {
  }

  lemma MovedFollows(d: Deployment, to: Phase, reason: string, now: int, pc: Pc, id: string)
    requires Legal(d.phase, to) && (to == Downloading ==> Downloads(pc, id))
    requires Teardown(to) ==> Teardown(d.phase) || BeginsTeardown(pc, id)
    ensures RowFollows(d, Moved(d, to, reason, now), pc, id)
  {
  }

  lemma MoveOutcome(h: Host, id: string, from: Phase, to: Phase, reason: string, next: Pc)
    ensures var h' := Move(h, id, from, to, reason, next).0;
            h' == h || (Legal(from, to) && id in h.rows && h.rows[id].phase == from
                        && h' == h.(rows := h.rows[id := Moved(h.rows[id], to, reason, h.now)]))
  {
    hide Legal;
  }

  lemma MoveEffect(h: Host, pc: Pc, c: Choice, p: Path, id: string, from: Phase, to: Phase, reason: string, next: Pc)
    requires to == Downloading ==> Downloads(pc, id)
    requires Teardown(to) ==> Teardown(from) || BeginsTeardown(pc, id)
    ensures Effect(h, pc, c, Move(h, id, from, to, reason, next).0, p)
  {
    hide Effect, Legal, Move, RowFollows;
    MoveOutcome(h, id, from, to, reason, next);
    NoEffect(h, pc, c, h, p);
    if Legal(from, to) && id in h.rows && h.rows[id].phase == from {
      MovedFollows(h.rows[id], to, reason, h.now, pc, id);
      RowEffect(h, pc, c, p, id, Moved(h.rows[id], to, reason, h.now));
    }
  }

  /** Changing what a row records of its runtime changes neither its identity nor its phase. */
  lemma SameFollows(d: Deployment, d': Deployment, pc: Pc, id: string)
    requires (d'.id, d'.cacheDir, d'.key, d'.phase) == (d.id, d.cacheDir, d.key, d.phase)
    ensures RowFollows(d, d', pc, id)
  {
  }

  lemma RuntimeEffect(h: Host, pc: Pc, c: Choice, p: Path, id: string, pid: int, port: int, command: string,
                      startedAt: int, token: string, next: Pc)
    ensures Effect(h, pc, c, Write(h, SetRuntimeRow(h.rows, id, pid, port, command, startedAt, token, h.now), next).0,
        p)
  {
    hide Effect, RowFollows;
    NoEffect(h, pc, c, h, p);
    if id in h.rows {
      var d := h.rows[id].(port := port, command := command, updatedAt := h.now, pid := pid, startedAt := startedAt,
                           startToken := token);
      SameFollows(h.rows[id], d, pc, id);
      RowEffect(h, pc, c, p, id, d);
    }
  }

  lemma IntentEffect(h: Host, pc: Pc, c: Choice, p: Path, id: string, port: int, command: string, next: Pc)
    ensures Effect(h, pc, c, Write(h, SetIntentRow(h.rows, id, port, command, h.now), next).0, p)
  {
    hide Effect, RowFollows;
    NoEffect(h, pc, c, h, p);
    if id in h.rows {
      var d := h.rows[id].(port := port, command := command, updatedAt := h.now, pid := 0, startedAt := 0,
          startToken := "");
      SameFollows(h.rows[id], d, pc, id);
      RowEffect(h, pc, c, p, id, d);
    }
  }

  lemma NoEffect(h: Host, pc: Pc, c: Choice, after: Host, p: Path)
    requires after.root == h.root && h.keys <= after.keys && after.rows == h.rows
        && after.files.caches == h.files.caches
    ensures Effect(h, pc, c, after, p)
  {
    SameCaches(h, pc, c, after.files, p);
    SameTable(h.rows, h.keys, pc);
    hide CacheEffect, TableFollows;
  }

  lemma RecoveryEffect(h: Host, pc: Pc, c: Choice, p: Path)
    requires pc.ListRows? || pc.Recover? || pc.Adopt? || pc.Settle? || pc.MarkCrashed?
    ensures Effect(h, pc, c, ActRecovery(h, pc, c).0, p)
  {
    hide Effect, Move, Write, Reconcile, Only, Candidates, Enumerates;
    NoEffect(h, pc, c, h, p);
    match pc
    case ListRows =>
    case Recover(_) =>
    case Adopt(d, m, todo) =>
      RuntimeEffect(h, pc, c, p, d.id, m.pid, d.port, m.command, m.startedAt, m.token, Settle(RowAdopted(d, m), todo));
    case Settle(d, todo) =>
      if d.pid == 0 {
        MoveEffect(h, pc, c, p, d.id, d.phase, Crashed, NO_IDENTITY, Recover(todo));
      }
    case MarkCrashed(d, reason, todo) => MoveEffect(h, pc, c, p, d.id, d.phase, Crashed, reason, Recover(todo));
  }

  lemma DestroyEffect(h: Host, pc: Pc, c: Choice, p: Path)
    requires pc.DestroyNext? || pc.MarkFailed? || pc.MarkDestroying? || pc.MarkDestroyed? || pc.Purge?
    requires PcInv(h, pc)
    ensures Effect(h, pc, c, ActDestroy(h, pc, c).0, p)
  {
    hide Effect, Move, Dispatch, AtDestroyNext, AtMark, AtMarkDestroyed, Write, DeleteRow;
    NoEffect(h, pc, c, h, p);
    match pc
    case DestroyNext(_, _) =>
    case MarkFailed(d, todo, job) =>
      MoveEffect(h, pc, c, p, d.id, d.phase, Failed, "destroy requested",
          MarkDestroying(d.(phase := Failed), todo, job));
    case MarkDestroying(d, todo, job) =>
      MoveEffect(h, pc, c, p, d.id, d.phase, Destroying, "", AfterMarked(d.(phase := Destroying), todo, job));
    case MarkDestroyed(d, todo, job) =>
      MoveEffect(h, pc, c, p, d.id, Destroying, Destroyed, "", AfterDestroyed(d.(phase := Destroyed), todo, job));
    case Purge(d, todo, job) => PurgeEffect(h, pc, c, p, d.id, DestroyNext(todo, job));
  }

  lemma WithoutFollows(rows: Rows, id: string, keys: set<string>, pc: Pc)
    requires id in rows && rows[id].phase == Destroyed
    ensures TableFollows(rows, rows - {id}, keys, pc)
  {
  }

  /** Only DESTROYED rows are deleted. */
  lemma PurgeEffect(h: Host, pc: Pc, c: Choice, p: Path, id: string, next: Pc)
    ensures Effect(h, pc, c, Write(h, DeleteRow(h.rows, id), next).0, p)
  {
    hide CacheEffect, TableFollows;
    SameCaches(h, pc, c, h.files, p);
    if id in h.rows && h.rows[id].phase == Destroyed {
      WithoutFollows(h.rows, id, h.keys, pc);
    } else {
      NoEffect(h, pc, c, h, p);
    }
  }

  lemma CacheRemovalEffect(h: Host, pc: Pc, c: Choice, p: Path)
    requires pc.RemoveCache? && CacheAs(h, pc.d, true)
    ensures Effect(h, pc, c, ActRemove(h, pc, c).0, p)
  {
    hide TableFollows;
    SameTable(h.rows, h.keys, pc);
  }

  lemma RestRemovalEffect(h: Host, pc: Pc, c: Choice, p: Path)
    requires pc.RemoveCacheRest?
    requires var q := CachePath(h.root, pc.d); q in h.files.caches && h.files.caches[q].marker == None
    ensures Effect(h, pc, c, ActRemove(h, pc, c).0, p)
  {
    hide TableFollows;
    SameTable(h.rows, h.keys, pc);
  }

  lemma RemovalEffect(h: Host, pc: Pc, c: Choice, p: Path)
    requires PcInv(h, pc)
    requires pc.CheckOwner? || pc.RemoveLog? || pc.RemoveDir? || pc.RemoveCache? || pc.RemoveCacheRest?
    ensures Effect(h, pc, c, ActRemove(h, pc, c).0, p)
  {
    hide Effect, ValidId, CacheOwnership, Current, NoneLive, CachePath, CacheAs;
    if pc.RemoveCache? {
      CacheRemovalEffect(h, pc, c, p);
    } else if pc.RemoveCacheRest? {
      RestRemovalEffect(h, pc, c, p);
    } else {
      NoEffect(h, pc, c, ActRemove(h, pc, c).0, p);
    }
  }

  lemma InsertFollows(rows: Rows, d: Deployment, keys: set<string>, pc: Pc)
    requires d.id !in rows && d.phase == Requested && d.key !in keys && pc.CreateRecord? && pc.spec.id == d.id
    ensures TableFollows(rows, rows[d.id := d], keys, pc)
  {
    SameTable(rows, keys, pc);
    hide RowFollows;
  }

  lemma InsertedEffect(h: Host, pc: Pc, c: Choice, p: Path, next: Host, d: Deployment)
    requires next == h.(keys := next.keys) && h.keys <= next.keys
    requires d.id !in h.rows && d.phase == Requested && d.key !in h.keys && pc.CreateRecord? && pc.spec.id == d.id
    ensures Effect(h, pc, c, next.(rows := h.rows[d.id := d]), p)
  {
    hide CacheEffect, TableFollows;
    SameCaches(h, pc, c, h.files, p);
    InsertFollows(h.rows, d, h.keys, pc);
  }

  /** A record appears only under a key that was not in use. */
  lemma InsertEffect(h: Host, pc: Pc, c: Choice, p: Path)
    requires pc.CreateRecord?
    ensures Effect(h, pc, c, ActCreate(h, pc, c).0, p)
  {
    hide CacheEffect, TableFollows, Effect;
    NoEffect(h, pc, c, h, p);
    if c.FreshKey? && c.key != "" && c.key !in h.keys {
      var next := h.(keys := h.keys + {c.key});
      NoEffect(h, pc, c, next, p);
      if pc.spec.id !in h.rows {
        InsertedEffect(h, pc, c, p, next, NewRow(pc.spec, c.key).(createdAt := WholeSeconds(h.now),
                                                                  updatedAt := WholeSeconds(h.now)));
      }
    }
  }

  lemma CreateEffect(h: Host, pc: Pc, c: Choice, p: Path)
    requires pc.ClearTombstone? || pc.CreateRecord?
    ensures Effect(h, pc, c, ActCreate(h, pc, c).0, p)
  {
    hide Effect, Write, CreateRow, DeleteRow;
    if pc.CreateRecord? {
      InsertEffect(h, pc, c, p);
    } else {
      NoEffect(h, pc, c, h, p);
      PurgeEffect(h, pc, c, p, pc.spec.id, CreateRecord(pc.spec));
    }
  }

  lemma MakeEffect(h: Host, pc: Pc, c: Choice, p: Path)
    requires pc.MakeCache?
    ensures Effect(h, pc, c, ActPrepare(h, pc, c).0, p)
  {
    hide TableFollows;
    SameTable(h.rows, h.keys, pc);
  }

  lemma MarkEffect(h: Host, pc: Pc, c: Choice, p: Path)
    requires pc.ClaimCache?
    ensures Effect(h, pc, c, ActPrepare(h, pc, c).0, p)
  {
    hide TableFollows;
    SameTable(h.rows, h.keys, pc);
  }

  lemma ClaimEffect(h: Host, pc: Pc, c: Choice, p: Path)
    requires pc.WriteKey? || pc.MakeCache? || pc.ClaimCache?
    ensures Effect(h, pc, c, ActPrepare(h, pc, c).0, p)
  {
    hide Effect, Move, Write;
    if pc.MakeCache? {
      MakeEffect(h, pc, c, p);
    } else if pc.ClaimCache? {
      MarkEffect(h, pc, c, p);
    } else {
      NoEffect(h, pc, c, ActPrepare(h, pc, c).0, p);
    }
  }

  lemma PrepareEffect(h: Host, pc: Pc, c: Choice, p: Path)
    requires pc.ToValidating? || pc.WriteKey? || pc.MakeCache? || pc.ClaimCache? || pc.ToDownloading?
             || pc.WriteIntent? || pc.ToStarting?
    ensures Effect(h, pc, c, ActPrepare(h, pc, c).0, p)
  {
    if pc.WriteKey? || pc.MakeCache? || pc.ClaimCache? {
      hide Effect;
      ClaimEffect(h, pc, c, p);
    } else {
      hide Effect, Move, Write;
      NoEffect(h, pc, c, h, p);
      match pc
      case ToValidating(r) => MoveEffect(h, pc, c, p, r.spec.id, Requested, Validating, "", WriteKey(r));
      case ToDownloading(r) => MoveEffect(h, pc, c, p, r.spec.id, Validating, Downloading, "", WriteIntent(r));
      case WriteIntent(r) => IntentEffect(h, pc, c, p, r.spec.id, r.spec.port, r.spec.intent, ToStarting(r));
      case ToStarting(r) => MoveEffect(h, pc, c, p, r.spec.id, Downloading, Starting, "", Exec(r));
    }
  }

  lemma LaunchFrame(h: Host, pc: Pc, c: Choice)
    requires pc.Exec? || pc.Capture?
    ensures var after := ActLaunch(h, pc, c).0;
            after.root == h.root && after.keys == h.keys && after.rows == h.rows && after.files.caches == h.files.caches
  {
    hide Spawns, Group;
  }

  lemma RecordWrites(h: Host, pc: Pc, c: Choice)
    requires pc.Record?
    ensures ActLaunch(h, pc, c)
         == Write(h, SetRuntimeRow(h.rows, pc.r.spec.id, pc.who.pid, pc.r.spec.port, pc.who.command, pc.who.startedAt,
                                   pc.who.token, h.now), AwaitHealth(pc.r, pc.who))
  {
    hide Write, SetRuntimeRow;
  }

  lemma LaunchEffect(h: Host, pc: Pc, c: Choice, p: Path)
    requires pc.Exec? || pc.Capture? || pc.Record?
    ensures Effect(h, pc, c, ActLaunch(h, pc, c).0, p)
  {
    hide Effect, Write, SetRuntimeRow, ActLaunch;
    if pc.Record? {
      var r, who := pc.r, pc.who;
      RecordWrites(h, pc, c);
      RuntimeEffect(h, pc, c, p, r.spec.id, who.pid, r.spec.port, who.command, who.startedAt, who.token,
          AwaitHealth(r, who));
    } else {
      LaunchFrame(h, pc, c);
      NoEffect(h, pc, c, ActLaunch(h, pc, c).0, p);
    }
  }

  lemma PollEffect(h: Host, pc: Pc, c: Choice, p: Path)
    requires pc.AwaitHealth? || pc.AwaitReady?
    ensures Effect(h, pc, c, ActServe(h, pc, c).0, p)
  {
    hide Effect, Reconcile;
    NoEffect(h, pc, c, ActServe(h, pc, c).0, p);
  }

  lemma ServeEffect(h: Host, pc: Pc, c: Choice, p: Path)
    requires pc.AwaitHealth? || pc.ToHealthy? || pc.AwaitReady? || pc.ToRegistering? || pc.ToUnregistered?
    ensures Effect(h, pc, c, ActServe(h, pc, c).0, p)
  {
    hide Effect, Move, Reconcile;
    match pc
    case ToHealthy(r, who) => MoveEffect(h, pc, c, p, r.spec.id, Starting, Healthy, "", AwaitReady(r, who));
    case ToRegistering(r, who) => MoveEffect(h, pc, c, p, r.spec.id, Healthy, Registering, "", ToUnregistered(r, who));
    case ToUnregistered(r, who) =>
      MoveEffect(h, pc, c, p, r.spec.id, Registering, UnregisteredHealthy,
          "gateway registration not implemented yet (M4)",
                 Deployed(r));
    case AwaitHealth(_, _) => PollEffect(h, pc, c, p);
    case AwaitReady(_, _) => PollEffect(h, pc, c, p);
  }

  lemma StopEffect(h: Host, goal: Goal, pc: Pc, c: Choice, p: Path)
    requires pc.CheckRuntime? || pc.StopRuntime? || pc.AwaitExit?
    ensures Effect(h, pc, c, ActStop(h, pc, c).0, p)
  {
    hide Effect, Reconcile, DecideStop;
    NoEffect(h, pc, c, ActStop(h, pc, c).0, p);
  }

  lemma FailEffect(h: Host, pc: Pc, c: Choice, p: Path)
    requires pc.FailStop? || pc.FailAwait? || pc.FailMark?
    ensures Effect(h, pc, c, ActFail(h, pc, c).0, p)
  {
    hide Effect, Move, DecideStop;
    if pc.FailMark? {
      MoveEffect(h, pc, c, p, pc.r.spec.id, pc.from, Failed, "cause", DeployFailed(pc.r));
    } else {
      NoEffect(h, pc, c, ActFail(h, pc, c).0, p);
    }
  }

  lemma ActEffect(h: Host, goal: Goal, pc: Pc, c: Choice, p: Path)
    requires PcInv(h, pc)
    ensures Effect(h, pc, c, Act(h, goal, pc, c).0, p)
  {
    hide Effect, PcInv, ActRecovery, ActDestroy, ActStop, ActRemove, ActCreate, ActPrepare, ActLaunch, ActServe,
         ActFail;
    if pc.ListRows? || pc.Recover? || pc.Adopt? || pc.Settle? || pc.MarkCrashed? {
      RecoveryEffect(h, pc, c, p);
    } else if pc.DestroyNext? || pc.MarkFailed? || pc.MarkDestroying? || pc.MarkDestroyed? || pc.Purge? {
      DestroyEffect(h, pc, c, p);
    } else if pc.CheckRuntime? || pc.StopRuntime? || pc.AwaitExit? {
      StopEffect(h, goal, pc, c, p);
    } else if pc.CheckOwner? || pc.RemoveLog? || pc.RemoveDir? || pc.RemoveCache? || pc.RemoveCacheRest? {
      RemovalEffect(h, pc, c, p);
    } else if pc.ClearTombstone? || pc.CreateRecord? {
      CreateEffect(h, pc, c, p);
    } else if pc.ToValidating? || pc.WriteKey? || pc.MakeCache? || pc.ClaimCache? || pc.ToDownloading?
              || pc.WriteIntent? || pc.ToStarting? {
      PrepareEffect(h, pc, c, p);
    } else if pc.Exec? || pc.Capture? || pc.Record? {
      LaunchEffect(h, pc, c, p);
    } else if pc.AwaitHealth? || pc.ToHealthy? || pc.AwaitReady? || pc.ToRegistering? || pc.ToUnregistered? {
      ServeEffect(h, pc, c, p);
    } else if pc.FailStop? || pc.FailAwait? || pc.FailMark? {
      FailEffect(h, pc, c, p);
    } else {
      NoEffect(h, pc, c, h, p);
    }
  }

  /** The lock holder's effect, or an environment step that leaves rows and markers alone. */
  ghost predicate StepEffect(w: World, e: Event, after: Host, p: Path) {
    || Aside(w.host, after)
    || (&& e.Advance? && e.c in w.cmds && w.lock == Some(e.c) && PcInv(w.host, w.cmds[e.c].pc)
        && Effect(w.host, w.cmds[e.c].pc, e.choice, after, p))
  }

  lemma StepHasEffect(w: World, e: Event, p: Path)
    requires WorldInv(w)
    ensures StepEffect(w, e, Step(w, e).host, p)
  {
    hide Inv, NoImposter, Act, Effect, PcInv, Aside, Env;
    if e.Advance? && e.c in w.cmds && Holding(w.cmds[e.c].pc) {
      assert CmdInv(w, e.c);
      ActEffect(w.host, w.cmds[e.c].goal, w.cmds[e.c].pc, e.choice, p);
      AsideOfItself(w.host);
    } else {
      OtherEvents(w, e);
    }
  }

  /** A row that stays keeps its key. */
  lemma StepKeepsKey(w: World, e: Event, id: string)
    requires WorldInv(w) && id in w.host.rows && id in Step(w, e).host.rows
    ensures Step(w, e).host.rows[id].key == w.host.rows[id].key
  {
    hide WorldInv, Step, CacheEffect;
    StepHasEffect(w, e, w.host.root);
  }
}
