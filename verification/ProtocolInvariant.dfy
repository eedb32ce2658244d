/** What holds at each program counter, and why no event can break it. */
module ProtocolInvariant {
  import opened Basics
  import opened Phases
  import opened Store
  import opened Supervisor
  import opened Recovery
  import opened Files
  import opened Host
  import opened Protocol

  /** The command's copy of a row agrees with the store, up to the bookkeeping it does not use. */
  predicate Snap(rows: Rows, d: Deployment) {
    d.id in rows && rows[d.id].(updatedAt := d.updatedAt, failureReason := d.failureReason) == d
  }

  /** Rows still to be processed, exactly as stored. */
  predicate Queue(rows: Rows, todo: seq<Deployment>) {
    Distinct(todo) && forall d {:trigger d in todo} :: d in todo ==> d.id in rows && rows[d.id] == d
  }

  /** Every row outside `pending` has left the phases that only a deploy command passes through. */
  predicate SettledBut(rows: Rows, pending: set<string>) {
    forall id :: id in rows && id !in pending ==> !Early(rows[id].phase)
  }

  predicate DestroyedBut(rows: Rows, pending: set<string>) {
    forall id :: id in rows && id !in pending ==> rows[id].phase == Destroyed
  }

  predicate JobOk(rows: Rows, pending: set<string>, job: Job) {
    job.ReplaceJob? ==> ValidSpec(job.spec) && DestroyedBut(rows, pending)
  }

  predicate Pending(rows: Rows, d: Deployment, todo: seq<Deployment>) {
    Queue(rows, todo) && d.id !in Ids(todo) && Snap(rows, d)
  }

  /** destroyOne is working on `d`. */
  predicate Current(h: Host, d: Deployment, todo: seq<Deployment>, job: Job) {
    && Pending(h.rows, d, todo)
    && (forall t {:trigger t in todo} :: t in todo ==> !Early(t.phase))
    && JobOk(h.rows, Ids(todo) + {d.id}, job)
  }

  /** The group that Stop is emptying holds only the launch it verified. */
  predicate OnlyLaunch(procs: Procs, who: Ident) {
    forall p :: p in procs && procs[p].pgid == who.pid ==> procs[p].origin == Some(IdOf(who))
  }

  predicate CacheAs(h: Host, d: Deployment, owned: bool) {
    var p := CachePath(h.root, d);
    if owned then p in h.files.caches && h.files.caches[p].marker == Some(d.key) else p !in h.files.caches
  }

  /** The row of the deployment being launched. */
  predicate Mine(h: Host, r: Run, phase: Phase) {
    && r.spec.id in h.rows
    && ValidSpec(r.spec)
    && var d := h.rows[r.spec.id];
       d.key == r.key && d.phase == phase && d.cacheDir == Some(r.spec.cache)
  }

  /** The cache of the deployment being launched carries its key. */
  predicate Claimed(h: Host, r: Run) {
    r.spec.cache in h.files.caches && h.files.caches[r.spec.cache].marker == Some(r.key)
  }

  predicate LaunchedAs(h: Host, r: Run, who: Ident) {
    who.pid > 0 && IdOf(who) in h.launches && h.launches[IdOf(who)] == Owner(r.spec.id, r.key)
  }

  /** The runtime is recorded in the row. */
  predicate RecordedAs(h: Host, r: Run, who: Ident) {
    && r.spec.id in h.rows
    && LaunchedAs(h, r, who)
    && RuntimeOf(h.rows[r.spec.id]) == who
  }

  // ----- one predicate for each kind of program counter -----

  predicate AtRecover(h: Host, todo: seq<Deployment>) {
    Queue(h.rows, todo) && SettledBut(h.rows, Ids(todo))
  }

  /** Recovery is working on `d`. */
  predicate InRecovery(h: Host, d: Deployment, todo: seq<Deployment>) {
    Pending(h.rows, d, todo) && SettledBut(h.rows, Ids(todo) + {d.id})
  }

  predicate AtAdopt(h: Host, d: Deployment, m: Ident, todo: seq<Deployment>) {
    && InRecovery(h, d, todo)
    && d.phase == Starting && d.pid == 0
    && m.pid > 0 && IdOf(m) in h.launches && h.launches[IdOf(m)] == OwnerOf(d)
  }

  ghost predicate AtSettle(h: Host, d: Deployment, todo: seq<Deployment>) {
    InRecovery(h, d, todo) && !Teardown(d.phase) && (d.pid == 0 ==> NoneLive(h, OwnerOf(d)))
  }

  predicate AtMarkCrashed(h: Host, d: Deployment, todo: seq<Deployment>) {
    InRecovery(h, d, todo) && !Teardown(d.phase) && d.pid != 0
  }

  predicate AtDestroyNext(h: Host, todo: seq<Deployment>, job: Job) {
    Queue(h.rows, todo) && (forall t {:trigger t in todo} :: t in todo ==> !Early(t.phase))
        && JobOk(h.rows, Ids(todo), job)
  }

  predicate AtMark(h: Host, d: Deployment, todo: seq<Deployment>, job: Job, from: set<Phase>) {
    Current(h, d, todo, job) && d.phase in from
  }

  predicate AtStop(h: Host, d: Deployment, todo: seq<Deployment>, job: Job) {
    Current(h, d, todo, job) && d.phase == Destroying && d.pid > 0
  }

  predicate AtAwaitExit(h: Host, d: Deployment, todo: seq<Deployment>, job: Job) {
    AtStop(h, d, todo, job) && OnlyLaunch(h.procs, RuntimeOf(d))
  }

  /** The runtime of `d` is gone, and its files are being removed. */
  ghost predicate AtRemove(h: Host, d: Deployment, todo: seq<Deployment>, job: Job) {
    Current(h, d, todo, job) && d.phase == Destroying && NoneLive(h, OwnerOf(d))
  }

  ghost predicate AtRemoveLog(h: Host, d: Deployment, owned: bool, todo: seq<Deployment>, job: Job) {
    AtRemove(h, d, todo, job) && CacheAs(h, d, owned)
  }

  ghost predicate AtRemoveDir(h: Host, d: Deployment, owned: bool, todo: seq<Deployment>, job: Job) {
    AtRemoveLog(h, d, owned, todo, job) && d.id !in h.files.logs
  }

  ghost predicate AtRemoveRest(h: Host, d: Deployment, todo: seq<Deployment>, job: Job) {
    AtRemove(h, d, todo, job) && d.id !in h.files.logs && d.id !in h.files.dirs
  }

  /** The cache has lost its marker, and with it the proof of ownership. */
  ghost predicate AtRemoveTail(h: Host, d: Deployment, todo: seq<Deployment>, job: Job) {
    && AtRemoveRest(h, d, todo, job)
    && var p := CachePath(h.root, d);
       p in h.files.caches && h.files.caches[p].marker == None
  }

  ghost predicate AtRemoveCache(h: Host, d: Deployment, todo: seq<Deployment>, job: Job) {
    AtRemoveRest(h, d, todo, job) && CacheAs(h, d, true)
  }

  ghost predicate AtMarkDestroyed(h: Host, d: Deployment, todo: seq<Deployment>, job: Job) {
    AtRemove(h, d, todo, job) && Gone(h.files, h.root, d)
  }

  predicate AtCreate(h: Host, spec: Spec) {
    ValidSpec(spec) && DestroyedBut(h.rows, {})
  }

  predicate AtToStarting(h: Host, r: Run) {
    Mine(h, r, Downloading) && h.rows[r.spec.id].command == r.spec.intent
  }

  ghost predicate AtExec(h: Host, r: Run) {
    && Mine(h, r, Starting)
    && h.rows[r.spec.id].pid == 0
    && h.rows[r.spec.id].command == r.spec.intent
    && h.rows[r.spec.id].updatedAt <= h.now
    && NeverLaunched(h, Owner(r.spec.id, r.key))
  }

  predicate AtRecord(h: Host, r: Run, who: Ident) {
    Mine(h, r, Starting) && h.rows[r.spec.id].pid == 0 && LaunchedAs(h, r, who)
  }

  predicate AtCapture(h: Host, r: Run, who: Ident) {
    AtRecord(h, r, who) && OnlyLaunch(h.procs, who)
  }

  /** The runtime is recorded and its deployment is in phase `phase`. */
  predicate Serving(h: Host, r: Run, who: Ident, phase: Phase) {
    Mine(h, r, phase) && RecordedAs(h, r, who)
  }

  predicate AtFailStop(h: Host, r: Run, who: Ident, from: Phase) {
    Serving(h, r, who, from) && from in {Starting, Healthy}
  }

  predicate AtFailAwait(h: Host, r: Run, who: Ident, from: Phase) {
    AtFailStop(h, r, who, from) && OnlyLaunch(h.procs, who)
  }

  ghost predicate AtFailMark(h: Host, r: Run, from: Phase) {
    && Mine(h, r, from) && from in {Validating, Downloading, Starting, Healthy}
    && (h.rows[r.spec.id].pid == 0 ==> NoneLive(h, Owner(r.spec.id, r.key)))
  }

  // ----- where a command may be, by the part of its work -----

  ghost predicate RecoveryInv(h: Host, pc: Pc) {
    match pc
    case Recover(todo) => AtRecover(h, todo)
    case Adopt(d, m, todo) => AtAdopt(h, d, m, todo)
    case Settle(d, todo) => AtSettle(h, d, todo)
    case MarkCrashed(d, reason, todo) => AtMarkCrashed(h, d, todo)
    case Recovered => SettledBut(h.rows, {})
    case _ => true
  }

  ghost predicate DestroyInv(h: Host, pc: Pc) {
    match pc
    case DestroyNext(todo, job) => AtDestroyNext(h, todo, job)
    case MarkFailed(d, todo, job) => AtMark(h, d, todo, job, {Healthy, Registering})
    case MarkDestroying(d, todo, job) => AtMark(h, d, todo, job, {Ready, Failed, Crashed, UnregisteredHealthy})
    case CheckRuntime(d, todo, job) => AtStop(h, d, todo, job)
    case StopRuntime(d, todo, job) => AtStop(h, d, todo, job)
    case AwaitExit(d, killed, todo, job) => AtAwaitExit(h, d, todo, job)
    case Purge(d, todo, job) => AtMark(h, d, todo, job, {Destroyed})
    case _ => true
  }

  ghost predicate RemovalInv(h: Host, pc: Pc) {
    match pc
    case CheckOwner(d, todo, job) => AtRemove(h, d, todo, job)
    case RemoveLog(d, owned, todo, job) => AtRemoveLog(h, d, owned, todo, job)
    case RemoveDir(d, owned, todo, job) => AtRemoveDir(h, d, owned, todo, job)
    case RemoveCache(d, todo, job) => AtRemoveCache(h, d, todo, job)
    case RemoveCacheRest(d, todo, job) => AtRemoveTail(h, d, todo, job)
    case MarkDestroyed(d, todo, job) => AtMarkDestroyed(h, d, todo, job)
    case _ => true
  }

  ghost predicate PrepareInv(h: Host, pc: Pc) {
    match pc
    case ClearTombstone(spec) => AtCreate(h, spec)
    case CreateRecord(spec) => AtCreate(h, spec) && spec.id !in h.rows
    case ToValidating(r) => Mine(h, r, Requested)
    case WriteKey(r) => Mine(h, r, Validating)
    case MakeCache(r) => Mine(h, r, Validating)
    case ClaimCache(r) => Mine(h, r, Validating)
    case ToDownloading(r) => Mine(h, r, Validating)
    case WriteIntent(r) => Mine(h, r, Downloading)
    case ToStarting(r) => AtToStarting(h, r)
    case _ => true
  }

  ghost predicate ServeInv(h: Host, pc: Pc) {
    match pc
    case Exec(r) => AtExec(h, r)
    case Capture(r, who) => AtCapture(h, r, who)
    case Record(r, who) => AtRecord(h, r, who)
    case AwaitHealth(r, who) => Serving(h, r, who, Starting)
    case ToHealthy(r, who) => Serving(h, r, who, Starting) && WasHealthy(h, r.key, who)
    case AwaitReady(r, who) => Serving(h, r, who, Healthy)
    case ToRegistering(r, who) => Serving(h, r, who, Healthy) && WasReady(h, r.key, r.spec.id)
    case ToUnregistered(r, who) => Serving(h, r, who, Registering)
    case _ => true
  }

  ghost predicate EndInv(h: Host, pc: Pc) {
    match pc
    case FailStop(r, who, from) => AtFailStop(h, r, who, from)
    case FailAwait(r, who, killed, from) => AtFailAwait(h, r, who, from)
    case FailMark(r, from) => AtFailMark(h, r, from)
    case Deployed(r) => Mine(h, r, UnregisteredHealthy)
    case DeployFailed(r) => Mine(h, r, Failed)
    case StoreFault(_) => false
    case _ => true
  }

  /** What holds where the command is. */
  ghost predicate PcInv(h: Host, pc: Pc) {
    && RecoveryInv(h, pc) && DestroyInv(h, pc) && RemovalInv(h, pc) && PrepareInv(h, pc) && ServeInv(h, pc)
    && EndInv(h, pc)
  }

  // Each part says something only at its own counters.

  lemma RecoveryPart(h: Host, pc: Pc)
    requires pc.Recover? || pc.Adopt? || pc.Settle? || pc.MarkCrashed? || pc.Recovered?
    ensures PcInv(h, pc) <==> RecoveryInv(h, pc)
  {
    hide RecoveryInv;
  }

  lemma DestroyPart(h: Host, pc: Pc)
    requires pc.DestroyNext? || pc.MarkFailed? || pc.MarkDestroying? || pc.CheckRuntime? || pc.StopRuntime?
             || pc.AwaitExit? || pc.Purge?
    ensures PcInv(h, pc) <==> DestroyInv(h, pc)
  {
    hide DestroyInv;
  }

  lemma RemovalPart(h: Host, pc: Pc)
    requires pc.CheckOwner? || pc.RemoveLog? || pc.RemoveDir? || pc.RemoveCache? || pc.RemoveCacheRest?
             || pc.MarkDestroyed?
    ensures PcInv(h, pc) <==> RemovalInv(h, pc)
  {
    hide RemovalInv;
  }

  lemma PreparePart(h: Host, pc: Pc)
    requires pc.ClearTombstone? || pc.CreateRecord? || pc.ToValidating? || pc.WriteKey? || pc.MakeCache?
             || pc.ClaimCache? || pc.ToDownloading? || pc.WriteIntent? || pc.ToStarting?
    ensures PcInv(h, pc) <==> PrepareInv(h, pc)
  {
    hide PrepareInv;
  }

  lemma ServePart(h: Host, pc: Pc)
    requires pc.Exec? || pc.Capture? || pc.Record? || pc.AwaitHealth? || pc.ToHealthy? || pc.AwaitReady?
             || pc.ToRegistering? || pc.ToUnregistered?
    ensures PcInv(h, pc) <==> ServeInv(h, pc)
  {
    hide ServeInv;
  }

  lemma EndPart(h: Host, pc: Pc)
    requires pc.FailStop? || pc.FailAwait? || pc.FailMark? || pc.Deployed? || pc.DeployFailed?
    ensures PcInv(h, pc) <==> EndInv(h, pc)
  {
    hide EndInv;
  }

  lemma NoPart(h: Host, pc: Pc)
    requires pc.Idle? || pc.ListRows? || pc.Ended?
    ensures PcInv(h, pc)
  {
  }

  /** The outcome of an effect: a sound machine, and the command where it may be. */
  ghost predicate Good(r: (Host, Pc)) {
    Inv(r.0) && PcInv(r.0, r.1)
  }

  // ----- one row changes -----

  /** Whether a row is sound depends neither on the other rows nor on the process table. */
  lemma RowOkFrame(h: Host, rows: Rows)
    ensures forall d :: RowOk(h.(rows := rows), d) == RowOk(h, d)
  {
  }

  /** Replacing a row keeps the invariant if the new row is sound, alone, and still accounts for what is alive. */
  lemma UpdateRow(h: Host, d: Deployment)
    requires Inv(h) && RowOk(h, d)
    requires Active(d) ==> DestroyedBut(h.rows, {d.id})
    requires forall l :: l in h.launches && h.launches[l].id == d.id && Live(h.procs, l)
                         ==> h.launches[l].key == d.key && Claims(h.procs, d, l)
    ensures Inv(h.(rows := h.rows[d.id := d]))
  {
    var rows := h.rows[d.id := d];
    RowOkFrame(h, rows);
    forall i, j | BothActive(rows, i, j) ensures i == j {
      if i != d.id && j != d.id {
        assert BothActive(h.rows, i, j);
      }
    }
    forall l | l in h.launches && Live(h.procs, l) ensures AccountedFor(rows, h.procs, h.launches[l], l) {
      assert AccountedFor(h.rows, h.procs, h.launches[l], l);
    }
  }

  lemma DropRow(h: Host, id: string)
    requires Inv(h) && id in h.rows && h.rows[id].phase == Destroyed
    ensures Inv(h.(rows := h.rows - {id}))
  {
    var rows := h.rows - {id};
    RowOkFrame(h, rows);
    forall i, j | BothActive(rows, i, j) ensures i == j {
      assert BothActive(h.rows, i, j);
    }
    forall l | l in h.launches && Live(h.procs, l) ensures AccountedFor(rows, h.procs, h.launches[l], l) {
      assert AccountedFor(h.rows, h.procs, h.launches[l], l);
    }
  }

  /** Nothing is alive that was launched for an id without a row, or whose row cannot account for it. */
  lemma NobodyLive(h: Host, id: string)
    requires Inv(h)
    requires id in h.rows ==> h.rows[id].phase in {Requested, Validating, Downloading, Destroyed}
    ensures forall l :: l in h.launches && h.launches[l].id == id ==> !Live(h.procs, l)
  {
    if id in h.rows {
      assert RowOk(h, h.rows[id]) && h.rows[id].id == id;
    }
    forall l | l in h.launches && h.launches[l].id == id ensures !Live(h.procs, l) {
      assert Live(h.procs, l) ==> AccountedFor(h.rows, h.procs, h.launches[l], l);
      assert h.launches[l] == Owner(h.launches[l].id, h.launches[l].key);
    }
  }

  lemma OnlyActive(h: Host, id: string)
    requires Inv(h) && id in h.rows && Active(h.rows[id])
    ensures DestroyedBut(h.rows, {id})
  {
    forall i | i in h.rows && i !in {id} ensures h.rows[i].phase == Destroyed {
      assert Active(h.rows[i]) ==> BothActive(h.rows, i, id);
    }
  }

  /** What a row must meet before it may enter `to`. */
  ghost predicate MayEnter(h: Host, d: Deployment, to: Phase) {
    && (to in {Requested, Validating, Downloading} ==> d.phase in {Requested, Validating, Downloading})
    && (to in {Healthy, Registering, Ready, UnregisteredHealthy} ==>
          d.pid != 0 && WasHealthy(h, d.key, RuntimeOf(d)))
    && (to in {Registering, Ready, UnregisteredHealthy} ==> WasReady(h, d.key, d.id))
    && (to == Destroyed ==> Gone(h.files, h.root, d) && NoneLive(h, OwnerOf(d)))
    && (d.pid == 0 && d.phase == Starting ==> NoneLive(h, OwnerOf(d)))
  }

  function Moved(d: Deployment, to: Phase, reason: string, now: int): Deployment {
    d.(phase := to, updatedAt := WholeSeconds(now),
       failureReason := if to == Failed || to == Crashed then reason else "")
  }

  lemma MovedRowOk(h: Host, d: Deployment, to: Phase, reason: string)
    requires RowOk(h, d) && Legal(d.phase, to) && MayEnter(h, d, to)
    ensures RowOk(h, Moved(d, to, reason, h.now))
  {
    var d' := Moved(d, to, reason, h.now);
    assert CachePath(h.root, d') == CachePath(h.root, d) && OwnerOf(d') == OwnerOf(d);
  }

  /** A transition whose expected phase is the stored one and whose edge is legal succeeds and keeps the invariant. */
  lemma MoveKeeps(h: Host, id: string, from: Phase, to: Phase, reason: string, next: Pc)
    requires Inv(h) && id in h.rows && h.rows[id].phase == from && Legal(from, to)
    requires MayEnter(h, h.rows[id], to)
    ensures Move(h, id, from, to, reason, next)
         == (h.(rows := h.rows[id := Moved(h.rows[id], to, reason, h.now)]), next)
    ensures Inv(h.(rows := h.rows[id := Moved(h.rows[id], to, reason, h.now)]))
  {
    hide Candidates, RowOk;
    var d := h.rows[id];
    var d' := Moved(d, to, reason, h.now);
    assert RowOk(h, d);
    MovedRowOk(h, d, to, reason);
    forall l | l in h.launches && h.launches[l].id == id && Live(h.procs, l)
      ensures h.launches[l].key == d'.key && Claims(h.procs, d', l)
    {
      assert AccountedFor(h.rows, h.procs, h.launches[l], l);
      assert h.launches[l] == OwnerOf(d);
    }
    OnlyActive(h, id);
    UpdateRow(h, d');
  }
}
