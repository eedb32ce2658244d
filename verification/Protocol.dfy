/**
 * The lifecycle commands as processes that share one machine, interleave, and may die between any two effects.
 *
 * A command is a program counter. `Act` performs its next single effect on the store, the files or a process;
 * whatever the command cannot decide is the `Choice` it is given. `Step` applies one event to the world; an event
 * that cannot happen in a world leaves it unchanged, so a run is simply a sequence of events.
 */
module Protocol {
  import opened Basics
  import opened Text
  import opened Phases
  import opened Store
  import opened Supervisor
  import opened Recovery
  import opened Files
  import opened Host

  /** What resolveSpec and preflight settle for a new deployment. */
  datatype Spec = Spec(id: string, port: int, cache: Path, intent: string)

  /** A deployment being launched: its spec and its idempotency key. */
  datatype Run = Run(spec: Spec, key: string)

  datatype Goal =
    | DeployGoal(replace: bool)
    | DestroyGoal(target: Option<string>, purge: bool)
    | StatusGoal

  /** What a destroy loop is part of: `iold destroy`, or the replacement of every deployment by a new one. */
  datatype Job = DestroyJob(purge: bool) | ReplaceJob(spec: Spec)

  datatype Pc =
    | Idle
    // recoverInterruptedDeployments
    | ListRows
    | Recover(todo: seq<Deployment>)
    | Adopt(d: Deployment, m: Ident, todo: seq<Deployment>)
    | Settle(d: Deployment, todo: seq<Deployment>)
    | MarkCrashed(d: Deployment, reason: string, todo: seq<Deployment>)
    | Recovered
    // destroyOne, over the records still to destroy
    | DestroyNext(todo: seq<Deployment>, job: Job)
    | MarkFailed(d: Deployment, todo: seq<Deployment>, job: Job)
    | MarkDestroying(d: Deployment, todo: seq<Deployment>, job: Job)
    | CheckRuntime(d: Deployment, todo: seq<Deployment>, job: Job)
    | StopRuntime(d: Deployment, todo: seq<Deployment>, job: Job)
    | AwaitExit(d: Deployment, killed: bool, todo: seq<Deployment>, job: Job)
    | CheckOwner(d: Deployment, todo: seq<Deployment>, job: Job)
    | RemoveLog(d: Deployment, owned: bool, todo: seq<Deployment>, job: Job)
    | RemoveDir(d: Deployment, owned: bool, todo: seq<Deployment>, job: Job)
    | RemoveCache(d: Deployment, todo: seq<Deployment>, job: Job)
    | RemoveCacheRest(d: Deployment, todo: seq<Deployment>, job: Job)
    | MarkDestroyed(d: Deployment, todo: seq<Deployment>, job: Job)
    | Purge(d: Deployment, todo: seq<Deployment>, job: Job)
    // runDeploy after the replacement, and executeDeploy
    | ClearTombstone(spec: Spec)
    | CreateRecord(spec: Spec)
    | ToValidating(r: Run)
    | WriteKey(r: Run)
    | MakeCache(r: Run)
    | ClaimCache(r: Run)
    | ToDownloading(r: Run)
    | WriteIntent(r: Run)
    | ToStarting(r: Run)
    | Exec(r: Run)
    | Capture(r: Run, who: Ident)
    | Record(r: Run, who: Ident)
    | AwaitHealth(r: Run, who: Ident)
    | ToHealthy(r: Run, who: Ident)
    | AwaitReady(r: Run, who: Ident)
    | ToRegistering(r: Run, who: Ident)
    | ToUnregistered(r: Run, who: Ident)
    // the fail closure
    | FailStop(r: Run, who: Ident, from: Phase)
    | FailAwait(r: Run, who: Ident, killed: bool, from: Phase)
    | FailMark(r: Run, from: Phase)
    // ends
    | Deployed(r: Run)
    | DeployFailed(r: Run)
    | Ended
    | StoreFault(error: StoreError)

  /** What the environment answers to one effect. */
  datatype Choice =
    | Proceed
    | IoError
    | Listing(rows: seq<Deployment>)
    | Identity(reading: Reading)
    | Resolved(rows: seq<Deployment>, spec: Spec)
    | FreshKey(key: string)
    | Spawned(pid: int, token: string, startedAt: int, command: string)
    | Answered(reading: Reading)
    | NotYet(reading: Reading)
    | Expired(reading: Reading)
    | MarkerFirst
    | PartialMarker(text: string)

  /** A command past its lock acquisition. */
  predicate Holding(pc: Pc) {
    !pc.Idle?
  }

  function Ids(s: seq<Deployment>): set<string> {
    set d | d in s :: d.id
  }

  predicate Distinct(s: seq<Deployment>) {
    forall i, j :: 0 <= i < j < |s| ==> s[i].id != s[j].id
  }

  /** A store statement: its effect and what comes next, or the fault that ends the command. */
  function Write(h: Host, r: Result<Rows, StoreError>, next: Pc): (Host, Pc) {
    match r
    case Ok(rows) => (h.(rows := rows), next)
    case Err(e) => (h, StoreFault(e))
  }

  function Move(h: Host, id: string, from: Phase, to: Phase, reason: string, next: Pc): (Host, Pc) {
    Write(h, TransitionRow(h.rows, id, from, to, reason, h.now), next)
  }

  // ----- recovery -----

  ghost function ActRecovery(h: Host, pc: Pc, c: Choice): (r: (Host, Pc))
    requires pc.ListRows? || pc.Recover? || pc.Adopt? || pc.Settle? || pc.MarkCrashed?
    ensures Holding(r.1)
  {
    match pc
    case ListRows => if c.Listing? && Enumerates(c.rows, h.rows) then (h, Recover(c.rows)) else (h, pc)
    case Recover(todo) =>
      if todo == [] then (h, Recovered)
      else
        var d, rest := todo[0], todo[1..];
        if Teardown(d.phase) then (h, Recover(rest))
        else if d.phase == Starting && d.pid == 0 && d.command != "" then
          if c == IoError then (h, Ended)
          else (
            match Only(Candidates(h.procs, d.command, d.updatedAt))
            case Some(p) => (h, Adopt(d, IdentOf(h.procs, p), rest))
            case None => (h, Settle(d, rest)))
        else (h, Settle(d, rest))
    case Adopt(d, m, todo) =>
      Write(h, SetRuntimeRow(h.rows, d.id, m.pid, d.port, m.command, m.startedAt, m.token, h.now),
            Settle(RowAdopted(d, m), todo))
    case Settle(d, todo) =>
      if d.pid == 0 then Move(h, d.id, d.phase, Crashed, NO_IDENTITY, Recover(todo))
      else if !c.Identity? then (h, pc)
      else (
        match Reconcile(h.procs, RuntimeOf(d), c.reading)
        case Running => (h, if Early(d.phase) then MarkCrashed(d, ADOPTED, todo) else Recover(todo))
        case Stale => (h, MarkCrashed(d, GONE, todo))
        case Reused => (h, MarkCrashed(d, REUSED, todo))
        case Unknown => (h, Ended))
    case MarkCrashed(d, reason, todo) => Move(h, d.id, d.phase, Crashed, reason, Recover(todo))
  }

  // ----- after recovery: what the command was for -----

  predicate ValidSpec(spec: Spec) {
    ValidId(spec.id) && spec.cache.absolute && LastElement(spec.cache) == spec.id && Fields(spec.intent) != []
  }

  function ActRecovered(h: Host, goal: Goal, c: Choice): (r: (Host, Pc))
    ensures Holding(r.1)
  {
    match goal
    case StatusGoal => (h, Ended)
    case DestroyGoal(None, purge) =>
      if c.Listing? && Enumerates(c.rows, h.rows) then (h, DestroyNext(c.rows, DestroyJob(purge))) else (h, Recovered)
    case DestroyGoal(Some(id), purge) =>
      if id in h.rows then (h, DestroyNext([h.rows[id]], DestroyJob(purge))) else (h, Ended)
    case DeployGoal(replace) =>
      if !replace && exists id :: id in h.rows && Active(h.rows[id]) then (h, Ended)
      else if c == IoError then (h, Ended)
      else if c.Resolved? && ValidSpec(c.spec) && Enumerates(c.rows, h.rows)
      then (h, DestroyNext(Filter(c.rows, d => Active(d)), ReplaceJob(c.spec)))
      else (h, Recovered)
  }

  // ----- destroyOne -----

  function Purges(job: Job): bool {
    job.ReplaceJob? || job.purge
  }

  /** After a failure `iold destroy` goes on with the next record; a replacement gives up. */
  function Abandon(todo: seq<Deployment>, job: Job): Pc {
    if job.ReplaceJob? then Ended else DestroyNext(todo, job)
  }

  /** What follows once the record says DESTROYING. */
  function AfterMarked(d: Deployment, todo: seq<Deployment>, job: Job): Pc {
    if d.pid > 0 then CheckRuntime(d, todo, job) else CheckOwner(d, todo, job)
  }

  function AfterDestroyed(d: Deployment, todo: seq<Deployment>, job: Job): Pc {
    if Purges(job) then Purge(d, todo, job) else DestroyNext(todo, job)
  }

  /** How destroyOne starts, by the phase it reads. */
  function Dispatch(d: Deployment, todo: seq<Deployment>, job: Job): Pc {
    match d.phase
    case Destroyed => AfterDestroyed(d, todo, job)
    case Destroying => AfterMarked(d, todo, job)
    case Ready => MarkDestroying(d, todo, job)
    case Failed => MarkDestroying(d, todo, job)
    case Crashed => MarkDestroying(d, todo, job)
    case UnregisteredHealthy => MarkDestroying(d, todo, job)
    case _ => MarkFailed(d, todo, job)
  }

  function Send(h: Host, signal: Signal, target: Ident): Host {
    h.(signals := h.signals + [SentSignal(signal, target, Group(h.procs, target.pid))])
  }

  function ActDestroy(h: Host, pc: Pc, c: Choice): (r: (Host, Pc))
    requires pc.DestroyNext? || pc.MarkFailed? || pc.MarkDestroying? || pc.MarkDestroyed? || pc.Purge?
    ensures Holding(r.1)
  {
    match pc
    case DestroyNext(todo, job) =>
      if todo == [] then (h, if job.ReplaceJob? then ClearTombstone(job.spec) else Ended)
      else
        (h, Dispatch(todo[0], todo[1..], job))
    case MarkFailed(d, todo, job) =>
      Move(h, d.id, d.phase, Failed, "destroy requested", MarkDestroying(d.(phase := Failed), todo, job))
    case MarkDestroying(d, todo, job) =>
      Move(h, d.id, d.phase, Destroying, "", AfterMarked(d.(phase := Destroying), todo, job))
    case MarkDestroyed(d, todo, job) =>
      Move(h, d.id, Destroying, Destroyed, "", AfterDestroyed(d.(phase := Destroyed), todo, job))
    case Purge(d, todo, job) => Write(h, DeleteRow(h.rows, d.id), DestroyNext(todo, job))
  }

  function ActStop(h: Host, pc: Pc, c: Choice): (r: (Host, Pc))
    requires pc.CheckRuntime? || pc.StopRuntime? || pc.AwaitExit?
    ensures Holding(r.1)
  {
    match pc
    case CheckRuntime(d, todo, job) =>
      if !c.Identity? then (h, pc)
      else
        var status := Reconcile(h.procs, RuntimeOf(d), c.reading);
        (h, if status == Running || status == Stale then StopRuntime(d, todo, job) else Abandon(todo, job))
    case StopRuntime(d, todo, job) =>
      if c == IoError then (h, Abandon(todo, job))
      else if !c.Identity? then (h, pc)
      else (
        match DecideStop(h.procs, RuntimeOf(d), c.reading)
        case AlreadyGone => (h, CheckOwner(d, todo, job))
        case Refuse => (h, Abandon(todo, job))
        case SignalGroup => (Send(h, Term, RuntimeOf(d)), AwaitExit(d, false, todo, job)))
    case AwaitExit(d, killed, todo, job) =>
      if c == IoError then (h, Abandon(todo, job))
      else if !c.Expired? then (h, if GroupAlive(h.procs, d.pid) then pc else CheckOwner(d, todo, job))
      else if killed then (h, Abandon(todo, job))
      else (Send(h, Kill, RuntimeOf(d)), AwaitExit(d, true, todo, job))
  }

  /** removeOwnedData: a filesystem error abandons the record where it stands. */
  function ActRemove(h: Host, pc: Pc, c: Choice): (r: (Host, Pc))
    requires pc.CheckOwner? || pc.RemoveLog? || pc.RemoveDir? || pc.RemoveCache? || pc.RemoveCacheRest?
    ensures Holding(r.1)
  {
    if c == IoError then (h, Abandon(pc.todo, pc.job)) else RemoveNext(h, pc, c)
  }

  function RemoveNext(h: Host, pc: Pc, c: Choice): (r: (Host, Pc))
    requires pc.CheckOwner? || pc.RemoveLog? || pc.RemoveDir? || pc.RemoveCache? || pc.RemoveCacheRest?
    ensures Holding(r.1)
  {
    match pc
    case CheckOwner(d, todo, job) =>
      var owner := CacheOwnership(h.files, CachePath(h.root, d), d.id, d.key);
      (h, if !ValidId(d.id) || owner == Refused then Abandon(todo, job) else RemoveLog(d, owner == Owned, todo, job))
    case RemoveLog(d, owned, todo, job) => (h.(files := DropLog(h.files, d.id)), RemoveDir(d, owned, todo, job))
    case RemoveDir(d, owned, todo, job) =>
      (h.(files := DropDir(h.files, d.id)), if owned then RemoveCache(d, todo, job) else MarkDestroyed(d, todo, job))
    case RemoveCache(d, todo, job) =>
      var p := CachePath(h.root, d);
      if c == MarkerFirst && p in h.files.caches
      then (h.(files := SetMarker(h.files, p, None)), RemoveCacheRest(d, todo, job))
      else (h.(files := DropCache(h.files, p)), MarkDestroyed(d, todo, job))
    case RemoveCacheRest(d, todo, job) =>
      (h.(files := DropCache(h.files, CachePath(h.root, d))), MarkDestroyed(d, todo, job))
  }

  // ----- runDeploy and executeDeploy -----

  function NewRow(spec: Spec, key: string): Deployment {
    Deployment(spec.id, spec.id, "", "", Some(spec.cache), spec.port, 0, "", 0, "", Requested, "", key, 0, 0)
  }

  function ActCreate(h: Host, pc: Pc, c: Choice): (r: (Host, Pc))
    requires pc.ClearTombstone? || pc.CreateRecord?
    ensures Holding(r.1)
  {
    match pc
    case ClearTombstone(spec) =>
      if spec.id in h.rows && h.rows[spec.id].phase == Destroyed
      then Write(h, DeleteRow(h.rows, spec.id), CreateRecord(spec))
      else (h, CreateRecord(spec))
    case CreateRecord(spec) =>
      if c.FreshKey? && c.key != "" && c.key !in h.keys
      then Write(h.(keys := h.keys + {c.key}), CreateRow(h.rows, NewRow(spec, c.key), h.now),
                 ToValidating(Run(spec, c.key)))
      else (h, pc)
  }

  function ActPrepare(h: Host, pc: Pc, c: Choice): (r: (Host, Pc))
    requires pc.ToValidating? || pc.WriteKey? || pc.MakeCache? || pc.ClaimCache? || pc.ToDownloading?
             || pc.WriteIntent? || pc.ToStarting?
    ensures Holding(r.1)
  {
    match pc
    case ToValidating(r) => Move(h, r.spec.id, Requested, Validating, "", WriteKey(r))
    case WriteKey(r) =>
      if c == IoError then (h, FailMark(r, Validating))
      else (h.(files := h.files.(dirs := h.files.dirs + {r.spec.id})), MakeCache(r))
    case MakeCache(r) =>
      if c == IoError then (h, FailMark(r, Validating))
      else if r.spec.cache in h.files.caches then (h, ClaimCache(r))
      else (h.(files := h.files.(caches := h.files.caches[r.spec.cache := Cache(None, false)])), ClaimCache(r))
    case ClaimCache(r) =>
      var p := r.spec.cache;
      if c == IoError || p !in h.files.caches then (h, FailMark(r, Validating))
      else if h.files.caches[p].marker == Some(r.key) then (h, ToDownloading(r))
      else if h.files.caches[p].marker.Some? || h.files.caches[p].payload then (h, FailMark(r, Validating))
      else if c.PartialMarker?
      then (h.(keys := h.keys + {c.text}, files := SetMarker(h.files, p, Some(c.text))), FailMark(r, Validating))
      else (h.(files := SetMarker(h.files, p, Some(r.key))), ToDownloading(r))
    case ToDownloading(r) => Move(h, r.spec.id, Validating, Downloading, "", WriteIntent(r))
    case WriteIntent(r) =>
      if c == IoError then (h, FailMark(r, Downloading))
      else Write(h, SetIntentRow(h.rows, r.spec.id, r.spec.port, r.spec.intent, h.now), ToStarting(r))
    case ToStarting(r) => Move(h, r.spec.id, Downloading, Starting, "", Exec(r))
  }

  /** A process may appear with this PID and token: neither is in use, and the pair never was. */
  predicate CanSpawn(h: Host, pid: int, token: string) {
    && pid > 0
    && pid !in h.procs
    && (forall p :: p in h.procs ==> h.procs[p].pgid != pid)
    && LaunchId(pid, token) !in h.ids
  }

  /** Exec succeeds with this new process, whose command line exec derived from the intent. */
  predicate Spawns(h: Host, r: Run, c: Choice) {
    && c.Spawned?
    && CanSpawn(h, c.pid, c.token)
    && h.now - SECOND <= c.startedAt <= h.now
    && MatchesCommandIntent(c.command, r.spec.intent)
  }

  function LogCreated(h: Host, r: Run): Host {
    h.(files := h.files.(logs := h.files.logs + {r.spec.id}))
  }

  /** What exec leaves behind: the leader of a new session, on record as this deployment's launch. */
  function Launched(h: Host, r: Run, c: Choice): Host
    requires c.Spawned?
  {
    var l := LaunchId(c.pid, c.token);
    LogCreated(h, r).(procs := h.procs[c.pid := Proc(c.token, c.startedAt, c.command, c.pid, Some(l))],
                      ids := h.ids + {l},
                      launches := h.launches[l := Owner(r.spec.id, r.key)])
  }

  function ActLaunch(h: Host, pc: Pc, c: Choice): (r: (Host, Pc))
    requires pc.Exec? || pc.Capture? || pc.Record?
    ensures Holding(r.1)
  {
    match pc
    case Exec(r) =>
      if c == IoError then (LogCreated(h, r), FailMark(r, Starting))
      else if Spawns(h, r, c) then (Launched(h, r, c), Capture(r, Ident(c.pid, c.command, c.startedAt, c.token)))
      else (h, pc)
    case Capture(r, who) =>
      // The command line once exec has filled it in, or the intent's own for a process that has already exited.
      if c == IoError
      then (Send(h, Kill, who).(procs := h.procs - Group(h.procs, who.pid).Keys), FailMark(r, Starting))
      else (h, Record(r, who.(command := if who.pid in h.procs then Normalize(who.command) else r.spec.intent)))
    case Record(r, who) =>
      Write(h, SetRuntimeRow(h.rows, r.spec.id, who.pid, r.spec.port, who.command, who.startedAt, who.token, h.now),
            AwaitHealth(r, who))
  }

  function ActServe(h: Host, pc: Pc, c: Choice): (r: (Host, Pc))
    requires pc.AwaitHealth? || pc.ToHealthy? || pc.AwaitReady? || pc.ToRegistering? || pc.ToUnregistered?
    ensures Holding(r.1)
  {
    match pc
    case AwaitHealth(r, who) =>
      if !(c.Answered? || c.NotYet? || c.Expired?) then (h, pc)
      else if Reconcile(h.procs, who, c.reading) != Running then (h, FailStop(r, who, Starting))
      else if c.Answered? then (h.(healthy := h.healthy[r.key := HealthAnswer(who, h.procs)]), ToHealthy(r, who))
      else if c.Expired? then (h, FailStop(r, who, Starting))
      else (h, pc)
    case ToHealthy(r, who) => Move(h, r.spec.id, Starting, Healthy, "", AwaitReady(r, who))
    case AwaitReady(r, who) =>
      if c.Answered? then (h.(ready := h.ready[r.key := r.spec.id]), ToRegistering(r, who))
      else if c.Expired? then (h, FailStop(r, who, Healthy))
      else (h, pc)
    case ToRegistering(r, who) => Move(h, r.spec.id, Healthy, Registering, "", ToUnregistered(r, who))
    case ToUnregistered(r, who) =>
      Move(h, r.spec.id, Registering, UnregisteredHealthy, "gateway registration not implemented yet (M4)", Deployed(r))
  }

  function ActFail(h: Host, pc: Pc, c: Choice): (r: (Host, Pc))
    requires pc.FailStop? || pc.FailAwait? || pc.FailMark?
    ensures Holding(r.1)
  {
    match pc
    case FailStop(r, who, from) =>
      if c == IoError then (h, FailMark(r, from))
      else if !c.Identity? then (h, pc)
      else if DecideStop(h.procs, who, c.reading) == SignalGroup
      then (Send(h, Term, who), FailAwait(r, who, false, from))
      else (h, FailMark(r, from))
    case FailAwait(r, who, killed, from) =>
      if c == IoError then (h, FailMark(r, from))
      else if !c.Expired? then (h, if GroupAlive(h.procs, who.pid) then pc else FailMark(r, from))
      else if killed then (h, FailMark(r, from))
      else (Send(h, Kill, who), FailAwait(r, who, true, from))
    case FailMark(r, from) => Move(h, r.spec.id, from, Failed, "cause", DeployFailed(r))
  }

  /** The next single effect of a command that has the lock; it keeps the lock until it ends. */
  ghost function Act(h: Host, goal: Goal, pc: Pc, c: Choice): (r: (Host, Pc))
    ensures Holding(pc) ==> Holding(r.1)
  {
    if pc.ListRows? || pc.Recover? || pc.Adopt? || pc.Settle? || pc.MarkCrashed? then ActRecovery(h, pc, c)
    else if pc.Recovered? then ActRecovered(h, goal, c)
    else if pc.DestroyNext? || pc.MarkFailed? || pc.MarkDestroying? || pc.MarkDestroyed? || pc.Purge?
      then ActDestroy(h, pc, c)
    else if pc.CheckRuntime? || pc.StopRuntime? || pc.AwaitExit? then ActStop(h, pc, c)
    else if pc.CheckOwner? || pc.RemoveLog? || pc.RemoveDir? || pc.RemoveCache? || pc.RemoveCacheRest?
      then ActRemove(h, pc, c)
    else if pc.ClearTombstone? || pc.CreateRecord? then ActCreate(h, pc, c)
    else if pc.ToValidating? || pc.WriteKey? || pc.MakeCache? || pc.ClaimCache? || pc.ToDownloading?
            || pc.WriteIntent? || pc.ToStarting? then ActPrepare(h, pc, c)
    else if pc.Exec? || pc.Capture? || pc.Record? then ActLaunch(h, pc, c)
    else if pc.AwaitHealth? || pc.ToHealthy? || pc.AwaitReady? || pc.ToRegistering? || pc.ToUnregistered?
      then ActServe(h, pc, c)
    else if pc.FailStop? || pc.FailAwait? || pc.FailMark? then ActFail(h, pc, c)
    else (h, pc)
  }

  // ----- the environment -----

  datatype EnvEvent =
    | Tick(delta: nat)
    | Foreign(pid: int, proc: Proc)
    | Fork(parent: int, pid: int, token: string, startedAt: int, command: string)
    | Exits(gone: set<int>)
    | Fill(path: Path)

  /** PIDs the kernel cannot recycle now: an unreaped child, or the group one Stop call is working on. */
  function Pinned(pc: Pc): set<int> {
    match pc
    case AwaitExit(d, _, _, _) => {d.pid}
    case Capture(_, who) => {who.pid}
    case FailAwait(_, who, _, _) => {who.pid}
    case _ => {}
  }

  /** The launch is recorded as the runtime of some row. */
  predicate Recorded(rows: Rows, l: LaunchId) {
    exists id :: id in rows && LaunchId(rows[id].pid, rows[id].startToken) == l
  }

  /** Processes may exit together if no leader leaves its group behind before its identity is recorded. */
  predicate CanExit(h: Host, gone: set<int>) {
    forall p, q :: p in gone && p in h.procs && q in h.procs && h.procs[p].origin.Some?
                   && h.procs[p].origin.value.pid == p && h.procs[q].origin == h.procs[p].origin
                   && !Recorded(h.rows, h.procs[p].origin.value)
      ==> q in gone
  }

  function Env(h: Host, pinned: set<int>, e: EnvEvent): Host {
    match e
    case Tick(delta) => h.(now := h.now + delta)
    case Foreign(pid, proc) =>
      if CanSpawn(h, pid, proc.token) && pid !in pinned && proc.origin == None && proc.pgid !in pinned
         && (forall q :: q in h.procs && h.procs[q].pgid == proc.pgid ==> h.procs[q].origin == None)
      then h.(procs := h.procs[pid := proc], ids := h.ids + {LaunchId(pid, proc.token)})
      else h
    case Fork(parent, pid, token, startedAt, command) =>
      if CanSpawn(h, pid, token) && pid !in pinned && parent in h.procs
      then h.(procs := h.procs[pid := h.procs[parent].(token := token, startedAt := startedAt, command := command)],
              ids := h.ids + {LaunchId(pid, token)})
      else h
    case Exits(gone) => if CanExit(h, gone) then h.(procs := h.procs - gone) else h
    case Fill(path) =>
      if path in h.files.caches
      then h.(files := h.files.(caches := h.files.caches[path := h.files.caches[path].(payload := true)]))
      else h
  }

  // ----- the world -----

  datatype Cmd = Cmd(goal: Goal, pc: Pc)

  /** The machine, the lifecycle lock, and the IOLD processes that exist. */
  datatype World = World(host: Host, lock: Option<nat>, cmds: map<nat, Cmd>)

  datatype Event =
    | Invoke(c: nat, goal: Goal)
    | Acquire(c: nat)
    | GiveUpLock(c: nat)
    | Advance(c: nat, choice: Choice)
    | Finish(c: nat)
    | Crash(c: nat)
    | Environment(e: EnvEvent)

  predicate IsEnd(pc: Pc) {
    pc.Deployed? || pc.DeployFailed? || pc.Ended? || pc.StoreFault?
  }

  /** The process is gone, and the kernel drops its lock. */
  function Without(w: World, c: nat): World {
    w.(cmds := w.cmds - {c}, lock := if w.lock == Some(c) then None else w.lock)
  }

  function AllPinned(cmds: map<nat, Cmd>): set<int> {
    set c, p | c in cmds && p in Pinned(cmds[c].pc) :: p
  }

  ghost function Attempt(w: World, e: Event): World {
    match e
    case Invoke(c, goal) => if c in w.cmds then w else w.(cmds := w.cmds[c := Cmd(goal, Idle)])
    case Acquire(c) =>
      if c in w.cmds && w.cmds[c].pc == Idle && w.lock == None
      then w.(lock := Some(c), cmds := w.cmds[c := w.cmds[c].(pc := ListRows)])
      else w
    case GiveUpLock(c) =>
      // status does not wait: it reports the rows as they are
      if c in w.cmds && w.cmds[c] == Cmd(StatusGoal, Idle) && w.lock != None then Without(w, c) else w
    case Advance(c, choice) =>
      if c in w.cmds && Holding(w.cmds[c].pc)
      then
        var (h, pc) := Act(w.host, w.cmds[c].goal, w.cmds[c].pc, choice);
        w.(host := h, cmds := w.cmds[c := w.cmds[c].(pc := pc)])
      else w
    case Finish(c) => if c in w.cmds && IsEnd(w.cmds[c].pc) then Without(w, c) else w
    case Crash(c) => if c in w.cmds then Without(w, c) else w
    case Environment(env) => w.(host := Env(w.host, AllPinned(w.cmds), env))
  }

  /** One event, under the assumption that no process poses as the runtime of a STARTING intent. */
  ghost function Step(w: World, e: Event): World {
    var next := Attempt(w, e);
    if NoImposter(next.host) then next else w
  }

  ghost function RunAll(w: World, events: seq<Event>): World
    decreases |events|
  {
    if events == [] then w else RunAll(Step(w, events[0]), events[1..])
  }

  /** Before the first command. */
  predicate Boot(w: World) {
    Fresh(w.host) && w.lock == None && w.cmds == map[]
  }

  /** A run as the worlds it passes through, one event between each two. */
  ghost predicate IsRun(worlds: seq<World>, events: seq<Event>) {
    && |worlds| == |events| + 1
    && Boot(worlds[0])
    && forall i :: 0 <= i < |events| ==> Moves(worlds, events, i)
  }

  ghost predicate Moves(worlds: seq<World>, events: seq<Event>, i: nat)
    requires i < |events| && i + 1 < |worlds|
  {
    worlds[i + 1] == Step(worlds[i], events[i])
  }

  /** Some run from a fresh machine passes through `w`. */
  ghost predicate Reachable(w: World) {
    exists worlds, events :: IsRun(worlds, events) && w == worlds[|events|]
  }
}
