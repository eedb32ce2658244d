/**
 * The protocol can do its work, so the results about all runs are about something: on a fresh machine there is a run
 * that deploys, one that then destroys, and one that leaves a deployment stuck.
 */
module Progress {
  import opened Basics
  import opened Text
  import opened Phases
  import opened Store
  import opened Supervisor
  import opened Recovery
  import opened Files
  import opened Host
  import opened Protocol
  import opened ProtocolInvariant
  import opened Lifecycle
  import opened Scripts
  import opened Markers
  import opened Resume

  /** A fresh machine on which `spec` can be deployed, under an unused key and the next process identity. */
  predicate Quiet(h: Host, spec: Spec, key: string, pid: int, token: string) {
    && Fresh(h) && ValidSpec(spec)
    && (spec.cache in h.files.caches ==> h.files.caches[spec.cache] == Cache(None, false))
    && key != "" && key !in h.keys
    && CanSpawn(h, pid, token) && token != "" && h.now > 0
    && forall p :: p in h.procs ==> !MatchesCommandIntent(h.procs[p].command, spec.intent)
  }

  /** Nothing but the launched leader matches the intent. */
  predicate Honest(h: Host, spec: Spec) {
    && (forall id :: id in h.rows && h.rows[id].phase == Starting && h.rows[id].pid == 0 ==>
          h.rows[id].command == spec.intent)
    && (forall p :: p in h.procs && MatchesCommandIntent(h.procs[p].command, spec.intent) ==>
          h.procs[p].origin == Some(LaunchId(p, h.procs[p].token)))
  }

  lemma HonestHasNoImposter(h: Host, spec: Spec)
    requires Honest(h, spec)
    ensures NoImposter(h)
  {
  }

  /** One effect of the deploying command. */
  lemma Do(s: Script, h: Host, pc: Pc, c: Choice, h': Host, pc': Pc, spec: Spec)
    requires At(s, h, pc) && Holding(pc) && Act(h, s.goal, pc, c) == (h', pc') && Honest(h', spec)
    ensures At(s, h', pc')
  {
    hide At, Act, NoImposter;
    HonestHasNoImposter(h', spec);
    Go(s, h, pc, c, h', pc');
  }

  /** The one row is this deployment's. */
  predicate OnlyRow(h: Host, r: Run, phase: Phase, pid: int) {
    && h.rows.Keys == {r.spec.id}
    && var d := h.rows[r.spec.id];
       && d.id == r.spec.id && d.key == r.key && d.cacheDir == Some(r.spec.cache)
       && d.phase == phase && d.pid == pid
  }

  /** What the prologue of a deploy keeps of the fresh machine. */
  predicate Untouched(h0: Host, h: Host) {
    h.procs == h0.procs && h.ids == h0.ids && h.now == h0.now && h.root == h0.root
  }

  const DEPLOY := DeployGoal(false)

  function DeployOn(w: World): Script {
    Script(w, 0, DEPLOY)
  }

  /** Recovery and the checks on an empty table. */
  lemma Check(s: Script, h: Host, spec: Spec)
    requires s.goal == DEPLOY && At(s, h, ListRows) && h.rows == map[] && ValidSpec(spec)
    ensures At(s, h, DestroyNext([], ReplaceJob(spec)))
  {
    hide At, ValidSpec, Act;
    Checks(h, spec);
    Go(s, h, ListRows, Listing([]), h, Recover([]));
    Go(s, h, Recover([]), Proceed, h, Recovered);
    Go(s, h, Recovered, Resolved([], spec), h, DestroyNext([], ReplaceJob(spec)));
  }

  lemma Checks(h: Host, spec: Spec)
    requires h.rows == map[] && ValidSpec(spec)
    ensures Act(h, DEPLOY, ListRows, Listing([])) == (h, Recover([]))
    ensures Act(h, DEPLOY, Recover([]), Proceed) == (h, Recovered)
    ensures Act(h, DEPLOY, Recovered, Resolved([], spec)) == (h, DestroyNext([], ReplaceJob(spec)))
  {
    hide Candidates;
    assert Filter([], (d: Deployment) => Active(d)) == [];
  }

  /** The host with its new record. */
  function WithRecord(h: Host, spec: Spec, key: string): Host {
    var stamp := WholeSeconds(h.now);
    h.(keys := h.keys + {key},
       rows := h.rows[spec.id := NewRow(spec, key).(createdAt := stamp, updatedAt := stamp)])
  }

  /** The host without the tombstone of this ID. */
  function Cleared(h: Host, id: string): Host {
    h.(rows := h.rows - {id})
  }

  lemma Clears(h: Host, goal: Goal, spec: Spec)
    requires spec.id in h.rows ==> h.rows[spec.id].phase == Destroyed
    ensures Act(h, goal, DestroyNext([], ReplaceJob(spec)), Proceed) == (h, ClearTombstone(spec))
    ensures Act(h, goal, ClearTombstone(spec), Proceed) == (Cleared(h, spec.id), CreateRecord(spec))
  {
    hide Dispatch, ActRecovery, ActRecovered, ActStop, ActRemove, ActPrepare, ActLaunch, ActServe, ActFail;
    assert spec.id !in h.rows ==> h.rows - {spec.id} == h.rows;
  }

  lemma Creates(h: Host, goal: Goal, spec: Spec, key: string)
    requires spec.id !in h.rows && key != "" && key !in h.keys
    ensures Act(h, goal, CreateRecord(spec), FreshKey(key)) == (WithRecord(h, spec, key), ToValidating(Run(spec, key)))
  {
    hide ActRecovery, ActRecovered, ActDestroy, ActStop, ActRemove, ActPrepare, ActLaunch, ActServe, ActFail;
  }

  lemma RecordIsHonest(h: Host, spec: Spec, key: string)
    requires NoImposter(h)
    ensures NoImposter(WithRecord(h, spec, key))
  {
  }

  /** From the end of the replacement to the new record. */
  lemma Create(s: Script, h: Host, spec: Spec, key: string)
    requires At(s, h, DestroyNext([], ReplaceJob(spec))) && NoImposter(h)
    requires spec.id in h.rows ==> h.rows[spec.id].phase == Destroyed
    requires key != "" && key !in h.keys
    ensures var h' := WithRecord(Cleared(h, spec.id), spec, key);
            At(s, h', ToValidating(Run(spec, key))) && NoImposter(h')
  {
    hide At, Act, NoImposter, WithRecord;
    var h1 := Cleared(h, spec.id);
    Clears(h, s.goal, spec);
    Creates(h1, s.goal, spec, key);
    FewerRowsHonest(h, spec.id);
    RecordIsHonest(h1, spec, key);
    Go(s, h, DestroyNext([], ReplaceJob(spec)), Proceed, h, ClearTombstone(spec));
    Go(s, h, ClearTombstone(spec), Proceed, h1, CreateRecord(spec));
    Go(s, h1, CreateRecord(spec), FreshKey(key), WithRecord(h1, spec, key), ToValidating(Run(spec, key)));
  }

  /** One transition of the deployment being launched. */
  lemma Advanced(s: Script, h: Host, r: Run, from: Phase, to: Phase, reason: string, pc: Pc, next: Pc)
      returns (h': Host)
    requires At(s, h, pc) && Holding(pc) && Legal(from, to)
    requires Act(h, s.goal, pc, Proceed) == Move(h, r.spec.id, from, to, reason, next)
    requires r.spec.id in h.rows && h.rows[r.spec.id].phase == from
    requires Honest(h, r.spec) && (to == Starting ==> h.rows[r.spec.id].command == r.spec.intent)
    ensures At(s, h', next) && Honest(h', r.spec)
    ensures h' == h.(rows := h.rows[r.spec.id := Moved(h.rows[r.spec.id], to, reason, h.now)])
  {
    hide At, Act, Legal, MatchesCommandIntent;
    h' := h.(rows := h.rows[r.spec.id := Moved(h.rows[r.spec.id], to, reason, h.now)]);
    assert Act(h, s.goal, pc, Proceed) == (h', next);
    Do(s, h, pc, Proceed, h', next, r.spec);
  }

  // ----- preparing -----

  lemma PrepareMoves(h: Host, goal: Goal, r: Run)
    ensures Act(h, goal, ToValidating(r), Proceed) == Move(h, r.spec.id, Requested, Validating, "", WriteKey(r))
    ensures Act(h, goal, ToDownloading(r), Proceed) == Move(h, r.spec.id, Validating, Downloading, "", WriteIntent(r))
    ensures Act(h, goal, ToStarting(r), Proceed) == Move(h, r.spec.id, Downloading, Starting, "", Exec(r))
  {
    hide Move, Write, ActRecovery, ActRecovered, ActDestroy, ActStop, ActRemove, ActCreate, ActLaunch, ActServe,
         ActFail;
  }

  lemma PrepareFiles(h: Host, goal: Goal, r: Run)
    ensures Act(h, goal, WriteKey(r), Proceed) == (WithDir(h, r), MakeCache(r))
    ensures Act(h, goal, MakeCache(r), Proceed) == (WithCache(h, r), ClaimCache(r))
  {
    hide Move, Write, ActRecovery, ActRecovered, ActDestroy, ActStop, ActRemove, ActCreate, ActLaunch, ActServe,
         ActFail;
  }

  function WithDir(h: Host, r: Run): Host {
    h.(files := h.files.(dirs := h.files.dirs + {r.spec.id}))
  }

  /** The cache directory exists. */
  function WithCache(h: Host, r: Run): Host {
    if r.spec.cache in h.files.caches then h
    else h.(files := h.files.(caches := h.files.caches[r.spec.cache := Cache(None, false)]))
  }

  /** The deployment is at the point where its cache directory exists and has no marker. */
  ghost predicate Unmarked(s: Script, h: Host, r: Run) {
    && At(s, h, ClaimCache(r)) && Honest(h, r.spec) && OnlyRow(h, r, Validating, 0)
    && r.spec.cache in h.files.caches && h.files.caches[r.spec.cache] == Cache(None, false)
    && r.spec.id in h.files.dirs
  }

  /** The row while it is being prepared. */
  ghost predicate Preparing(h0: Host, h: Host, r: Run, phase: Phase) {
    OnlyRow(h, r, phase, 0) && Honest(h, r.spec) && Untouched(h0, h)
  }

  lemma MovePreparing(s: Script, h0: Host, h: Host, r: Run, from: Phase, to: Phase, pc: Pc, next: Pc) returns (h': Host)
    requires At(s, h, pc) && Holding(pc) && Preparing(h0, h, r, from)
    requires Act(h, s.goal, pc, Proceed) == Move(h, r.spec.id, from, to, "", next) && Legal(from, to)
    requires to == Starting ==> r.spec.id in h.rows && h.rows[r.spec.id].command == r.spec.intent
    ensures At(s, h', next) && Preparing(h0, h', r, to) && h'.files == h.files
    ensures r.spec.id in h'.rows && h'.rows[r.spec.id].command == h.rows[r.spec.id].command
        && h'.rows[r.spec.id].updatedAt <= h'.now
  {
    hide At, Act, Move, Honest, Legal;
    h' := Advanced(s, h, r, from, to, "", pc, next);
    assert WholeSeconds(h.now) <= h.now;
  }

  /** From the new record to the unmarked cache directory. */
  lemma MakeDirectories(s: Script, h: Host, r: Run) returns (h': Host)
    requires At(s, h, ToValidating(r)) && OnlyRow(h, r, Requested, 0) && Honest(h, r.spec)
    requires r.spec.cache in h.files.caches ==> h.files.caches[r.spec.cache] == Cache(None, false)
    ensures Unmarked(s, h', r) && Untouched(h, h')
  {
    hide At, Act, Move, Honest;
    PrepareMoves(h, s.goal, r);
    var h1 := MovePreparing(s, h, h, r, Requested, Validating, ToValidating(r), WriteKey(r));
    PrepareFiles(h1, s.goal, r);
    var h2 := WithDir(h1, r);
    FilesAreHonest(h1, h2, r.spec);
    Do(s, h1, WriteKey(r), Proceed, h2, MakeCache(r), r.spec);
    PrepareFiles(h2, s.goal, r);
    h' := WithCache(h2, r);
    FilesAreHonest(h2, h', r.spec);
    Do(s, h2, MakeCache(r), Proceed, h', ClaimCache(r), r.spec);
  }

  lemma FilesAreHonest(h: Host, h': Host, spec: Spec)
    requires Honest(h, spec) && h'.rows == h.rows && h'.procs == h.procs
    ensures Honest(h', spec)
  {
  }

  /** The cache gets its marker. */
  lemma Mark(s: Script, h: Host, r: Run) returns (h': Host)
    requires Unmarked(s, h, r)
    ensures At(s, h', ToDownloading(r)) && Preparing(h, h', r, Validating) && Claimed(h', r)
    ensures h'.files.dirs == h.files.dirs
  {
    hide At, Act, Honest;
    h' := h.(files := SetMarker(h.files, r.spec.cache, Some(r.key)));
    FilesAreHonest(h, h', r.spec);
    assert Act(h, s.goal, ClaimCache(r), Proceed) == (h', ToDownloading(r)) by { Marks(h, s.goal, r); }
    Do(s, h, ClaimCache(r), Proceed, h', ToDownloading(r), r.spec);
  }

  lemma Marks(h: Host, goal: Goal, r: Run)
    requires r.spec.cache in h.files.caches && h.files.caches[r.spec.cache] == Cache(None, false)
    ensures Act(h, goal, ClaimCache(r), Proceed)
         == (h.(files := SetMarker(h.files, r.spec.cache, Some(r.key))), ToDownloading(r))
  {
  }

  lemma Intends(h: Host, goal: Goal, r: Run, d: Deployment)
    requires r.spec.id in h.rows && h.rows[r.spec.id].phase == Downloading
    requires d == h.rows[r.spec.id].(pid := 0, port := r.spec.port, command := r.spec.intent, startedAt := 0,
                                     startToken := "", updatedAt := h.now)
    ensures Act(h, goal, WriteIntent(r), Proceed) == (h.(rows := h.rows[r.spec.id := d]), ToStarting(r))
  {
    hide ActRecovery, ActRecovered, ActDestroy, ActStop, ActRemove, ActCreate, ActLaunch, ActServe, ActFail;
  }

  lemma Intend(s: Script, h0: Host, h: Host, r: Run) returns (h': Host)
    requires At(s, h, WriteIntent(r)) && Preparing(h0, h, r, Downloading)
    ensures At(s, h', ToStarting(r)) && Preparing(h0, h', r, Downloading) && h'.files == h.files
    ensures r.spec.id in h'.rows && h'.rows[r.spec.id].command == r.spec.intent
  {
    hide At, Act, MatchesCommandIntent;
    var d := h.rows[r.spec.id].(pid := 0, port := r.spec.port, command := r.spec.intent, startedAt := 0,
                                startToken := "", updatedAt := h.now);
    h' := h.(rows := h.rows[r.spec.id := d]);
    Intends(h, s.goal, r, d);
    Do(s, h, WriteIntent(r), Proceed, h', ToStarting(r), r.spec);
  }

  /** From the unmarked directory to the point of exec. */
  lemma Prepare(s: Script, h: Host, r: Run) returns (h': Host)
    requires Unmarked(s, h, r)
    ensures At(s, h', Exec(r)) && Preparing(h, h', r, Starting) && Claimed(h', r) && h'.files.dirs == h.files.dirs
    ensures r.spec.id in h'.rows && h'.rows[r.spec.id].command == r.spec.intent
        && h'.rows[r.spec.id].updatedAt <= h'.now
  {
    hide At, Act, Move, Preparing, Unmarked;
    var h1 := Mark(s, h, r);
    PrepareMoves(h1, s.goal, r);
    var h2 := MovePreparing(s, h, h1, r, Validating, Downloading, ToDownloading(r), WriteIntent(r));
    var h3 := Intend(s, h, h2, r);
    PrepareMoves(h3, s.goal, r);
    h' := MovePreparing(s, h, h3, r, Downloading, Starting, ToStarting(r), Exec(r));
  }

  // ----- launching -----

  /** The identity that is captured for the new process. */
  function Captured(h: Host, r: Run, pid: int, token: string): Ident {
    Ident(pid, Normalize(r.spec.intent), h.now, token)
  }

  /** The runtime is alive, alone in its group, and is what `who` says. */
  predicate Up(h: Host, r: Run, who: Ident) {
    && who.pid > 0 && who.pid in h.procs
    && h.procs[who.pid] == Proc(who.token, who.startedAt, r.spec.intent, who.pid, Some(IdOf(who)))
    && (forall p :: p in h.procs && p != who.pid ==> h.procs[p].pgid != who.pid)
    && IdOf(who) in h.launches && h.launches[IdOf(who)] == Owner(r.spec.id, r.key)
    && who.token != "" && who.startedAt != 0 && who.command == Normalize(r.spec.intent)
  }

  lemma UpKept(h: Host, h': Host, r: Run, who: Ident)
    requires Up(h, r, who) && h'.procs == h.procs && h'.launches == h.launches
    ensures Up(h', r, who)
  {
  }

  lemma UpIsRunning(h: Host, r: Run, who: Ident)
    requires Up(h, r, who) && Fields(r.spec.intent) != []
    ensures Reconcile(h.procs, who, Readable) == Running && DecideStop(h.procs, who, Readable) == SignalGroup
  {
    NormalizeIsCanonical(r.spec.intent, r.spec.intent);
    NormalizeIsBlank(r.spec.intent);
  }

  lemma Spawn(s: Script, h: Host, r: Run, pid: int, token: string) returns (h': Host)
    requires At(s, h, Exec(r)) && Honest(h, r.spec) && Fields(r.spec.intent) != []
    requires CanSpawn(h, pid, token) && token != "" && h.now > 0
    ensures At(s, h', Record(r, Captured(h, r, pid, token)))
    ensures Honest(h', r.spec) && Up(h', r, Captured(h, r, pid, token)) && h'.rows == h.rows && h'.now == h.now
    ensures h'.files == h.files.(logs := h.files.logs + {r.spec.id}) && h'.root == h.root
  {
    hide At, NoImposter;
    var c := Spawned(pid, token, h.now, r.spec.intent);
    h' := Launched(h, r, c);
    var pc := Capture(r, Ident(pid, r.spec.intent, h.now, token));
    hide Act, CanSpawn;
    SpawnsIntent(h, r, pid, token);
    Execs(h, s.goal, r, c);
    Captures(h', s.goal, r, pid, token);
    Do(s, h, Exec(r), c, h', pc, r.spec);
    Do(s, h', pc, Proceed, h', Record(r, Captured(h, r, pid, token)), r.spec);
  }

  lemma SpawnsIntent(h: Host, r: Run, pid: int, token: string)
    requires CanSpawn(h, pid, token) && Fields(r.spec.intent) != []
    ensures Spawns(h, r, Spawned(pid, token, h.now, r.spec.intent))
  {
    hide CanSpawn;
  }

  lemma Execs(h: Host, goal: Goal, r: Run, c: Choice)
    requires c.Spawned? && Spawns(h, r, c)
    ensures Act(h, goal, Exec(r), c) == (Launched(h, r, c), Capture(r, Ident(c.pid, c.command, c.startedAt, c.token)))
  {
    hide Spawns, Launched, LogCreated, ActRecovery, ActRecovered, ActDestroy, ActStop, ActRemove, ActCreate,
         ActPrepare, ActServe, ActFail;
  }

  lemma Captures(h: Host, goal: Goal, r: Run, pid: int, token: string)
    requires pid in h.procs
    ensures Act(h, goal, Capture(r, Ident(pid, r.spec.intent, h.now, token)), Proceed)
         == (h, Record(r, Captured(h, r, pid, token)))
  {
    hide Normalize, Send, Group, ActRecovery, ActRecovered, ActDestroy, ActStop, ActRemove, ActCreate, ActPrepare,
         ActServe, ActFail;
  }

  lemma Records(h: Host, goal: Goal, r: Run, who: Ident, d: Deployment)
    requires r.spec.id in h.rows && h.rows[r.spec.id].phase == Starting && h.rows[r.spec.id].pid == 0
    requires d == h.rows[r.spec.id].(pid := who.pid, port := r.spec.port, command := who.command,
                                     startedAt := who.startedAt, startToken := who.token, updatedAt := h.now)
    ensures Act(h, goal, Record(r, who), Proceed) == (h.(rows := h.rows[r.spec.id := d]), AwaitHealth(r, who))
  {
    hide ActRecovery, ActRecovered, ActDestroy, ActStop, ActRemove, ActCreate, ActPrepare, ActServe, ActFail;
  }

  lemma RecordRuntime(s: Script, h: Host, r: Run, who: Ident) returns (h': Host)
    requires At(s, h, Record(r, who)) && OnlyRow(h, r, Starting, 0) && Honest(h, r.spec) && who.pid > 0
    ensures At(s, h', AwaitHealth(r, who)) && Honest(h', r.spec)
    ensures OnlyRow(h', r, Starting, who.pid) && RuntimeOf(h'.rows[r.spec.id]) == who && h' == h.(rows := h'.rows)
  {
    hide At, Act, MatchesCommandIntent;
    var d := h.rows[r.spec.id].(pid := who.pid, port := r.spec.port, command := who.command, startedAt := who.startedAt,
                                startToken := who.token, updatedAt := h.now);
    h' := h.(rows := h.rows[r.spec.id := d]);
    Records(h, s.goal, r, who, d);
    Do(s, h, Record(r, who), Proceed, h', AwaitHealth(r, who), r.spec);
  }

  // ----- serving -----

  lemma HealthySteps(h: Host, goal: Goal, r: Run, who: Ident)
    ensures Act(h, goal, ToHealthy(r, who), Proceed) == Move(h, r.spec.id, Starting, Healthy, "", AwaitReady(r, who))
    ensures Act(h, goal, ToRegistering(r, who), Proceed)
         == Move(h, r.spec.id, Healthy, Registering, "", ToUnregistered(r, who))
  {
    hide Move, ActRecovery, ActRecovered, ActDestroy, ActStop, ActRemove, ActCreate, ActPrepare, ActLaunch, ActFail;
  }

  lemma LastStep(h: Host, goal: Goal, r: Run, who: Ident)
    ensures Act(h, goal, ToUnregistered(r, who), Proceed)
         == Move(h, r.spec.id, Registering, UnregisteredHealthy, "gateway registration not implemented yet (M4)",
             Deployed(r))
  {
    hide Move, ActRecovery, ActRecovered, ActDestroy, ActStop, ActRemove, ActCreate, ActPrepare, ActLaunch, ActFail;
  }

  lemma Answers(h: Host, goal: Goal, r: Run, who: Ident)
    ensures Act(h, goal, AwaitReady(r, who), Answered(Readable))
         == (h.(ready := h.ready[r.key := r.spec.id]), ToRegistering(r, who))
    ensures Reconcile(h.procs, who, Readable) == Running ==>
              Act(h, goal, AwaitHealth(r, who), Answered(Readable))
              == (h.(healthy := h.healthy[r.key := HealthAnswer(who, h.procs)]), ToHealthy(r, who))
  {
    hide Reconcile;
  }

  /** The row is in `phase`, with `who` recorded and running. */
  ghost predicate RunningIn(h: Host, r: Run, who: Ident, phase: Phase) {
    OnlyRow(h, r, phase, who.pid) && RuntimeOf(h.rows[r.spec.id]) == who && Up(h, r, who) && Honest(h, r.spec)
  }

  lemma MoveRunning(s: Script, h: Host, r: Run, who: Ident, from: Phase, to: Phase, reason: string, pc: Pc, next: Pc)
    returns (h': Host)
    requires At(s, h, pc) && Holding(pc) && RunningIn(h, r, who, from)
    requires Act(h, s.goal, pc, Proceed) == Move(h, r.spec.id, from, to, reason, next) && Legal(from, to)
        && to != Starting
    ensures At(s, h', next) && RunningIn(h', r, who, to) && h'.files == h.files && h'.root == h.root
  {
    hide At, Act, Move, Up, Honest, Legal;
    h' := Advanced(s, h, r, from, to, reason, pc, next);
    UpKept(h, h', r, who);
  }

  /** A probe answers; nothing else changes. */
  lemma Probe(s: Script, h: Host, r: Run, who: Ident, phase: Phase, pc: Pc, h': Host, next: Pc)
    requires At(s, h, pc) && Holding(pc) && RunningIn(h, r, who, phase)
    requires Act(h, s.goal, pc, Answered(Readable)) == (h', next)
    requires h' == h.(healthy := h'.healthy, ready := h'.ready)
    ensures At(s, h', next) && RunningIn(h', r, who, phase)
  {
    hide At, Act, Up, Honest;
    FilesAreHonest(h, h', r.spec);
    UpKept(h, h', r, who);
    Do(s, h, pc, Answered(Readable), h', next, r.spec);
  }

  lemma RunningReconciles(h: Host, r: Run, who: Ident, phase: Phase)
    requires RunningIn(h, r, who, phase) && Fields(r.spec.intent) != []
    ensures Reconcile(h.procs, who, Readable) == Running
  {
    UpIsRunning(h, r, who);
    hide Up, Honest, Reconcile, DecideStop;
  }

  /** Both probes answer at once. */
  lemma Serve(s: Script, h: Host, r: Run, who: Ident) returns (h': Host)
    requires At(s, h, AwaitHealth(r, who)) && RunningIn(h, r, who, Starting) && Fields(r.spec.intent) != []
    ensures At(s, h', Deployed(r)) && RunningIn(h', r, who, UnregisteredHealthy)
    ensures h'.files == h.files && h'.root == h.root
  {
    hide At, Act, Move, RunningIn, Reconcile, DecideStop, Up, Fields;
    RunningReconciles(h, r, who, Starting);
    Answers(h, s.goal, r, who);
    var h1 := h.(healthy := h.healthy[r.key := HealthAnswer(who, h.procs)]);
    Probe(s, h, r, who, Starting, AwaitHealth(r, who), h1, ToHealthy(r, who));
    HealthySteps(h1, s.goal, r, who);
    var h2 := MoveRunning(s, h1, r, who, Starting, Healthy, "", ToHealthy(r, who), AwaitReady(r, who));
    Answers(h2, s.goal, r, who);
    var h3 := h2.(ready := h2.ready[r.key := r.spec.id]);
    Probe(s, h2, r, who, Healthy, AwaitReady(r, who), h3, ToRegistering(r, who));
    h' := ServeLast(s, h3, r, who);
  }

  lemma ServeLast(s: Script, h: Host, r: Run, who: Ident) returns (h': Host)
    requires At(s, h, ToRegistering(r, who)) && RunningIn(h, r, who, Healthy)
    ensures At(s, h', Deployed(r)) && RunningIn(h', r, who, UnregisteredHealthy)
    ensures h'.files == h.files && h'.root == h.root
  {
    hide At, Act, Move, RunningIn;
    HealthySteps(h, s.goal, r, who);
    var h1 := MoveRunning(s, h, r, who, Healthy, Registering, "", ToRegistering(r, who), ToUnregistered(r, who));
    LastStep(h1, s.goal, r, who);
    h' := MoveRunning(s, h1, r, who, Registering, UnregisteredHealthy, "gateway registration not implemented yet (M4)",
                      ToUnregistered(r, who), Deployed(r));
  }

  // ----- a deploy to which nothing bad happens -----

  /** The deployment is up: recorded, alive, in its final phase, and with its cache, its directory and its log. */
  ghost predicate Deploys(h: Host, r: Run, who: Ident) {
    && RunningIn(h, r, who, UnregisteredHealthy)
    && Claimed(h, r) && r.spec.id in h.files.dirs && r.spec.id in h.files.logs
  }

  /** The first part of every deploy on a quiet machine. */
  lemma ReachUnmarked(w: World, spec: Spec, key: string, pid: int, token: string) returns (h: Host)
    requires Boot(w) && Quiet(w.host, spec, key, pid, token)
    ensures Unmarked(DeployOn(w), h, Run(spec, key)) && Untouched(w.host, h)
  {
    var s := DeployOn(w);
    var r := Run(spec, key);
    hide At, MatchesArgv;
    assert Honest(w.host, spec);
    HonestHasNoImposter(w.host, spec);
    Begin(s);
    Check(s, w.host, spec);
    assert Cleared(w.host, spec.id) == w.host;
    Create(s, w.host, spec, key);
    var h1 := WithRecord(w.host, spec, key);
    assert Honest(h1, spec) && OnlyRow(h1, r, Requested, 0);
    hide Honest, Fresh, Quiet, NoImposter;
    h := MakeDirectories(s, h1, r);
  }

  /** On every quiet machine there is a run in which a deploy ends with its runtime alive and recorded. */
  lemma DeployCanSucceed(w: World, spec: Spec, key: string, pid: int, token: string) returns (h: Host)
    requires Boot(w) && Quiet(w.host, spec, key, pid, token)
    ensures var r := Run(spec, key);
            && At(DeployOn(w), h, Deployed(r)) && Reachable(Standing(DeployOn(w), h, Deployed(r)))
            && Deploys(h, r, Captured(w.host, r, pid, token))
  {
    var s := DeployOn(w);
    var r := Run(spec, key);
    var who := Captured(w.host, r, pid, token);
    var h1 := ReachUnmarked(w, spec, key, pid, token);
    var h2 := Prepare(s, h1, r);
    assert r.spec.id in h2.files.dirs;
    hide At, MatchesArgv, Honest, Up;
    var h3 := Spawn(s, h2, r, pid, token);
    var h4 := RecordRuntime(s, h3, r, who);
    UpKept(h3, h4, r, who);
    hide Quiet, Fresh;
    h := Serve(s, h4, r, who);
    BootIsReachable(w);
    StandsReachably(s, h, Deployed(r));
  }

  lemma BootIsReachable(w: World)
    requires Boot(w)
    ensures Reachable(w)
  {
    hide Boot;
    assert IsRun([w], []);
  }

  lemma StandsReachably(s: Script, h: Host, pc: Pc)
    requires Reachable(s.w) && At(s, h, pc)
    ensures Reachable(Standing(s, h, pc))
  {
    hide Reachable, Gets;
    GetsIsReachable(s, Standing(s, h, pc));
  }

  /** The deploy command is gone. */
  lemma Left(s: Script, h: Host, r: Run) returns (v: World)
    requires Reachable(s.w) && At(s, h, Deployed(r)) && s.c !in s.w.cmds
    ensures Reachable(v) && v == World(h, None, s.w.cmds)
  {
    hide At, Reachable, Inv, NoImposter, PcInv, Act;
    StandsReachably(s, h, Deployed(r));
    var w1 := Standing(s, h, Deployed(r));
    ReachableIsSound(w1);
    v := World(h, None, s.w.cmds);
    assert w1.cmds - {s.c} == s.w.cmds;
    assert Step(w1, Finish(s.c)) == v;
    StepIsReachable(w1, Finish(s.c));
  }

  lemma StepIsReachable(w: World, e: Event)
    requires Reachable(w)
    ensures Reachable(Step(w, e))
  {
    hide Reachable, Step;
    RunOnIsReachable(w, [e]);
    assert [e][1..] == [];
    assert RunAll(Step(w, e), []) == Step(w, e);
  }

  /** On every quiet machine there is a run that deploys and then destroys. */
  lemma DeployThenDestroy(w: World, spec: Spec, key: string, pid: int, token: string, purge: bool) returns (v: World)
    requires Boot(w) && Quiet(w.host, spec, key, pid, token)
    ensures Reachable(v) && Finished(v.host, spec.id, purge)
  {
    var r := Run(spec, key);
    var who := Captured(w.host, r, pid, token);
    var h := DeployCanSucceed(w, spec, key, pid, token);
    BootIsReachable(w);
    hide At, MatchesArgv, Quiet, Reachable, Up;
    var w1 := Left(DeployOn(w), h, r);
    InServiceOwnsCache(w1, spec.id);
    QuietHasIntent(w.host, spec, key, pid, token);
    UpIsStoppable(h, r, who);
    hide Boot, Stoppable, Releasable, OwnsCache;
    var s;
    s, v := DestroyCanFinish(w1, spec.id, purge);
    GetsIsReachable(s, v);
  }

  lemma QuietHasIntent(h: Host, spec: Spec, key: string, pid: int, token: string)
    requires Quiet(h, spec, key, pid, token)
    ensures Fields(spec.intent) != []
  {
  }

  lemma UpIsStoppable(h: Host, r: Run, who: Ident)
    requires RunningIn(h, r, who, UnregisteredHealthy) && Fields(r.spec.intent) != []
    ensures Stoppable(h.procs, h.rows[r.spec.id])
  {
    UpIsRunning(h, r, who);
    hide Up, Honest, Reconcile, DecideStop;
  }

  lemma UnmarkedIsUnproven(s: Script, h: Host, r: Run)
    requires Unmarked(s, h, r)
    ensures Unproven(h, r.spec.id)
  {
    hide At, Honest;
  }

  /** There is a run that leaves a deployment stuck: its command dies after making the cache directory. */
  lemma StuckIsReachable(w: World, spec: Spec, key: string, pid: int, token: string) returns (v: World)
    requires Boot(w) && Quiet(w.host, spec, key, pid, token)
    ensures Reachable(v) && v.lock == None && Stuck(v, spec.id)
  {
    hide Boot, Quiet, Honest, Reachable, At, Inv, NoImposter, PcInv, Act, Step, Stuck, Unproven;
    var s := DeployOn(w);
    var r := Run(spec, key);
    var h := ReachUnmarked(w, spec, key, pid, token);
    BootIsReachable(w);
    StandsReachably(s, h, ClaimCache(r));
    var w1 := Standing(s, h, ClaimCache(r));
    ReachableIsSound(w1);
    UnmarkedIsUnproven(s, h, r);
    BecomesStuck(w1, Crash(0), spec.id);
    v := Step(w1, Crash(0));
    StepIsReachable(w1, Crash(0));
    CrashOnlyDrops(w1, 0);
  }

  // ----- a runtime that cannot be stopped -----

  /** The runtime exits, and its PID is given to an unrelated process. */
  function Recycled(h: Host, pid: int, token: string): Host {
    h.(procs := (h.procs - {pid})[pid := Proc(token, 0, "", pid, None)], ids := h.ids + {LaunchId(pid, token)})
  }

  /** Nobody waits for a runtime to be adopted, so nobody can pose as one. */
  lemma NoIntentIsHonest(h: Host)
    requires forall id :: id in h.rows ==> h.rows[id].phase != Starting
    ensures NoImposter(h)
  {
  }

  /** The leader of a recorded group may exit alone. */
  lemma LeaderMayExit(h: Host, r: Run, who: Ident)
    requires RunningIn(h, r, who, UnregisteredHealthy)
    ensures CanExit(h, {who.pid})
  {
    assert Recorded(h.rows, IdOf(who));
    hide Honest, Fields;
  }

  lemma PidIsFree(h: Host, r: Run, who: Ident, token: string)
    requires RunningIn(h, r, who, UnregisteredHealthy) && LaunchId(who.pid, token) !in h.ids
    ensures CanSpawn(h.(procs := h.procs - {who.pid}), who.pid, token)
  {
    hide Honest, Fields;
  }

  /** What the environment does to the machine: two events, with no command about. */
  lemma Recycles(h: Host, r: Run, who: Ident, token: string)
    requires RunningIn(h, r, who, UnregisteredHealthy) && LaunchId(who.pid, token) !in h.ids
    ensures var h1 := Env(h, {}, Exits({who.pid}));
            Env(h1, {}, Foreign(who.pid, Proc(token, 0, "", who.pid, None))) == Recycled(h, who.pid, token)
    ensures NoImposter(Env(h, {}, Exits({who.pid}))) && NoImposter(Recycled(h, who.pid, token))
  {
    LeaderMayExit(h, r, who);
    PidIsFree(h, r, who, token);
    hide RunningIn, CanExit, NoImposter;
    NoIntentIsHonest(h.(procs := h.procs - {who.pid})) by { ServesOnly(h, r, who); }
    NoIntentIsHonest(Recycled(h, who.pid, token)) by { ServesOnly(h, r, who); }
    hide ServesAll;
  }

  predicate ServesAll(rows: Rows) {
    forall id :: id in rows ==> rows[id].phase == UnregisteredHealthy
  }

  lemma ServesOnly(h: Host, r: Run, who: Ident)
    requires RunningIn(h, r, who, UnregisteredHealthy)
    ensures ServesAll(h.rows)
  {
    hide Up, Honest;
  }

  /** The process at the recorded PID is another one, and Stop refuses it. */
  lemma RecycledIsRefused(h: Host, r: Run, who: Ident, token: string)
    requires RunningIn(h, r, who, UnregisteredHealthy) && token != who.token
    ensures !Stoppable(Recycled(h, who.pid, token).procs, h.rows[r.spec.id])
  {
    hide Honest, Normalize, MatchesCommandIntent;
    var procs := Recycled(h, who.pid, token).procs;
    var d := h.rows[r.spec.id];
    assert RuntimeOf(RecoverRow(procs, d)) == who;
    hide RecoverRow;
    assert !Identical(procs, who);
  }

  /**
   * There is a run that leaves a deployment whose runtime Stop refuses, with its cache in order: the runtime exits, and
   * its PID is given to an unrelated process.
   */
  lemma UnstoppableIsReachable(w: World, spec: Spec, key: string, pid: int, token: string) returns (v: World)
    requires Boot(w) && Quiet(w.host, spec, key, pid, token)
    ensures Reachable(v) && v.lock == None && spec.id in v.host.rows && Active(v.host.rows[spec.id])
    ensures !Stoppable(v.host.procs, v.host.rows[spec.id]) && Releasable(v.host, spec.id)
  {
    hide At, MatchesArgv, Quiet, Reachable, RunningIn, Stoppable, Releasable, NoImposter, Env, Fresh, OwnsCache;
    var r := Run(spec, key);
    var who := Captured(w.host, r, pid, token);
    var h := DeployCanSucceed(w, spec, key, pid, token);
    BootIsReachable(w);
    var v0 := Left(DeployOn(w), h, r);
    var other := NewText({token} + set l | l in h.ids :: l.token);
    assert LaunchId(pid, other) !in h.ids;
    Recycles(h, r, who, other);
    RecycledIsRefused(h, r, who, other);
    ServesOnly(h, r, who);
    RunsAlone(h, r, who);
    var e1, e2 := Environment(Exits({pid})), Environment(Foreign(pid, Proc(other, 0, "", pid, None)));
    assert AllPinned(w.cmds) == {};
    var v1 := Step(v0, e1);
    v := Step(v1, e2);
    assert v == World(Recycled(h, pid, other), None, w.cmds);
    StepIsReachable(v0, e1);
    StepIsReachable(v1, e2);
    InServiceOwnsCache(v, spec.id);
  }

  lemma RunsAlone(h: Host, r: Run, who: Ident)
    requires RunningIn(h, r, who, UnregisteredHealthy)
    ensures r.spec.id in h.rows
  {
    hide Up, Honest;
  }
}
