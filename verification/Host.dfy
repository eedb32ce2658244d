/** The state that all IOLD commands on one machine share, and what holds of it between any two effects. */
module Host {
  import opened Basics
  import opened Phases
  import opened Store
  import opened Supervisor
  import opened Recovery
  import opened Files

  /** The deployment a runtime was launched for; keys are never reused, so this names one incarnation. */
  datatype Owner = Owner(id: string, key: string)

  /** A signal as it was sent: to the group of `target`, which then consisted of `group`. */
  datatype SentSignal = SentSignal(signal: Signal, target: Ident, group: Procs)

  /**
   * An answered health probe: the identity that was reconciled before it, and the process table it was reconciled
   * with.
   */
  datatype HealthAnswer = HealthAnswer(who: Ident, procs: Procs)

  /**
   * Rows, processes and files, the clock, and history: every launch and its owner, every process identity ever used,
   * every key and marker text ever used, by key the last answered health probe and the served ID that passed the
   * readiness checks, and the signals sent.
   */
  datatype Host = Host(
    rows: Rows,
    procs: Procs,
    files: Files,
    root: Path,
    now: int,
    launches: map<LaunchId, Owner>,
    ids: set<LaunchId>,
    keys: set<string>,
    healthy: map<string, HealthAnswer>,
    ready: map<string, string>,
    signals: seq<SentSignal>)

  function IdOf(p: Ident): LaunchId {
    LaunchId(p.pid, p.token)
  }

  function OwnerOf(d: Deployment): Owner {
    Owner(d.id, d.key)
  }

  /** The processes of a group. */
  function Group(procs: Procs, pgid: int): Procs {
    map p | p in procs && procs[p].pgid == pgid :: procs[p]
  }

  /** Some process of the launch is alive. */
  ghost predicate Live(procs: Procs, l: LaunchId) {
    exists p :: p in procs && procs[p].origin == Some(l)
  }

  /** No runtime ever launched for this deployment is alive. */
  ghost predicate NoneLive(h: Host, o: Owner) {
    forall l :: l in h.launches && h.launches[l] == o ==> !Live(h.procs, l)
  }

  ghost predicate NeverLaunched(h: Host, o: Owner) {
    forall l :: l in h.launches ==> h.launches[l] != o
  }

  predicate Active(d: Deployment) {
    d.phase != Destroyed
  }

  /** The row is a STARTING intent without a runtime, and the launch's leader is alive and matches it. */
  predicate Adoptable(procs: Procs, d: Deployment, l: LaunchId) {
    && d.phase == Starting
    && d.pid == 0
    && l.pid in Candidates(procs, d.command, d.updatedAt)
    && procs[l.pid].token == l.token
  }

  /** The row accounts for the launch: by its recorded identity, or as an intent that recovery will adopt. */
  predicate Claims(procs: Procs, d: Deployment, l: LaunchId) {
    Active(d) && (LaunchId(d.pid, d.startToken) == l || Adoptable(procs, d, l))
  }

  /** Every live runtime is accounted for by the row of the deployment it was launched for. */
  ghost predicate Accounted(rows: Rows, procs: Procs, launches: map<LaunchId, Owner>) {
    forall l :: l in launches && Live(procs, l) ==> AccountedFor(rows, procs, launches[l], l)
  }

  predicate AccountedFor(rows: Rows, procs: Procs, o: Owner, l: LaunchId) {
    o.id in rows && rows[o.id].key == o.key && Claims(procs, rows[o.id], l)
  }

  /** At most one row is not DESTROYED. */
  ghost predicate Solo(rows: Rows) {
    forall i, j {:trigger BothActive(rows, i, j)} :: BothActive(rows, i, j) ==> i == j
  }

  predicate BothActive(rows: Rows, i: string, j: string) {
    i in rows && j in rows && Active(rows[i]) && Active(rows[j])
  }

  /** The health probe of this key answered while the recorded process was running. */
  predicate WasHealthy(h: Host, key: string, who: Ident) {
    key in h.healthy && h.healthy[key].who == who && Identical(h.healthy[key].procs, who)
  }

  /** The readiness checks of this key passed for this served ID. */
  predicate WasReady(h: Host, key: string, served: string) {
    key in h.ready && h.ready[key] == served
  }

  predicate RowOk(h: Host, d: Deployment) {
    && d.key in h.keys
    && ValidId(d.id)
    && d.pid >= 0
    && d.cacheDir.Some?
    && SafeCachePath(d.cacheDir.value, d.id, d.key)
    && !d.phase.Unrecognised?
    && (d.failureReason != "" ==> d.phase == Failed || d.phase == Crashed)
    && (d.phase in {Requested, Validating, Downloading} ==>
          d.pid == 0 && forall l :: l in h.launches ==> h.launches[l] != OwnerOf(d))
    && (d.phase in {Healthy, Registering, Ready, UnregisteredHealthy} ==>
          d.pid != 0 && WasHealthy(h, d.key, RuntimeOf(d)))
    && (d.phase in {Registering, Ready, UnregisteredHealthy} ==> WasReady(h, d.key, d.id))
    && (d.phase == Destroyed ==> Gone(h.files, h.root, d))
    && (d.pid != 0 ==> LaunchId(d.pid, d.startToken) in h.launches
                       && h.launches[LaunchId(d.pid, d.startToken)] == OwnerOf(d))
  }

  predicate RowsOk(h: Host) {
    forall id :: id in h.rows ==> h.rows[id].id == id && RowOk(h, h.rows[id])
  }

  /** One process of the table: its identity is on record, and a launched process is in its launch's group. */
  predicate ProcOk(p: int, proc: Proc, launches: map<LaunchId, Owner>, ids: set<LaunchId>) {
    && p > 0
    && LaunchId(p, proc.token) in ids
    && (LaunchId(p, proc.token) in launches ==> proc.origin == Some(LaunchId(p, proc.token)))
    && (proc.origin.Some? ==> && proc.origin.value in launches
                              && proc.pgid == proc.origin.value.pid
                              && (p == proc.pgid ==> proc.token == proc.origin.value.token))
  }

  /** `p` was launched, and `q` is in its group or bears its group's PID. */
  predicate SharesGroup(procs: Procs, p: int, q: int) {
    p in procs && q in procs && procs[p].origin.Some? && (procs[q].pgid == procs[p].pgid || q == procs[p].pgid)
  }

  /** A group that holds a launched process holds only that launch, and its PID names nothing else. */
  ghost predicate GroupsPure(procs: Procs) {
    forall p, q {:trigger SharesGroup(procs, p, q)} :: SharesGroup(procs, p, q) ==> procs[q].origin == procs[p].origin
  }

  ghost predicate ProcsOk(procs: Procs, launches: map<LaunchId, Owner>, ids: set<LaunchId>) {
    && (forall p :: p in procs ==> ProcOk(p, procs[p], launches, ids))
    && GroupsPure(procs)
  }

  /** A deployment is launched at most once, and launches are on record. */
  ghost predicate LaunchesOk(launches: map<LaunchId, Owner>, ids: set<LaunchId>, keys: set<string>) {
    && (forall l :: l in launches ==> l.pid > 0 && l in ids && launches[l].key in keys)
    && (forall l, m {:trigger SameOwner(launches, l, m)} :: SameOwner(launches, l, m) ==> l == m)
  }

  predicate SameOwner(launches: map<LaunchId, Owner>, l: LaunchId, m: LaunchId) {
    l in launches && m in launches && launches[l] == launches[m]
  }

  predicate MarkersOk(files: Files, keys: set<string>) {
    forall p :: p in files.caches && files.caches[p].marker.Some? ==> files.caches[p].marker.value in keys
  }

  /** The signal was sent only to processes of the recorded launch, and SIGTERM only after verifying its leader. */
  predicate SignalOk(s: SentSignal, launches: map<LaunchId, Owner>) {
    && IdOf(s.target) in launches
    && (forall p :: p in s.group ==> s.group[p].origin == Some(IdOf(s.target)))
    && (s.signal == Term ==> Identical(s.group, s.target))
  }

  predicate SignalsOk(signals: seq<SentSignal>, launches: map<LaunchId, Owner>) {
    forall i :: 0 <= i < |signals| ==> SignalOk(signals[i], launches)
  }

  ghost predicate Inv(h: Host) {
    && Solo(h.rows)
    && RowsOk(h)
    && ProcsOk(h.procs, h.launches, h.ids)
    && LaunchesOk(h.launches, h.ids, h.keys)
    && MarkersOk(h.files, h.keys)
    && SignalsOk(h.signals, h.launches)
    && Accounted(h.rows, h.procs, h.launches)
  }

  /** Every row is stored under its own ID. */
  lemma RowsNamed(h: Host)
    requires Inv(h)
    ensures forall id :: id in h.rows ==> h.rows[id].id == id
  {
  }

  /**
   * The environment assumption on intents: a process that matches a STARTING intent without a recorded runtime, and is
   * recent enough, is the leader of a launched runtime.
   */
  predicate NoImposter(h: Host) {
    forall id, p :: id in h.rows && h.rows[id].phase == Starting && h.rows[id].pid == 0
                    && p in Candidates(h.procs, h.rows[id].command, h.rows[id].updatedAt)
      ==> h.procs[p].origin == Some(LaunchId(p, h.procs[p].token))
  }

  /** A machine before the first IOLD command: no rows, no launches, whatever foreign processes and caches. */
  predicate Fresh(h: Host) {
    && h.rows == map[]
    && h.launches == map[]
    && h.signals == []
    && (forall p :: p in h.procs ==> p > 0 && h.procs[p].origin == None && LaunchId(p, h.procs[p].token) in h.ids)
    && MarkersOk(h.files, h.keys)
  }

  lemma FreshIsSound(h: Host)
    requires Fresh(h)
    ensures Inv(h)
  {
  }

  // ----- Consequences of the invariant -----

  /** No orphan: a live runtime has exactly one row that is not DESTROYED and accounts for it. */
  lemma NoOrphanRuntime(h: Host, l: LaunchId)
    requires Inv(h) && l in h.launches && Live(h.procs, l)
    ensures AccountedFor(h.rows, h.procs, h.launches[l], l)
    ensures forall id :: id in h.rows && Active(h.rows[id]) ==> id == h.launches[l].id
  {
    var mine := h.launches[l].id;
    assert AccountedFor(h.rows, h.procs, h.launches[l], l);
    forall id | id in h.rows && Active(h.rows[id]) ensures id == mine {
      assert BothActive(h.rows, id, mine);
    }
  }

  /** At most one IOLD runtime is alive. */
  lemma OneRuntime(h: Host, l: LaunchId, m: LaunchId)
    requires Inv(h) && l in h.launches && m in h.launches && Live(h.procs, l) && Live(h.procs, m)
    ensures l == m
  {
    assert AccountedFor(h.rows, h.procs, h.launches[l], l) && AccountedFor(h.rows, h.procs, h.launches[m], m);
    assert BothActive(h.rows, h.launches[l].id, h.launches[m].id);
    assert SameOwner(h.launches, l, m);
  }

  /** A DESTROYED row leaves nothing behind: no live runtime, log, directory or cache. */
  lemma DestroyedLeavesNothing(h: Host, id: string)
    requires Inv(h) && id in h.rows && h.rows[id].phase == Destroyed
    ensures NoneLive(h, OwnerOf(h.rows[id])) && Gone(h.files, h.root, h.rows[id])
  {
    assert RowOk(h, h.rows[id]);
  }

  /** A STARTING intent without a runtime has no live launch that the scan would miss. */
  lemma ScanSeesLaunch(h: Host, id: string)
    requires Inv(h) && NoImposter(h) && id in h.rows && h.rows[id].phase == Starting && h.rows[id].pid == 0
    ensures var found := Candidates(h.procs, h.rows[id].command, h.rows[id].updatedAt);
            && (forall p :: p in found ==> var l := LaunchId(p, h.procs[p].token);
                                           l in h.launches && h.launches[l] == OwnerOf(h.rows[id]))
            && (forall p, q :: p in found && q in found ==> p == q)
            && (found == {} ==> NoneLive(h, OwnerOf(h.rows[id])))
  {
    var d := h.rows[id];
    var found := Candidates(h.procs, d.command, d.updatedAt);
    forall p | p in found
      ensures var l := LaunchId(p, h.procs[p].token); l in h.launches && h.launches[l] == OwnerOf(d)
    {
      FoundIsMine(h, id, p);
    }
    forall p, q | p in found && q in found ensures p == q {
      assert SameOwner(h.launches, LaunchId(p, h.procs[p].token), LaunchId(q, h.procs[q].token));
    }
    forall l | l in h.launches && h.launches[l] == OwnerOf(d) ensures Live(h.procs, l) ==> l.pid in found {
      assert Live(h.procs, l) ==> AccountedFor(h.rows, h.procs, h.launches[l], l);
    }
  }

  /** A candidate for a STARTING intent is the leader of the runtime launched for it. */
  lemma FoundIsMine(h: Host, id: string, p: int)
    requires Inv(h) && NoImposter(h) && id in h.rows && h.rows[id].phase == Starting && h.rows[id].pid == 0
    requires p in Candidates(h.procs, h.rows[id].command, h.rows[id].updatedAt)
    ensures var l := LaunchId(p, h.procs[p].token); l in h.launches && h.launches[l] == OwnerOf(h.rows[id])
  {
    var l := LaunchId(p, h.procs[p].token);
    assert ProcOk(p, h.procs[p], h.launches, h.ids);
    assert Live(h.procs, l);
    NoOrphanRuntime(h, l);
  }
}
