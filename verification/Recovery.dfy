/** recoverInterruptedDeployments: what it makes of each row, and the loop that does it. */
module Recovery {
  import opened Basics
  import opened Text
  import opened Phases
  import opened Store
  import opened Supervisor

  const NO_IDENTITY := "lifecycle operation was interrupted before a runtime identity was recorded"
  const ADOPTED := "lifecycle operation was interrupted; runtime adopted for cleanup"
  const GONE := "runtime process is no longer running"
  const REUSED := "runtime PID identity no longer matches the recorded process"

  /** The identity a row records for its runtime. */
  function RuntimeOf(d: Deployment): Ident {
    Ident(d.pid, d.command, d.startedAt, d.startToken)
  }

  lemma MemberOfOne(s: set<int>, p: int)
    requires p in s && |s| == 1
    ensures s == {p}
  {
    assert |s - {p}| == 0;
  }

  /** The element of a one-element set. */
  ghost function Only(s: set<int>): (r: Option<int>)
    ensures r.Some? <==> exists p :: s == {p}
    ensures r.Some? ==> s == {r.value} && |s| == 1
  {
    if exists p :: s == {p} then
      var p :| s == {p};
      Some(p)
    else None
  }

  function RowAdopted(d: Deployment, m: Ident): Deployment {
    d.(pid := m.pid, command := m.command, startedAt := m.startedAt, startToken := m.token)
  }

  /**
   * A STARTING intent without a runtime takes the identity of the one process that matches it, if there is just one.
   */
  ghost function AdoptRow(procs: Procs, d: Deployment): Deployment {
    if d.phase == Starting && d.pid == 0 && d.command != "" then
      match Only(Candidates(procs, d.command, d.updatedAt))
      case Some(p) => RowAdopted(d, IdentOf(procs, p))
      case None => d
    else d
  }

  /**
   * Recovery finds a runtime that exec started under another path: if just one recent process runs the intent's program
   * with the intent's arguments, the row takes that process' identity.
   */
  lemma LaunchedIsAdopted(procs: Procs, d: Deployment, name: string, pid: int)
    requires d.phase == Starting && d.pid == 0 && d.command != ""
    requires name != "" && '/' !in name && Fields(d.command) != [] && EndsIn(Fields(d.command)[0], name)
    requires pid in procs
    requires forall q :: RunsSince(procs, name, Fields(d.command)[1..], d.updatedAt, q) <==> q == pid
    ensures AdoptRow(procs, d) == d.(pid := pid, command := Normalize(procs[pid].command),
                                     startedAt := procs[pid].startedAt, startToken := procs[pid].token)
    ensures RuntimeOf(AdoptRow(procs, d)) == IdentOf(procs, pid)
  {
    hide Candidates, Fields, EndsIn, Normalize;
    assert RunsSince(procs, name, Fields(d.command)[1..], d.updatedAt, pid);
    var found := Candidates(procs, d.command, d.updatedAt);
    forall q ensures q in found <==> q == pid {
      CandidatesAreExact(procs, d.command, d.updatedAt, name, q);
      hide RunsSince;
    }
    assert found == {pid};
  }

  function CrashRow(d: Deployment, reason: string): Deployment {
    d.(phase := Crashed, failureReason := reason)
  }

  function ReconcileRow(procs: Procs, d: Deployment): Deployment {
    if d.pid == 0 then CrashRow(d, NO_IDENTITY)
    else
      match Reconcile(procs, RuntimeOf(d), Readable)
      case Running => if Early(d.phase) then CrashRow(d, ADOPTED) else d
      case Stale => CrashRow(d, GONE)
      case Reused => CrashRow(d, REUSED)
      case Unknown => d
  }

  /** What an undisturbed recovery makes of a row, apart from its timestamp. */
  ghost function RecoverRow(procs: Procs, d: Deployment): Deployment {
    if Teardown(d.phase) then d else ReconcileRow(procs, AdoptRow(procs, d))
  }

  function Erase(d: Deployment): Deployment {
    d.(updatedAt := 0)
  }

  /** What an undisturbed recovery makes of the whole table. */
  ghost function RecoverAll(procs: Procs, rows: Rows): Rows {
    map id | id in rows :: Erase(RecoverRow(procs, rows[id]))
  }

  /** Recovering a recovered row, at whatever later time, changes nothing. */
  lemma RecoverRowIsIdempotent(procs: Procs, d: Deployment, at: int)
    ensures var r := RecoverRow(procs, d).(updatedAt := at); RecoverRow(procs, r) == r
  {
    AdoptedHasRuntime(procs, d);
    var a := AdoptRow(procs, d);
    assert RuntimeOf(a.(updatedAt := at)) == RuntimeOf(a);
  }

  /**
   * A recovery that was interrupted right after adopting a runtime is completed by the next one as if it had gone on.
   */
  lemma InterruptedAdoptionCompletes(procs: Procs, d: Deployment, at: int)
    requires !Teardown(d.phase) && AdoptRow(procs, d) != d
    ensures Erase(RecoverRow(procs, AdoptRow(procs, d).(updatedAt := at))) == Erase(RecoverRow(procs, d))
  {
    AdoptedHasRuntime(procs, d);
    var a := AdoptRow(procs, d);
    assert RuntimeOf(a.(updatedAt := at)) == RuntimeOf(a);
  }

  /** The row `e` changed as the row `d` did, in phase, reason and runtime, and in nothing else. */
  predicate ChangedAlike(d: Deployment, d': Deployment, e: Deployment, e': Deployment) {
    && e' == e.(phase := d'.phase, pid := d'.pid, command := d'.command, startedAt := d'.startedAt,
                startToken := d'.startToken, failureReason := e'.failureReason)
    && e'.failureReason == if d'.phase == d.phase then e.failureReason else d'.failureReason
  }

  lemma AdoptedAlike(procs: Procs, d: Deployment, e: Deployment)
    requires e.phase == d.phase && RuntimeOf(e) == RuntimeOf(d) && e.updatedAt == d.updatedAt
    ensures ChangedAlike(d, AdoptRow(procs, d), e, AdoptRow(procs, e)) && AdoptRow(procs, d).phase == d.phase
  {
    hide Only, Candidates;
  }

  lemma ReconciledAlike(procs: Procs, d: Deployment, e: Deployment)
    requires e.phase == d.phase && RuntimeOf(e) == RuntimeOf(d) && !Teardown(d.phase)
    ensures ChangedAlike(d, ReconcileRow(procs, d), e, ReconcileRow(procs, e))
  {
    hide Reconcile;
  }

  /**
   * Recovery reconciles processes and nothing else: of two rows that agree in phase, runtime and timestamp, whatever
   * their ports, names, caches and keys, it makes the same, and leaves everything else in them as it was.
   */
  lemma OnlyProcessesAreReconciled(procs: Procs, d: Deployment, e: Deployment)
    requires e.phase == d.phase && RuntimeOf(e) == RuntimeOf(d) && e.updatedAt == d.updatedAt
    ensures ChangedAlike(d, RecoverRow(procs, d), e, RecoverRow(procs, e))
  {
    if !Teardown(d.phase) {
      hide AdoptRow, ReconcileRow;
      AdoptedAlike(procs, d, e);
      ReconciledAlike(procs, AdoptRow(procs, d), AdoptRow(procs, e));
    }
  }

  lemma AdoptedHasRuntime(procs: Procs, d: Deployment)
    ensures AdoptRow(procs, d) == d || AdoptRow(procs, d).pid > 0
    ensures AdoptRow(procs, d).phase == d.phase && AdoptRow(procs, d).updatedAt == d.updatedAt
  {
    var found := Candidates(procs, d.command, d.updatedAt);
    if Only(found).Some? {
      assert Only(found).value in found;
    }
  }

  /** A row as recovery leaves it: being torn down, or serving with a runtime that is running. */
  predicate Settled(procs: Procs, d: Deployment) {
    Teardown(d.phase) || (!Early(d.phase) && d.pid != 0 && Reconcile(procs, RuntimeOf(d), Readable) == Running)
  }

  datatype RecoverError = ScanFailed | IdentityUnavailable | StoreFailed(error: StoreError)

  /** store.List: every row exactly once. */
  predicate Enumerates(s: seq<Deployment>, rows: Rows) {
    && (forall i, j :: 0 <= i < j < |s| ==> s[i].id != s[j].id)
    && (forall d {:trigger d in s} :: d in s ==> d.id in rows && rows[d.id] == d)
    && (forall id :: id in rows ==> rows[id] in s)
  }

  /** The listed row is still the stored one, except for its timestamp. */
  predicate SameRow(rows: Rows, d: Deployment) {
    d.id in rows && rows[d.id].(updatedAt := d.updatedAt) == d
  }

  /** The identity of the recorded runtime can be read, and is complete. */
  predicate Decidable(procs: Procs, d: Deployment, read: int -> Reading) {
    Reconcile(procs, RuntimeOf(d), read(d.pid)) != Unknown
  }

  /** When an identity can be decided at all, an incomplete reading decides it as a full one does. */
  lemma ReadingAgrees(procs: Procs, p: Ident, reading: Reading)
    ensures Reconcile(procs, p, reading) == Unknown || Reconcile(procs, p, reading) == Reconcile(procs, p, Readable)
  {
  }

  /** One row of the table took its recovered form. */
  lemma RecoveredStep(procs: Procs, before: Rows, rows: Rows, id: string, d: Deployment)
    requires RecoverAll(procs, rows) == RecoverAll(procs, before) && id in rows
    requires Erase(RecoverRow(procs, d)) == Erase(RecoverRow(procs, rows[id]))
    ensures RecoverAll(procs, rows[id := d]) == RecoverAll(procs, before)
  {
  }

  /** The listing of the process table that FindByCommand scans, and what identity reads return. */
  datatype System = System(procs: Procs, lines: seq<string>, pids: seq<int>, self: int, read: int -> Reading,
      scans: bool)

  ghost predicate SystemOk(sys: System) {
    && Lists(sys.lines, sys.pids, sys.procs)
    && sys.self !in sys.procs
    && (forall p :: p in sys.procs ==> p > 0)
  }

  /**
   * Adopts the runtime of a STARTING intent when exactly one process matches it; returns the row as the loop goes on
   * with it.
   */
  method AdoptIntent(store: Store, d: Deployment, sys: System, now: int)
    returns (err: Option<RecoverError>, e: Deployment)
    requires SystemOk(sys) && d.id in store.rows && store.rows[d.id] == d && d.phase == Starting && d.pid == 0
    modifies store
    ensures err == if sys.scans || d.command == "" then None else Some(ScanFailed)
    ensures err == None ==> e == AdoptRow(sys.procs, d)
    ensures err == None && e != d ==> store.rows == old(store.rows)[d.id := e.(updatedAt := now)]
    ensures err != None || e == d ==> store.rows == old(store.rows)
  {
    e := d;
    if d.command != "" {
      if !sys.scans {
        return Some(ScanFailed), d;
      }
      var matches := FindByCommand(sys.lines, StartsOf(sys.procs), d.command, d.updatedAt, sys.self);
      FindByCommandIsExact(sys.lines, sys.pids, sys.procs, d.command, d.updatedAt, sys.self);
      if |matches| == 1 {
        var m := matches[0];
        assert m in matches;
        MemberOfOne(Candidates(sys.procs, d.command, d.updatedAt), m.pid);
        var failed := store.SetRuntime(d.id, m.pid, d.port, m.command, m.startedAt, m.token, now);
        assert failed == None;
        e := d.(pid := m.pid, command := m.command, startedAt := m.startedAt, startToken := m.token);
      }
    }
    err := None;
  }

  /** Decides one row whose adoption is settled: leaves it, or marks it CRASHED. */
  method SettleRow(store: Store, d: Deployment, sys: System, now: int) returns (err: Option<RecoverError>)
    requires d.id in store.rows && store.rows[d.id].(updatedAt := d.updatedAt) == d
    requires !Teardown(d.phase) && !d.phase.Unrecognised?
    modifies store
    ensures err == if d.pid == 0 || Decidable(sys.procs, d, sys.read) then None else Some(IdentityUnavailable)
    ensures err != None ==> store.rows == old(store.rows)
    ensures err == None ==>
              && d.id in store.rows
              && store.rows == old(store.rows)[d.id := store.rows[d.id]]
              && Erase(store.rows[d.id]) == Erase(ReconcileRow(sys.procs, d))
              && Settled(sys.procs, store.rows[d.id])
  {
    if d.pid == 0 {
      var failed := store.Transition(d.id, d.phase, Crashed, NO_IDENTITY, now);
      assert failed == None;
      return None;
    }
    var status := Reconcile(sys.procs, RuntimeOf(d), sys.read(d.pid));
    ReadingAgrees(sys.procs, RuntimeOf(d), sys.read(d.pid));
    match status {
      case Running =>
        if d.phase == Requested || d.phase == Validating || d.phase == Downloading || d.phase == Starting {
          var failed := store.Transition(d.id, d.phase, Crashed, ADOPTED, now);
          assert failed == None;
        } else {
          assert RuntimeOf(store.rows[d.id]) == RuntimeOf(d);
        }
      case Stale =>
        var failed := store.Transition(d.id, d.phase, Crashed, GONE, now);
        assert failed == None;
      case Reused =>
        var failed := store.Transition(d.id, d.phase, Crashed, REUSED, now);
        assert failed == None;
      case Unknown => return Some(IdentityUnavailable);
    }
    err := None;
  }

  /** The row can be recovered: its intent can be scanned for if need be, and its runtime's identity decided. */
  ghost predicate Recoverable(sys: System, d: Deployment) {
    || Teardown(d.phase)
    || (&& (d.phase == Starting && d.pid == 0 && d.command != "" ==> sys.scans)
        && var a := AdoptRow(sys.procs, d); a.pid == 0 || Decidable(sys.procs, a, sys.read))
  }

  /** The body of the loop: one listed row takes its recovered form. */
  method RecoverOne(store: Store, d: Deployment, sys: System, now: int) returns (err: Option<RecoverError>)
    requires SystemOk(sys) && d.id in store.rows && store.rows[d.id] == d && !d.phase.Unrecognised?
    modifies store
    ensures err == None <==> Recoverable(sys, d)
    ensures err.Some? ==> !err.value.StoreFailed?
    ensures d.id in store.rows && store.rows == old(store.rows)[d.id := store.rows[d.id]]
    ensures Erase(RecoverRow(sys.procs, store.rows[d.id])) == Erase(RecoverRow(sys.procs, d))
    ensures err == None ==>
              Erase(store.rows[d.id]) == Erase(RecoverRow(sys.procs, d)) && Settled(sys.procs, store.rows[d.id])
  {
    if d.phase == Destroyed || d.phase == Destroying || d.phase == Failed || d.phase == Crashed {
      return None;
    }
    var e := d;
    if d.phase == Starting && d.pid == 0 {
      err, e := AdoptIntent(store, d, sys, now);
      if err != None {
        return;
      }
    }
    if e != d {
      InterruptedAdoptionCompletes(sys.procs, d, now);
    }
    ghost var adopted := store.rows[d.id];
    assert store.rows[e.id].(updatedAt := e.updatedAt) == e;
    err := SettleRow(store, e, sys, now);
    if err == None {
      RecoverRowIsIdempotent(sys.procs, d, store.rows[d.id].updatedAt);
    }
  }

  /** The row listed as `d` has its recovered form. */
  ghost predicate RowDone(sys: System, rows: Rows, d: Deployment) {
    && Recoverable(sys, d)
    && d.id in rows
    && Settled(sys.procs, rows[d.id])
    && Erase(rows[d.id]) == Erase(RecoverRow(sys.procs, d))
  }

  /** The first `i` rows of the listing are done, the others untouched. */
  ghost predicate Progress(sys: nat -> System, rows: Rows, listing: seq<Deployment>, i: int)
    requires 0 <= i <= |listing|
  {
    && (forall j :: 0 <= j < i ==> RowDone(sys(j), rows, listing[j]))
    && (forall j :: i <= j < |listing| ==> listing[j].id in rows && rows[listing[j].id] == listing[j])
  }

  lemma ProgressStep(sys: nat -> System, rows: Rows, rows': Rows, listing: seq<Deployment>, i: int)
    requires 0 <= i < |listing| && Progress(sys, rows, listing, i)
    requires forall j, k :: 0 <= j < k < |listing| ==> listing[j].id != listing[k].id
    requires listing[i].id in rows' && rows' == rows[listing[i].id := rows'[listing[i].id]]
    requires RowDone(sys(i), rows', listing[i])
    ensures Progress(sys, rows', listing, i + 1)
  {
    forall j | 0 <= j < i + 1 ensures RowDone(sys(j), rows', listing[j]) {
      assert j < i ==> RowDone(sys(j), rows, listing[j]);
    }
  }

  /** Every row of the listing meets the same process table. */
  ghost predicate Calm(sys: nat -> System, procs: Procs, n: nat) {
    forall i :: 0 <= i < n ==> sys(i).procs == procs
  }

  /**
   * recoverInterruptedDeployments, over the rows as listed; the i-th row meets the process table of `sys(i)`. It
   * succeeds exactly when every row can be decided, and then each row has its recovered form. Whether it succeeds or
   * stops early, what a completed recovery will make of the table is unchanged if the process table does not change
   * meanwhile.
   */
  method RecoverInterruptedDeployments(store: Store, listing: seq<Deployment>, sys: nat -> System, clock: nat -> int)
    returns (err: Option<RecoverError>)
    requires Enumerates(listing, store.rows) && forall i :: 0 <= i < |listing| ==> SystemOk(sys(i))
    requires forall id :: id in store.rows ==> store.rows[id].id == id && !store.rows[id].phase.Unrecognised?
    modifies store
    ensures err == None <==> forall i :: 0 <= i < |listing| ==> Recoverable(sys(i), listing[i])
    ensures err.Some? ==> !err.value.StoreFailed?
    ensures store.rows.Keys == old(store.rows).Keys
    ensures forall procs :: Calm(sys, procs, |listing|) ==>
                              RecoverAll(procs, store.rows) == RecoverAll(procs, old(store.rows))
    ensures err == None ==> forall i :: 0 <= i < |listing| ==> RowDone(sys(i), store.rows, listing[i])
  {
    hide Erase, RecoverAll, RecoverRow, Recoverable, Settled, SystemOk;
    ghost var before := store.rows;
    var i := 0;
    assert forall j :: 0 <= j < |listing| ==> listing[j] in listing;
    while i < |listing|
      invariant 0 <= i <= |listing|
      invariant store.rows.Keys == before.Keys
      invariant forall procs :: Calm(sys, procs, |listing|) ==>
                                  RecoverAll(procs, store.rows) == RecoverAll(procs, before)
      invariant Progress(sys, store.rows, listing, i)
    {
      var d := listing[i];
      assert d in listing && before[d.id] == d;
      ghost var rows := store.rows;
      err := RecoverOne(store, d, sys(i), clock(i));
      forall procs | Calm(sys, procs, |listing|) ensures RecoverAll(procs, store.rows) == RecoverAll(procs, before) {
        RecoveredStep(procs, before, rows, d.id, store.rows[d.id]);
      }
      if err != None {
        return;
      }
      ProgressStep(sys, rows, store.rows, listing, i);
      i := i + 1;
    }
    err := None;
  }
}
