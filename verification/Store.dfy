/** The deployment store: guarded, atomic updates of deployment rows. */
module Store {
  import opened Basics
  import opened Phases

  /** A cleaned file path. */
  datatype Path = Path(absolute: bool, elements: seq<string>)

  /**
   * A deployment row. Times count nanoseconds; a start time of 0 is Go's zero time, a missing cache directory the
   * empty string.
   */
  datatype Deployment = Deployment(
    id: string,
    alias: string,
    artifact: string,
    revision: string,
    cacheDir: Option<Path>,
    port: int,
    pid: int,
    command: string,
    startedAt: int,
    startToken: string,
    phase: Phase,
    failureReason: string,
    key: string,
    createdAt: int,
    updatedAt: int)

  type Rows = map<string, Deployment>

  datatype StoreError = NotFound | Conflict | Duplicate | NotDestroyed | IllegalTransition

  /** A timestamp printed with second precision. */
  function WholeSeconds(t: int): (s: int)
    ensures t >= 0 ==> 0 <= t - s < SECOND
  {
    t / SECOND * SECOND
  }

  /** The last whole second up to `t`. */
  lemma WholeSecondsIsExact(t: int, s: int)
    ensures s == WholeSeconds(t) <==> s % 1_000_000_000 == 0 && s <= t < s + 1_000_000_000
  {
  }

  function CreateRow(rows: Rows, d: Deployment, now: int): Result<Rows, StoreError> {
    if d.id in rows then Err(Duplicate)
    else Ok(rows[d.id := d.(phase := Requested, failureReason := "",
                            createdAt := WholeSeconds(now), updatedAt := WholeSeconds(now))])
  }

  function TransitionRow(rows: Rows, id: string, from: Phase, to: Phase, reason: string, now: int)
    : Result<Rows, StoreError>
  {
    if !Legal(from, to) then Err(IllegalTransition)
    else if id !in rows then Err(NotFound)
    else if rows[id].phase != from then Err(Conflict)
    else Ok(rows[id := rows[id].(phase := to,
                                 failureReason := if to == Failed || to == Crashed then reason else "",
                                 updatedAt := WholeSeconds(now))])
  }

  function SetIntentRow(rows: Rows, id: string, port: int, command: string, now: int): Result<Rows, StoreError> {
    if id !in rows then Err(NotFound)
    else if rows[id].phase != Downloading then Err(Conflict)
    else Ok(rows[id := rows[id].(pid := 0, port := port, command := command, startedAt := 0, startToken := "",
                                 updatedAt := now)])
  }

  function SetRuntimeRow(rows: Rows, id: string, pid: int, port: int, command: string, startedAt: int,
                         startToken: string, now: int): Result<Rows, StoreError> {
    if id !in rows then Err(NotFound)
    else if rows[id].phase != Starting || rows[id].pid != 0 then Err(Conflict)
    else Ok(rows[id := rows[id].(pid := pid, port := port, command := command, startedAt := startedAt,
                                 startToken := startToken, updatedAt := now)])
  }

  function DeleteRow(rows: Rows, id: string): Result<Rows, StoreError> {
    if id !in rows then Err(NotFound)
    else if rows[id].phase != Destroyed then Err(NotDestroyed)
    else Ok(rows - {id})
  }

  /**
   * The database handle. Each method is one atomic statement: it takes effect completely, or reports why it did not.
   */
  class Store {
    var rows: Rows

    constructor ()
      ensures rows == map[]
    {
      rows := map[];
    }

    ghost predicate Outcome(r: Result<Rows, StoreError>, before: Rows, err: Option<StoreError>)
      reads this
    {
      match r
      case Ok(after) => err == None && rows == after
      case Err(e) => err == Some(e) && rows == before
    }

    method Create(d: Deployment, now: int) returns (err: Option<StoreError>)
      modifies this
      ensures Outcome(CreateRow(old(rows), d, now), old(rows), err)
    {
      if d.id in rows {
        return Some(Duplicate);
      }
      var stamp := WholeSeconds(now);
      rows := rows[d.id := d.(phase := Requested, failureReason := "", createdAt := stamp, updatedAt := stamp)];
      return None;
    }

    method Get(id: string) returns (r: Result<Deployment, StoreError>)
      ensures r == if id in rows then Ok(rows[id]) else Err(NotFound)
    {
      if id in rows {
        return Ok(rows[id]);
      }
      return Err(NotFound);
    }

    method Transition(id: string, from: Phase, to: Phase, reason: string, now: int) returns (err: Option<StoreError>)
      modifies this
      ensures Outcome(TransitionRow(old(rows), id, from, to, reason, now), old(rows), err)
    {
      if !Legal(from, to) {
        return Some(IllegalTransition);
      }
      var stored := reason;
      if to != Failed && to != Crashed {
        stored := "";
      }
      var affected := 0;
      if id in rows && rows[id].phase == from {
        rows := rows[id := rows[id].(phase := to, failureReason := stored, updatedAt := WholeSeconds(now))];
        affected := 1;
      }
      if affected == 0 {
        var current := Get(id);
        if current.Err? {
          return Some(current.error);
        }
        return Some(Conflict);
      }
      return None;
    }

    method SetRuntimeIntent(id: string, port: int, command: string, now: int) returns (err: Option<StoreError>)
      modifies this
      ensures Outcome(SetIntentRow(old(rows), id, port, command, now), old(rows), err)
    {
      var affected := 0;
      if id in rows && rows[id].phase == Downloading {
        rows := rows[id := rows[id].(pid := 0, port := port, command := command, startedAt := 0, startToken := "",
                                     updatedAt := now)];
        affected := 1;
      }
      err := ExpectOneRuntimeRow(affected, id);
    }

    method SetRuntime(id: string, pid: int, port: int, command: string, startedAt: int, startToken: string, now: int)
      returns (err: Option<StoreError>)
      modifies this
      ensures Outcome(SetRuntimeRow(old(rows), id, pid, port, command, startedAt, startToken, now), old(rows), err)
    {
      var affected := 0;
      if id in rows && rows[id].phase == Starting && rows[id].pid == 0 {
        rows := rows[id := rows[id].(pid := pid, port := port, command := command, startedAt := startedAt,
                                     startToken := startToken, updatedAt := now)];
        affected := 1;
      }
      err := ExpectOneRuntimeRow(affected, id);
    }

    method ExpectOneRuntimeRow(affected: nat, id: string) returns (err: Option<StoreError>)
      ensures err == if affected > 0 then None else if id in rows then Some(Conflict) else Some(NotFound)
    {
      if affected == 0 {
        var current := Get(id);
        if current.Err? {
          return Some(current.error);
        }
        return Some(Conflict);
      }
      return None;
    }

    method Delete(id: string) returns (err: Option<StoreError>)
      modifies this
      ensures Outcome(DeleteRow(old(rows), id), old(rows), err)
    {
      if id in rows && rows[id].phase == Destroyed {
        rows := rows - {id};
        return None;
      }
      var current := Get(id);
      if current.Err? {
        return Some(NotFound);
      }
      return Some(NotDestroyed);
    }
  }
}

/** What every sequence of store operations keeps, whoever issues them and with whatever arguments. */
module StoreHistory {
  import opened Basics
  import opened Phases
  import opened Store

  /** A store operation with its arguments and the time it takes effect. */
  datatype Op =
    | Create(d: Deployment, now: int)
    | Move(id: string, from: Phase, to: Phase, reason: string, now: int)
    | SetIntent(id: string, port: int, command: string, now: int)
    | SetRuntime(id: string, pid: int, port: int, command: string, startedAt: int, startToken: string, now: int)
    | Delete(id: string)

  /** Deployments are created without a runtime, as runDeploy does. */
  predicate NoRuntimeAtCreate(op: Op) {
    op.Create? ==> op.d.pid == 0
  }

  function Attempt(rows: Rows, op: Op): Result<Rows, StoreError> {
    match op
    case Create(d, now) => CreateRow(rows, d, now)
    case Move(id, from, to, reason, now) => TransitionRow(rows, id, from, to, reason, now)
    case SetIntent(id, port, command, now) => SetIntentRow(rows, id, port, command, now)
    case SetRuntime(id, pid, port, command, startedAt, startToken, now) =>
      SetRuntimeRow(rows, id, pid, port, command, startedAt, startToken, now)
    case Delete(id) => DeleteRow(rows, id)
  }

  /** A refused operation changes nothing. */
  function Apply(rows: Rows, op: Op): Rows {
    var r := Attempt(rows, op);
    if r.Ok? then r.value else rows
  }

  function ApplyAll(rows: Rows, ops: seq<Op>): Rows
    decreases |ops|
  {
    if ops == [] then rows else ApplyAll(Apply(rows, ops[0]), ops[1..])
  }

  predicate RowSound(d: Deployment) {
    && (d.phase in {Requested, Validating, Downloading} ==> d.pid == 0)
    && (d.failureReason != "" ==> d.phase == Failed || d.phase == Crashed)
    && !d.phase.Unrecognised?
  }

  predicate RowsSound(rows: Rows) {
    forall id :: id in rows ==> rows[id].id == id && RowSound(rows[id])
  }

  /** What an update of one row may change: a recorded runtime identity is frozen, and teardown is final. */
  predicate Evolves(a: Deployment, b: Deployment) {
    && (b.id, b.alias, b.artifact, b.revision) == (a.id, a.alias, a.artifact, a.revision)
    && (b.cacheDir, b.key, b.createdAt) == (a.cacheDir, a.key, a.createdAt)
    && (a.pid != 0 ==> (b.pid, b.port, b.command, b.startedAt, b.startToken)
                       == (a.pid, a.port, a.command, a.startedAt, a.startToken))
    && (Teardown(a.phase) ==> Teardown(b.phase))
  }

  /** What one operation does to the whole table. */
  predicate TableEvolves(before: Rows, after: Rows) {
    && (forall id :: id in before && id in after ==> Evolves(before[id], after[id]))
    && (forall id :: id in before && id !in after ==> before[id].phase == Destroyed)
    && (forall id :: id !in before && id in after ==> after[id].phase == Requested && after[id].pid == 0)
  }

  lemma UpdatedRowEvolves(rows: Rows, op: Op)
    requires RowsSound(rows) && !op.Create? && !op.Delete? && Attempt(rows, op).Ok?
    ensures op.id in rows && Attempt(rows, op).value.Keys == rows.Keys
    ensures forall id :: id in rows && id != op.id ==> Attempt(rows, op).value[id] == rows[id]
    ensures var d := Attempt(rows, op).value[op.id]; RowSound(d) && Evolves(rows[op.id], d)
  {
    assert RowSound(rows[op.id]);
  }

  /** One operation: sound rows stay sound and evolve, rows vanish only from DESTROYED and appear only as REQUESTED. */
  lemma OpKeepsRows(rows: Rows, op: Op)
    requires RowsSound(rows) && NoRuntimeAtCreate(op)
    ensures RowsSound(Apply(rows, op)) && TableEvolves(rows, Apply(rows, op))
  {
    if Attempt(rows, op).Ok? && !op.Create? && !op.Delete? {
      UpdatedRowEvolves(rows, op);
    }
  }

  /** From the empty store, every reachable set of rows is sound. */
  lemma {:induction false} HistoryIsSound(rows: Rows, ops: seq<Op>)
    requires RowsSound(rows) && forall i :: 0 <= i < |ops| ==> NoRuntimeAtCreate(ops[i])
    ensures RowsSound(ApplyAll(rows, ops))
    decreases |ops|
  {
    if ops != [] {
      OpKeepsRows(rows, ops[0]);
      HistoryIsSound(Apply(rows, ops[0]), ops[1..]);
    }
  }

  /** The row is there now and after each of the operations. */
  predicate Present(rows: Rows, ops: seq<Op>, id: string)
    decreases |ops|
  {
    id in rows && (ops != [] ==> Present(Apply(rows, ops[0]), ops[1..], id))
  }

  /**
   * Over every history, from whatever sound state, a row that is never deleted evolves: its recorded PID, port,
   * command, start time and token never change again, and it never leaves teardown.
   */
  lemma {:induction false} RowEvolvesUntilDeleted(rows: Rows, ops: seq<Op>, id: string)
    requires RowsSound(rows) && forall i :: 0 <= i < |ops| ==> NoRuntimeAtCreate(ops[i])
    requires Present(rows, ops, id)
    ensures id in ApplyAll(rows, ops) && Evolves(rows[id], ApplyAll(rows, ops)[id])
    decreases |ops|
  {
    if ops != [] {
      OpKeepsRows(rows, ops[0]);
      RowEvolvesUntilDeleted(Apply(rows, ops[0]), ops[1..], id);
    }
  }

  /** Ownership history is never dropped early: a row that disappears in a history was DESTROYED at some point of it. */
  lemma {:induction false} RowsVanishOnlyWhenDestroyed(rows: Rows, ops: seq<Op>, id: string)
    requires RowsSound(rows) && forall i :: 0 <= i < |ops| ==> NoRuntimeAtCreate(ops[i])
    requires id in rows && id !in ApplyAll(rows, ops)
    ensures exists k :: 0 <= k < |ops| && WasDestroyedAt(rows, ops, id, k)
    decreases |ops|
  {
    OpKeepsRows(rows, ops[0]);
    var next := Apply(rows, ops[0]);
    assert ops[..0] == [];
    if id !in next {
      assert WasDestroyedAt(rows, ops, id, 0);
    } else {
      RowsVanishOnlyWhenDestroyed(next, ops[1..], id);
      var k :| 0 <= k < |ops| - 1 && WasDestroyedAt(next, ops[1..], id, k);
      assert ops[..k + 1][0] == ops[0] && ops[..k + 1][1..] == ops[1..][..k];
      assert WasDestroyedAt(rows, ops, id, k + 1);
    }
  }

  predicate WasDestroyedAt(rows: Rows, ops: seq<Op>, id: string, k: int)
    requires 0 <= k <= |ops|
  {
    var at := ApplyAll(rows, ops[..k]);
    id in at && at[id].phase == Destroyed
  }

  /**
   * What a launch records: from DOWNLOADING the intent, the transition and the runtime all succeed; the row is first an
   * intent without an identity, and then has the runtime's port and identity, with nothing else changed.
   */
  lemma LaunchIsRecorded(rows: Rows, id: string, port: int, command: string, pid: int, port': int, command': string,
                         startedAt: int, token: string, at: int)
    requires id in rows && rows[id].phase == Downloading
    ensures var intent := SetIntentRow(rows, id, port, command, at);
            && intent.Ok?
            && var starting := TransitionRow(intent.value, id, Downloading, Starting, "", at);
            && starting.Ok?
            && (starting.value[id].port, starting.value[id].command, starting.value[id].pid) == (port, command, 0)
            && (starting.value[id].startedAt, starting.value[id].startToken) == (0, "")
            && var running := SetRuntimeRow(starting.value, id, pid, port', command', startedAt, token, at);
            && running.Ok?
            && running.value == rows[id := rows[id].(phase := Starting, failureReason := "", pid := pid, port := port',
                                                     command := command', startedAt := startedAt, startToken := token,
                                                     updatedAt := at)]
  {
    hide WholeSeconds;
    var row := rows[id].(phase := Starting, failureReason := "", pid := pid, port := port', command := command',
                         startedAt := startedAt, startToken := token, updatedAt := at);
    var intent := SetIntentRow(rows, id, port, command, at).value;
    var starting := TransitionRow(intent, id, Downloading, Starting, "", at).value;
    assert starting[id := row] == rows[id := row];
  }

  /**
   * The compare-and-set guard: of two moves that expect the same phase, the second always fails, unless the first
   * did.
   */
  lemma OnlyOneMoveWins(rows: Rows, id: string, from: Phase, to: Phase, other: Phase, reason: string, now: int)
    requires RowsSound(rows)
    ensures var first := TransitionRow(rows, id, from, to, reason, now);
            first.Ok? ==> TransitionRow(first.value, id, from, other, reason, now).Err?
  {
  }
}
