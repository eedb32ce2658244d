/**
 * Recovery can be restarted: however often recovering commands are interrupted, with the process table unchanged, the
 * rows keep converging to what one undisturbed recovery makes of them.
 */
module Restart {
  import opened Basics
  import opened Phases
  import opened Store
  import opened Supervisor
  import opened Recovery
  import opened Host
  import opened Protocol
  import opened ProtocolInvariant
  import opened ProtocolSteps
  import opened ProtocolWorld

  /** A command that has not gone beyond recovery and the checks that follow it. */
  predicate Recovering(pc: Pc) {
    pc.ListRows? || pc.Recover? || pc.Adopt? || pc.Settle? || pc.MarkCrashed? || pc.Recovered?
  }

  /** Every row outside `pending` has its recovered form. */
  predicate SettledOutside(procs: Procs, rows: Rows, pending: set<string>) {
    forall id :: id in rows && id !in pending ==> Settled(procs, rows[id])
  }

  predicate WorkingOn(h: Host, d: Deployment, todo: seq<Deployment>) {
    Queue(h.rows, todo) && d.id !in Ids(todo) && SameRow(h.rows, d)
        && SettledOutside(h.procs, h.rows, Ids(todo) + {d.id})
  }

  /** Adoption is settled for `d`: it has a runtime, or there is none to adopt. */
  ghost predicate AtDecision(h: Host, d: Deployment, todo: seq<Deployment>) {
    && WorkingOn(h, d, todo)
    && !Teardown(d.phase)
    && AdoptRow(h.procs, d) == d
    && (d.pid == 0 ==> h.rows[d.id] == d)
  }

  /** What the command remembers is what the frozen process table says. */
  ghost predicate Coherent(h: Host, pc: Pc) {
    match pc
    case Recover(todo) => Queue(h.rows, todo) && SettledOutside(h.procs, h.rows, Ids(todo))
    case Adopt(d, m, todo) =>
      && WorkingOn(h, d, todo)
      && h.rows[d.id] == d
      && d.phase == Starting && d.pid == 0
      && AdoptRow(h.procs, d) == RowAdopted(d, m) && m.pid != 0
    case Settle(d, todo) => AtDecision(h, d, todo)
    case MarkCrashed(d, reason, todo) => AtDecision(h, d, todo) && ReconcileRow(h.procs, d) == CrashRow(d, reason)
    case Recovered => SettledOutside(h.procs, h.rows, {})
    case _ => true
  }

  /** One effect brings the table no further from, and no elsewhere than, its recovered form. */
  ghost predicate Converges(h: Host, r: (Host, Pc)) {
    && r.0.procs == h.procs
    && r.0.rows.Keys == h.rows.Keys
    && RecoverAll(h.procs, r.0.rows) == RecoverAll(h.procs, h.rows)
    && Coherent(r.0, r.1)
  }

  /** Recovering a settled row leaves it alone. */
  lemma SettledIsRecovered(procs: Procs, d: Deployment)
    requires Settled(procs, d)
    ensures RecoverRow(procs, d) == d
  {
  }

  /** The row being worked on changes to one with the same recovered form. */
  lemma RowConverges(h: Host, d: Deployment, todo: seq<Deployment>, d': Deployment)
    requires WorkingOn(h, d, todo) && d'.id == d.id
    requires Erase(RecoverRow(h.procs, d')) == Erase(RecoverRow(h.procs, h.rows[d.id]))
    ensures var h' := h.(rows := h.rows[d.id := d']);
            && h'.rows.Keys == h.rows.Keys
            && RecoverAll(h.procs, h'.rows) == RecoverAll(h.procs, h.rows)
            && Queue(h'.rows, todo)
            && SettledOutside(h.procs, h'.rows, Ids(todo) + {d.id})
            && (Settled(h.procs, d') ==> SettledOutside(h.procs, h'.rows, Ids(todo)))
  {
    QueueFrame(h.rows, todo, d.id, d');
    RecoveredStep(h.procs, h.rows, h.rows, d.id, d');
  }

  /** Taking a row off the queue that is being torn down, or whose adoption has to be settled first. */
  lemma TakenIsCoherent(h: Host, todo: seq<Deployment>)
    requires Coherent(h, Recover(todo)) && todo != []
    ensures var d, rest := todo[0], todo[1..];
            && WorkingOn(h, d, rest) && h.rows[d.id] == d
            && (Teardown(d.phase) ==> Coherent(h, Recover(rest)))
            && (!Teardown(d.phase) && AdoptRow(h.procs, d) == d ==> Coherent(h, Settle(d, rest)))
  {
    hide AdoptRow;
    Head(h.rows, todo);
    assert todo[0] in todo;
  }

  lemma TakeConverges(h: Host, todo: seq<Deployment>, c: Choice)
    requires Coherent(h, Recover(todo))
    ensures Converges(h, ActRecovery(h, Recover(todo), c))
  {
    hide Queue, RecoverAll;
    if todo == [] {
      assert Ids(todo) == {};
    } else {
      TakenIsCoherent(h, todo);
      AdoptedHasRuntime(h.procs, todo[0]);
      hide SettledOutside, SameRow;
    }
  }

  lemma AdoptConverges(h: Host, d: Deployment, m: Ident, todo: seq<Deployment>, c: Choice)
    requires Coherent(h, Adopt(d, m, todo))
    ensures Converges(h, ActRecovery(h, Adopt(d, m, todo), c))
  {
    var a := RowAdopted(d, m);
    InterruptedAdoptionCompletes(h.procs, d, h.now);
    RowConverges(h, d, todo, a.(updatedAt := h.now));
  }

  /** When adoption is settled, the stored row has the recovered form of the remembered one. */
  lemma DecisionIsRecovery(h: Host, d: Deployment, todo: seq<Deployment>)
    requires AtDecision(h, d, todo)
    ensures Erase(RecoverRow(h.procs, h.rows[d.id])) == Erase(ReconcileRow(h.procs, d))
  {
    var stored := h.rows[d.id];
    assert RuntimeOf(stored) == RuntimeOf(d);
  }

  lemma CrashConverges(h: Host, d: Deployment, reason: string, todo: seq<Deployment>)
    requires AtDecision(h, d, todo) && ReconcileRow(h.procs, d) == CrashRow(d, reason)
    ensures Converges(h, Move(h, d.id, d.phase, Crashed, reason, Recover(todo)))
  {
    hide AdoptRow, Reconcile, ReconcileRow, RecoverAll;
    var d' := Moved(h.rows[d.id], Crashed, reason, h.now);
    DecisionIsRecovery(h, d, todo);
    assert Erase(d') == Erase(CrashRow(d, reason));
    RowConverges(h, d, todo, d');
    hide RecoverAll, RecoverRow, AdoptRow, ReconcileRow;
  }

  /** Leaving a row alone is right when it is running and past the early phases. */
  lemma LeaveConverges(h: Host, d: Deployment, todo: seq<Deployment>)
    requires AtDecision(h, d, todo) && d.pid != 0 && !Early(d.phase)
    requires Reconcile(h.procs, RuntimeOf(d), Readable) == Running
    ensures Coherent(h, Recover(todo))
  {
    assert RuntimeOf(h.rows[d.id]) == RuntimeOf(d);
  }

  lemma SettleConverges(h: Host, d: Deployment, todo: seq<Deployment>, c: Choice)
    requires Coherent(h, Settle(d, todo))
    ensures Converges(h, ActRecovery(h, Settle(d, todo), c))
  {
    if d.pid == 0 {
      CrashConverges(h, d, NO_IDENTITY, todo);
    } else if c.Identity? {
      ReadingAgrees(h.procs, RuntimeOf(d), c.reading);
      hide RecoverAll, AdoptRow;
      if Reconcile(h.procs, RuntimeOf(d), c.reading) == Running && !Early(d.phase) {
        LeaveConverges(h, d, todo);
      }
    }
  }

  lemma ListConverges(h: Host, c: Choice)
    requires forall id :: id in h.rows ==> h.rows[id].id == id
    ensures Converges(h, ActRecovery(h, ListRows, c))
  {
    if c.Listing? && Enumerates(c.rows, h.rows) {
      Listed(h.rows, c.rows);
    }
  }

  lemma RecoveryConverges(h: Host, pc: Pc, c: Choice)
    requires forall id :: id in h.rows ==> h.rows[id].id == id
    requires pc.ListRows? || pc.Recover? || pc.Adopt? || pc.Settle? || pc.MarkCrashed?
    requires Coherent(h, pc)
    ensures Converges(h, ActRecovery(h, pc, c))
  {
    hide Converges, Coherent;
    match pc
    case ListRows => ListConverges(h, c);
    case Recover(todo) => TakeConverges(h, todo, c);
    case Adopt(d, m, todo) => AdoptConverges(h, d, m, todo, c);
    case Settle(d, todo) => SettleConverges(h, d, todo, c);
    case MarkCrashed(d, reason, todo) => MarkConverges(h, d, reason, todo, c);
  }

  lemma MarkConverges(h: Host, d: Deployment, reason: string, todo: seq<Deployment>, c: Choice)
    requires Coherent(h, MarkCrashed(d, reason, todo))
    ensures Converges(h, ActRecovery(h, MarkCrashed(d, reason, todo), c))
  {
    CrashConverges(h, d, reason, todo);
  }

  // ----- runs -----

  /**
   * An event of a run in which commands recover, check, die and are started again, while the process table stands
   * still.
   */
  predicate RestartEvent(w: World, e: Event) {
    match e
    case Advance(c, _) => c in w.cmds ==> Recovering(w.cmds[c].pc)
    case Environment(env) => env.Tick?
    case _ => true
  }

  ghost predicate RestartRun(w: World, events: seq<Event>)
    decreases |events|
  {
    events != [] ==> RestartEvent(w, events[0]) && RestartRun(Step(w, events[0]), events[1..])
  }

  ghost predicate AllCoherent(w: World) {
    forall c :: c in w.cmds ==> Coherent(w.host, w.cmds[c].pc)
  }

  /** The table of `v` is on its way to the recovered form of the table of `w`. */
  ghost predicate OnTheWay(w: Host, v: Host) {
    v.procs == w.procs && v.rows.Keys == w.rows.Keys && RecoverAll(v.procs, v.rows) == RecoverAll(w.procs, w.rows)
  }

  lemma ActConverges(h: Host, goal: Goal, pc: Pc, c: Choice)
    requires forall id :: id in h.rows ==> h.rows[id].id == id
    requires Recovering(pc) && Coherent(h, pc)
    ensures Converges(h, Act(h, goal, pc, c))
  {
    hide ActRecovery, ActRecovered, Converges, Coherent;
    if pc.Recovered? {
      CheckedConverges(h, goal, c);
    } else {
      RecoveryConverges(h, pc, c);
    }
  }

  lemma CheckedConverges(h: Host, goal: Goal, c: Choice)
    requires Coherent(h, Recovered)
    ensures Converges(h, ActRecovered(h, goal, c))
  {
    hide RecoverAll, Enumerates, ValidSpec;
  }

  lemma Unaffected(pc: Pc, h: Host, now: int)
    ensures Coherent(h.(now := now), pc) == Coherent(h, pc)
    ensures OnTheWay(h, h.(now := now)) && OnTheWay(h, h)
  {
  }

  /** Outside recovery a command claims nothing about it, nor before it. */
  lemma OutsideIsCoherent(h: Host, pc: Pc)
    requires pc.Idle? || pc.ListRows? || !Recovering(pc)
    ensures Coherent(h, pc)
  {
  }

  lemma AdvanceConverges(w: World, c: nat, choice: Choice)
    requires WorldInv(w) && AllCoherent(w) && c in w.cmds && Recovering(w.cmds[c].pc)
    ensures var next := Attempt(w, Advance(c, choice)); OnTheWay(w.host, next.host) && AllCoherent(next)
  {
    hide Inv, NoImposter, Act, RecoverAll, PcInv, Coherent;
    OthersIdle(w, c);
    RowsNamed(w.host);
    ActConverges(w.host, w.cmds[c].goal, w.cmds[c].pc, choice);
    OutsideIsCoherent(Attempt(w, Advance(c, choice)).host, Idle);
  }

  lemma RestartStep(w: World, e: Event)
    requires WorldInv(w) && AllCoherent(w) && RestartEvent(w, e)
    ensures OnTheWay(w.host, Step(w, e).host) && AllCoherent(Step(w, e))
  {
    hide Inv, NoImposter, Act, RecoverAll, AtDecision, WorkingOn, SettledOutside, Queue, AdoptRow, PcInv;
    if e.Advance? {
      if e.c in w.cmds {
        AdvanceConverges(w, e.c, e.choice);
      }
    } else if e.Environment? {
      forall c | c in w.cmds ensures Coherent(w.host.(now := w.host.now + e.e.delta), w.cmds[c].pc) {
        Unaffected(w.cmds[c].pc, w.host, w.host.now + e.e.delta);
      }
    }
  }

  lemma {:induction false} RestartRunConverges(w: World, events: seq<Event>)
    requires WorldInv(w) && AllCoherent(w) && RestartRun(w, events)
    ensures OnTheWay(w.host, RunAll(w, events).host) && AllCoherent(RunAll(w, events)) && WorldInv(RunAll(w, events))
    decreases |events|
  {
    hide WorldInv, AllCoherent, Step, RestartEvent, RecoverAll;
    if events != [] {
      StepKeeps(w, events[0]);
      RestartStep(w, events[0]);
      RestartRunConverges(Step(w, events[0]), events[1..]);
    }
  }

  /**
   * Restartable recovery. Take any reachable machine on which no command has the lock, and freeze its process table.
   * Let commands start, recover, check, wait, die at any point and start again: the recovered form of the table never
   * changes, so nothing is decided differently for having been interrupted. And once any command has finished
   * recovering, the table is in that form: the phases, PIDs and reasons of one undisturbed recovery, every row torn
   * down or running.
   */
  lemma RecoveryIsRestartable(w: World, events: seq<Event>)
    requires WorldInv(w) && w.lock == None && RestartRun(w, events)
    ensures var v := RunAll(w, events);
            && OnTheWay(w.host, v.host)
            && forall c :: c in v.cmds && v.cmds[c].pc == Recovered ==> TableRecovered(w.host, v.host)
  {
    assert AllCoherent(w) by { hide Inv, NoImposter, PcInv; assert forall c :: c in w.cmds ==> CmdInv(w, c); }
    RestartRunConverges(w, events);
    var v := RunAll(w, events);
    forall c | c in v.cmds && v.cmds[c].pc == Recovered ensures TableRecovered(w.host, v.host) {
      RecoveredTable(w.host, v.host);
    }
  }

  ghost predicate TableRecovered(w: Host, v: Host) {
    && v.rows.Keys == w.rows.Keys
    && forall id :: id in w.rows ==>
         Settled(w.procs, v.rows[id]) && Erase(v.rows[id]) == Erase(RecoverRow(w.procs, w.rows[id]))
  }

  lemma RecoveredTable(w: Host, v: Host)
    requires OnTheWay(w, v) && Coherent(v, Recovered)
    ensures TableRecovered(w, v)
  {
    forall id | id in w.rows ensures Erase(v.rows[id]) == Erase(RecoverRow(w.procs, w.rows[id])) {
      SettledIsRecovered(v.procs, v.rows[id]);
      assert RecoverAll(v.procs, v.rows)[id] == RecoverAll(w.procs, w.rows)[id];
    }
  }
}
