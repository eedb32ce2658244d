/** Every effect of every command keeps the invariant, and never meets a store fault. */
module ProtocolSteps {
  import opened Basics
  import opened Text
  import opened Phases
  import opened Store
  import opened Supervisor
  import opened Recovery
  import opened Files
  import opened Host
  import opened Protocol
  import opened ProtocolInvariant

  /** One row changed; a queue without it is still exact. */
  lemma QueueFrame(rows: Rows, todo: seq<Deployment>, id: string, d: Deployment)
    requires Queue(rows, todo) && id !in Ids(todo)
    ensures Queue(rows[id := d], todo) && Queue(rows - {id}, todo)
  {
    forall t | t in todo ensures t.id != id {
      assert t.id in Ids(todo);
    }
  }

  lemma Head(rows: Rows, todo: seq<Deployment>)
    requires Queue(rows, todo) && todo != []
    ensures Pending(rows, todo[0], todo[1..]) && Ids(todo) == Ids(todo[1..]) + {todo[0].id}
    ensures forall t :: t in todo[1..] ==> t in todo
  {
    assert forall t :: t in todo <==> t == todo[0] || t in todo[1..];
    assert forall i, j :: 0 <= i < j < |todo[1..]| ==>
                            todo[1..][i].id == todo[i + 1].id && todo[1..][j].id == todo[j + 1].id;
    forall t | t in todo[1..] ensures t.id != todo[0].id {
      var k :| 0 <= k < |todo[1..]| && todo[1..][k] == t;
      assert todo[0].id != todo[k + 1].id;
    }
  }

  lemma Listed(rows: Rows, todo: seq<Deployment>)
    requires Enumerates(todo, rows) && forall id :: id in rows ==> rows[id].id == id
    ensures Queue(rows, todo) && Ids(todo) == rows.Keys
  {
    forall id | id in rows ensures id in Ids(todo) {
      assert rows[id] in todo;
    }
  }

  // ----- recovery -----

  /**
   * What the scan for a STARTING intent finds is the runtime launched from it; if it finds nothing, nothing is alive.
   */
  lemma ScanDecides(h: Host, d: Deployment)
    requires Inv(h) && NoImposter(h) && d.id in h.rows && h.rows[d.id] == d && d.phase == Starting && d.pid == 0
    ensures match Only(Candidates(h.procs, d.command, d.updatedAt))
            case Some(p) =>
              && p in h.procs && p > 0 && LaunchId(p, h.procs[p].token) in h.launches
              && h.launches[LaunchId(p, h.procs[p].token)] == OwnerOf(d)
            case None => NoneLive(h, OwnerOf(d))
    ensures d.command == "" ==> NoneLive(h, OwnerOf(d))
  {
    ScanSeesLaunch(h, d.id);
    var found := Candidates(h.procs, d.command, d.updatedAt);
    match Only(found) {
      case Some(p) => assert p in found;
      case None => assert found != {} ==> exists p :: p in found && found == {p};
    }
    if d.command == "" {
      assert Fields(d.command) == [];
      assert forall p :: p in h.procs ==> !MatchesCommandIntent(h.procs[p].command, d.command);
      assert found == {};
    }
  }

  /** Taking the next record off the queue, before anything is decided about it. */
  lemma TakeNext(h: Host, todo: seq<Deployment>)
    requires AtRecover(h, todo) && todo != []
    ensures InRecovery(h, todo[0], todo[1..])
    ensures Teardown(todo[0].phase) ==> AtRecover(h, todo[1..])
  {
    Head(h.rows, todo);
  }

  /** A record that recovery must settle: by adopting the runtime it launched, or because nothing of it can be alive. */
  lemma TakeUnsettled(h: Host, todo: seq<Deployment>)
    requires Inv(h) && NoImposter(h) && AtRecover(h, todo) && todo != [] && !Teardown(todo[0].phase)
    ensures var d, rest := todo[0], todo[1..];
            if d.phase == Starting && d.pid == 0 && d.command != "" then
              match Only(Candidates(h.procs, d.command, d.updatedAt))
              case Some(p) => p in h.procs && AtAdopt(h, d, IdentOf(h.procs, p), rest)
              case None => AtSettle(h, d, rest)
            else AtSettle(h, d, rest)
  {
    var d, rest := todo[0], todo[1..];
    TakeNext(h, todo);
    assert d in todo && h.rows[d.id] == d;
    if d.phase == Starting && d.pid == 0 {
      ScanDecides(h, d);
    } else if d.pid == 0 {
      NothingUnrecorded(h, d.id);
    }
  }

  lemma NothingLeft(h: Host)
    requires AtRecover(h, [])
    ensures SettledBut(h.rows, {})
  {
    assert Ids([]) == {};
  }

  lemma RecoverKeeps(h: Host, todo: seq<Deployment>, c: Choice)
    requires Inv(h) && NoImposter(h) && AtRecover(h, todo)
    ensures Good(ActRecovery(h, Recover(todo), c))
  {
    hide Inv, PcInv, NoImposter, AtRecover, AtAdopt, AtSettle, Candidates;
    var (h', pc') := ActRecovery(h, Recover(todo), c);
    if todo == [] {
      NothingLeft(h);
    } else if Teardown(todo[0].phase) {
      TakeNext(h, todo);
    } else {
      TakeUnsettled(h, todo);
    }
    if pc'.Ended? {
      NoPart(h', pc');
    } else {
      RecoveryPart(h', pc');
    }
  }

  /** A row without a runtime has nothing alive, unless it is a STARTING intent. */
  lemma NothingUnrecorded(h: Host, id: string)
    requires Inv(h) && id in h.rows && h.rows[id].pid == 0 && h.rows[id].phase != Starting
    ensures NoneLive(h, OwnerOf(h.rows[id]))
  {
    forall l | l in h.launches && h.launches[l] == OwnerOf(h.rows[id]) ensures !Live(h.procs, l) {
      assert Live(h.procs, l) ==> AccountedFor(h.rows, h.procs, h.launches[l], l);
    }
  }

  /** The row with the identity that recovery found. */
  function WithFound(d: Deployment, m: Ident, now: int): Deployment {
    d.(pid := m.pid, command := m.command, startedAt := m.startedAt, startToken := m.token, updatedAt := now)
  }

  lemma AdoptedIsSound(h: Host, d: Deployment, m: Ident, todo: seq<Deployment>)
    requires Inv(h) && AtAdopt(h, d, m, todo)
    ensures Inv(h.(rows := h.rows[d.id := WithFound(h.rows[d.id], m, h.now)]))
  {
    var was := h.rows[d.id];
    var now := WithFound(was, m, h.now);
    assert RowOk(h, was) && Active(was);
    assert RowOk(h, now) by {
      assert CachePath(h.root, now) == CachePath(h.root, was) && OwnerOf(now) == OwnerOf(was);
    }
    forall l | l in h.launches && h.launches[l].id == d.id && Live(h.procs, l)
      ensures h.launches[l].key == now.key && Claims(h.procs, now, l)
    {
      assert AccountedFor(h.rows, h.procs, h.launches[l], l);
      assert SameOwner(h.launches, l, IdOf(m));
    }
    OnlyActive(h, d.id);
    UpdateRow(h, now);
  }

  lemma AdoptedAtSettle(h: Host, d: Deployment, m: Ident, todo: seq<Deployment>)
    requires AtAdopt(h, d, m, todo)
    ensures AtSettle(h.(rows := h.rows[d.id := WithFound(h.rows[d.id], m, h.now)]), RowAdopted(d, m), todo)
  {
    QueueFrame(h.rows, todo, d.id, WithFound(h.rows[d.id], m, h.now));
  }

  /** Marking a record CRASHED while recovery works on it. */
  lemma CrashKeeps(h: Host, d: Deployment, reason: string, todo: seq<Deployment>)
    requires Inv(h) && AtSettle(h, d, todo)
    ensures var (h', pc') := Move(h, d.id, d.phase, Crashed, reason, Recover(todo));
            Inv(h') && pc' == Recover(todo) && AtRecover(h', todo)
  {
    assert RowOk(h, h.rows[d.id]);
    assert OwnerOf(h.rows[d.id]) == OwnerOf(d);
    MoveKeeps(h, d.id, d.phase, Crashed, reason, Recover(todo));
    QueueFrame(h.rows, todo, d.id, Moved(h.rows[d.id], Crashed, reason, h.now));
  }

  lemma ReconcileKeeps(h: Host, d: Deployment, todo: seq<Deployment>, c: Choice)
    requires AtSettle(h, d, todo) && d.pid != 0
    ensures var (h', pc') := ActRecovery(h, Settle(d, todo), c);
            && h' == h
            && (|| pc' == Settle(d, todo) || pc' == Ended
                || (pc'.MarkCrashed? && pc'.d == d && pc'.todo == todo && AtMarkCrashed(h, d, todo))
                || (pc' == Recover(todo) && AtRecover(h, todo)))
  {
  }

  lemma ListRowsKeeps(h: Host, c: Choice)
    requires Inv(h)
    ensures Good(ActRecovery(h, ListRows, c))
  {
    hide Inv, PcInv;
    NoPart(h, ListRows);
    if c.Listing? && Enumerates(c.rows, h.rows) {
      RowsNamed(h);
      Listed(h.rows, c.rows);
      RecoveryPart(h, Recover(c.rows));
    }
  }

  lemma SettleKeeps(h: Host, d: Deployment, todo: seq<Deployment>, c: Choice)
    requires Inv(h) && AtSettle(h, d, todo)
    ensures Good(ActRecovery(h, Settle(d, todo), c))
  {
    hide Inv, PcInv, AtRecover, AtMarkCrashed;
    var (h', pc') := ActRecovery(h, Settle(d, todo), c);
    if d.pid == 0 {
      CrashKeeps(h, d, NO_IDENTITY, todo);
    } else {
      ReconcileKeeps(h, d, todo, c);
    }
    if pc'.Ended? {
      NoPart(h', pc');
    } else {
      RecoveryPart(h', pc');
    }
  }

  lemma MarkCrashedKeeps(h: Host, d: Deployment, reason: string, todo: seq<Deployment>, c: Choice)
    requires Inv(h) && AtMarkCrashed(h, d, todo)
    ensures Good(ActRecovery(h, MarkCrashed(d, reason, todo), c))
  {
    hide Inv, PcInv, AtRecover;
    CrashKeeps(h, d, reason, todo);
    RecoveryPart(ActRecovery(h, MarkCrashed(d, reason, todo), c).0, Recover(todo));
  }

  lemma AdoptionKeeps(h: Host, d: Deployment, m: Ident, todo: seq<Deployment>, c: Choice)
    requires Inv(h) && AtAdopt(h, d, m, todo)
    ensures Good(ActRecovery(h, Adopt(d, m, todo), c))
  {
    hide Inv, PcInv;
    AdoptedIsSound(h, d, m, todo);
    AdoptedAtSettle(h, d, m, todo);
    RecoveryPart(ActRecovery(h, Adopt(d, m, todo), c).0, Settle(RowAdopted(d, m), todo));
    hide AtSettle;
  }

  lemma RecoveryKeeps(h: Host, pc: Pc, c: Choice)
    requires Inv(h) && NoImposter(h) && PcInv(h, pc)
    requires pc.ListRows? || pc.Recover? || pc.Adopt? || pc.Settle? || pc.MarkCrashed?
    ensures Good(ActRecovery(h, pc, c))
  {
    hide Inv, Good, PcInv, AtRecover, AtAdopt, AtSettle, AtMarkCrashed;
    if !pc.ListRows? {
      RecoveryPart(h, pc);
    }
    match pc
    case ListRows => ListRowsKeeps(h, c);
    case Recover(todo) => RecoverKeeps(h, todo, c);
    case Adopt(d, m, todo) => AdoptionKeeps(h, d, m, todo, c);
    case Settle(d, todo) => SettleKeeps(h, d, todo, c);
    case MarkCrashed(d, reason, todo) => MarkCrashedKeeps(h, d, reason, todo, c);
  }

  // ----- what the command was for -----

  lemma {:induction false} FilterKeepsDistinct(s: seq<Deployment>, keep: Deployment -> bool)
    requires Distinct(s)
    ensures Distinct(Filter(s, keep))
  {
    if s != [] {
      var rest := s[1..];
      assert forall i :: 0 <= i < |rest| ==> rest[i] == s[i + 1];
      FilterKeepsDistinct(rest, keep);
      forall t | t in Filter(rest, keep) ensures t.id != s[0].id {
        var k :| 0 <= k < |rest| && rest[k] == t;
        assert s[0].id != s[k + 1].id;
      }
    }
  }

  /** Destroying every active row leaves only DESTROYED ones. */
  lemma ReplacesAll(h: Host, rows: seq<Deployment>, spec: Spec)
    requires Inv(h) && SettledBut(h.rows, {}) && ValidSpec(spec) && Enumerates(rows, h.rows)
    ensures AtDestroyNext(h, Filter(rows, d => Active(d)), ReplaceJob(spec))
  {
    hide Accounted, Filter, LaunchesOk, MarkersOk, ProcsOk, RowOk, SignalsOk, ValidSpec;
    var active := Filter(rows, d => Active(d));
    FilterKeepsDistinct(rows, d => Active(d));
    forall id | id in h.rows && id !in Ids(active) ensures h.rows[id].phase == Destroyed {
      assert h.rows[id] in rows && h.rows[id].id == id;
    }
  }

  lemma DestroysListed(h: Host, rows: seq<Deployment>, purge: bool)
    requires Inv(h) && SettledBut(h.rows, {}) && Enumerates(rows, h.rows)
    ensures AtDestroyNext(h, rows, DestroyJob(purge))
  {
    Listed(h.rows, rows);
  }

  lemma DestroysOne(h: Host, id: string, purge: bool)
    requires Inv(h) && SettledBut(h.rows, {}) && id in h.rows
    ensures AtDestroyNext(h, [h.rows[id]], DestroyJob(purge))
  {
  }

  lemma RecoveredKeeps(h: Host, goal: Goal, c: Choice)
    requires Inv(h) && PcInv(h, Recovered)
    ensures Good(ActRecovered(h, goal, c))
  {
    hide Inv, PcInv, AtDestroyNext, Enumerates, ValidSpec;
    RecoveryPart(h, Recovered);
    if c.Listing? && Enumerates(c.rows, h.rows) && goal.DestroyGoal? {
      DestroysListed(h, c.rows, goal.purge);
    }
    if goal.DestroyGoal? && goal.target.Some? && goal.target.value in h.rows {
      DestroysOne(h, goal.target.value, goal.purge);
    }
    if c.Resolved? && ValidSpec(c.spec) && Enumerates(c.rows, h.rows) {
      ReplacesAll(h, c.rows, c.spec);
    }
    var (h', pc') := ActRecovered(h, goal, c);
    if pc'.DestroyNext? {
      DestroyPart(h', pc');
    } else if pc'.Ended? {
      NoPart(h', pc');
    }
  }

  // ----- destroyOne -----

  lemma AfterMarkedOk(h: Host, d: Deployment, todo: seq<Deployment>, job: Job)
    requires Inv(h) && Current(h, d, todo, job) && d.phase == Destroying
    ensures PcInv(h, AfterMarked(d, todo, job))
  {
    hide PcInv;
    if d.pid == 0 {
      NothingUnrecorded(h, d.id);
      assert OwnerOf(h.rows[d.id]) == OwnerOf(d);
      RemovalPart(h, CheckOwner(d, todo, job));
    } else {
      assert RowOk(h, h.rows[d.id]);
      DestroyPart(h, CheckRuntime(d, todo, job));
    }
    hide Inv;
  }

  lemma AfterDestroyedOk(h: Host, d: Deployment, todo: seq<Deployment>, job: Job)
    requires Current(h, d, todo, job) && d.phase == Destroyed
    ensures PcInv(h, AfterDestroyed(d, todo, job))
  {
    hide PcInv;
    DestroyPart(h, AfterDestroyed(d, todo, job));
  }

  lemma TakeTarget(h: Host, todo: seq<Deployment>, job: Job)
    requires Inv(h) && AtDestroyNext(h, todo, job) && todo != []
    ensures Current(h, todo[0], todo[1..], job) && !Early(todo[0].phase) && !todo[0].phase.Unrecognised?
  {
    Head(h.rows, todo);
    assert todo[0] in todo && RowOk(h, h.rows[todo[0].id]);
  }

  lemma DestroyNextKeeps(h: Host, todo: seq<Deployment>, job: Job, c: Choice)
    requires Inv(h) && AtDestroyNext(h, todo, job)
    ensures Good(ActDestroy(h, DestroyNext(todo, job), c))
  {
    hide Inv, PcInv, Dispatch;
    if todo == [] {
      assert Ids(todo) == {};
      if job.ReplaceJob? {
        PreparePart(h, ClearTombstone(job.spec));
      } else {
        NoPart(h, Ended);
      }
    } else {
      TakeTarget(h, todo, job);
      DispatchKeeps(h, todo[0], todo[1..], job);
    }
  }

  /** Every phase that recovery leaves behind has its way into destruction. */
  lemma DispatchKeeps(h: Host, d: Deployment, todo: seq<Deployment>, job: Job)
    requires Inv(h) && Current(h, d, todo, job) && !Early(d.phase) && !d.phase.Unrecognised?
    ensures PcInv(h, Dispatch(d, todo, job))
  {
    hide Inv, PcInv, Current;
    if d.phase == Destroying {
      AfterMarkedOk(h, d, todo, job);
    } else if d.phase == Destroyed {
      AfterDestroyedOk(h, d, todo, job);
    } else {
      MarksNext(h, d, todo, job);
      DestroyPart(h, Dispatch(d, todo, job));
    }
  }

  lemma MarksNext(h: Host, d: Deployment, todo: seq<Deployment>, job: Job)
    requires Current(h, d, todo, job) && !Early(d.phase) && !d.phase.Unrecognised?
    requires d.phase !in {Destroying, Destroyed}
    ensures if d.phase in {Healthy, Registering} then AtMark(h, d, todo, job, {Healthy, Registering})
            else AtMark(h, d, todo, job, {Ready, Failed, Crashed, UnregisteredHealthy})
  {
  }

  lemma GoneAlike(h: Host, a: Deployment, b: Deployment)
    requires a.id == b.id && a.cacheDir == b.cacheDir
    ensures Gone(h.files, h.root, a) == Gone(h.files, h.root, b)
  {
  }

  /** A phase change of the record that destroyOne works on. */
  lemma MoveCurrent(h: Host, d: Deployment, todo: seq<Deployment>, job: Job, to: Phase, reason: string)
    requires Inv(h) && Current(h, d, todo, job) && Legal(d.phase, to) && !Early(d.phase)
    requires to in {Failed, Destroying, Destroyed}
    requires to == Destroyed ==> Gone(h.files, h.root, d) && NoneLive(h, OwnerOf(d))
    ensures var (h', pc') := Move(h, d.id, d.phase, to, reason, Idle);
            && Inv(h') && pc'.Idle?
            && Current(h', d.(phase := to), todo, job)
  {
    hide Inv, NoneLive, Gone, Legal, Queue;
    var was := h.rows[d.id];
    assert CachePath(h.root, was) == CachePath(h.root, d) && OwnerOf(was) == OwnerOf(d);
    MoveKeeps(h, d.id, d.phase, to, reason, Idle) by { GoneAlike(h, was, d); }
    QueueFrame(h.rows, todo, d.id, Moved(was, to, reason, h.now));
  }

  /** Where a transition leads does not depend on what the command does next. */
  lemma MoveThen(h: Host, id: string, from: Phase, to: Phase, reason: string, next: Pc)
    requires Move(h, id, from, to, reason, Idle).1.Idle?
    ensures Move(h, id, from, to, reason, next) == (Move(h, id, from, to, reason, Idle).0, next)
  {
  }

  lemma MarkFailedKeeps(h: Host, d: Deployment, todo: seq<Deployment>, job: Job, c: Choice)
    requires Inv(h) && AtMark(h, d, todo, job, {Healthy, Registering})
    ensures Good(ActDestroy(h, MarkFailed(d, todo, job), c))
  {
    hide Inv, PcInv, Move, Current;
    var d' := d.(phase := Failed);
    MoveCurrent(h, d, todo, job, Failed, "destroy requested");
    MoveThen(h, d.id, d.phase, Failed, "destroy requested", MarkDestroying(d', todo, job));
    DestroyPart(ActDestroy(h, MarkFailed(d, todo, job), c).0, MarkDestroying(d', todo, job));
  }

  lemma MarkDestroyingKeeps(h: Host, d: Deployment, todo: seq<Deployment>, job: Job, c: Choice)
    requires Inv(h) && AtMark(h, d, todo, job, {Ready, Failed, Crashed, UnregisteredHealthy})
    ensures Good(ActDestroy(h, MarkDestroying(d, todo, job), c))
  {
    hide Inv, PcInv, Move, Current, AfterMarked;
    var d' := d.(phase := Destroying);
    MoveCurrent(h, d, todo, job, Destroying, "");
    MoveThen(h, d.id, d.phase, Destroying, "", AfterMarked(d', todo, job));
    AfterMarkedOk(Move(h, d.id, d.phase, Destroying, "", Idle).0, d', todo, job);
  }

  lemma MarkDestroyedKeeps(h: Host, d: Deployment, todo: seq<Deployment>, job: Job, c: Choice)
    requires Inv(h) && AtMarkDestroyed(h, d, todo, job)
    ensures Good(ActDestroy(h, MarkDestroyed(d, todo, job), c))
  {
    hide Inv, PcInv, Move, Current, AfterDestroyed, NoneLive, Gone;
    var d' := d.(phase := Destroyed);
    MoveCurrent(h, d, todo, job, Destroyed, "");
    MoveThen(h, d.id, Destroying, Destroyed, "", AfterDestroyed(d', todo, job));
    AfterDestroyedOk(Move(h, d.id, Destroying, Destroyed, "", Idle).0, d', todo, job);
  }

  lemma PurgeKeeps(h: Host, d: Deployment, todo: seq<Deployment>, job: Job, c: Choice)
    requires Inv(h) && AtMark(h, d, todo, job, {Destroyed})
    ensures var (h', pc') := ActDestroy(h, Purge(d, todo, job), c);
            Inv(h') && pc' == DestroyNext(todo, job) && AtDestroyNext(h', todo, job)
  {
    hide Inv, Queue;
    DropRow(h, d.id);
    QueueFrame(h.rows, todo, d.id, d);
    hide NoneLive;
  }

  lemma PurgeStepKeeps(h: Host, d: Deployment, todo: seq<Deployment>, job: Job, c: Choice)
    requires Inv(h) && AtMark(h, d, todo, job, {Destroyed})
    ensures Good(ActDestroy(h, Purge(d, todo, job), c))
  {
    hide Inv, PcInv, AtMark, AtDestroyNext, ActDestroy;
    PurgeKeeps(h, d, todo, job, c);
    DestroyPart(ActDestroy(h, Purge(d, todo, job), c).0, DestroyNext(todo, job));
  }

  lemma DestroyKeeps(h: Host, pc: Pc, c: Choice)
    requires Inv(h) && PcInv(h, pc)
    requires pc.DestroyNext? || pc.MarkFailed? || pc.MarkDestroying? || pc.MarkDestroyed? || pc.Purge?
    ensures Good(ActDestroy(h, pc, c))
  {
    hide Inv, Good, PcInv, AtDestroyNext, AtMark, AtMarkDestroyed;
    if pc.MarkDestroyed? {
      RemovalPart(h, pc);
    } else {
      DestroyPart(h, pc);
    }
    match pc
    case DestroyNext(todo, job) => DestroyNextKeeps(h, todo, job, c);
    case MarkFailed(d, todo, job) => MarkFailedKeeps(h, d, todo, job, c);
    case MarkDestroying(d, todo, job) => MarkDestroyingKeeps(h, d, todo, job, c);
    case MarkDestroyed(d, todo, job) => MarkDestroyedKeeps(h, d, todo, job, c);
    case Purge(d, todo, job) => PurgeStepKeeps(h, d, todo, job, c);
  }

  // ----- Stop -----

  /** The live leader of a recorded launch is a process of that launch, and so is everyone in its group. */
  lemma LeaderOwnsGroup(h: Host, who: Ident, reading: Reading)
    requires Inv(h) && IdOf(who) in h.launches && DecideStop(h.procs, who, reading) == SignalGroup
    ensures OnlyLaunch(h.procs, who) && Identical(Group(h.procs, who.pid), who)
  {
    SignalsOnlyTheRecordedGroup(h.procs, who, reading);
    assert ProcOk(who.pid, h.procs[who.pid], h.launches, h.ids);
    forall p | p in h.procs && h.procs[p].pgid == who.pid ensures h.procs[p].origin == Some(IdOf(who)) {
      assert SharesGroup(h.procs, who.pid, p);
    }
  }

  /** Sending a signal to a group that holds only the recorded launch keeps the record of signals sound. */
  lemma SendKeeps(h: Host, signal: Signal, who: Ident)
    requires Inv(h) && IdOf(who) in h.launches && OnlyLaunch(h.procs, who)
    requires signal == Term ==> Identical(Group(h.procs, who.pid), who)
    ensures Inv(Send(h, signal, who))
  {
    var h' := Send(h, signal, who);
    assert SignalOk(SentSignal(signal, who, Group(h.procs, who.pid)), h.launches);
    assert forall d :: RowOk(h', d) == RowOk(h, d);
  }

  /** An empty group means nothing of the recorded launch is alive, and that is the only launch of its deployment. */
  lemma EmptyGroupIsDead(h: Host, d: Deployment)
    requires Inv(h) && Snap(h.rows, d) && d.pid > 0 && !GroupAlive(h.procs, d.pid)
    ensures NoneLive(h, OwnerOf(d))
  {
    var mine := LaunchId(d.pid, d.startToken);
    assert RowOk(h, h.rows[d.id]);
    forall l | l in h.launches && h.launches[l] == OwnerOf(d) ensures !Live(h.procs, l) {
      assert SameOwner(h.launches, l, mine);
      assert forall p :: p in h.procs ==> ProcOk(p, h.procs[p], h.launches, h.ids);
    }
  }

  lemma AbandonOk(h: Host, d: Deployment, todo: seq<Deployment>, job: Job)
    requires Current(h, d, todo, job)
    ensures job.DestroyJob? ==> AtDestroyNext(h, todo, job)
  {
  }

  /** What one call of Stop in destroyOne may do next. */
  ghost predicate StopOutcome(h: Host, pc: Pc, d: Deployment, todo: seq<Deployment>, job: Job) {
    || pc == Abandon(todo, job)
    || (pc == StopRuntime(d, todo, job) && AtStop(h, d, todo, job))
    || (pc == CheckOwner(d, todo, job) && AtRemove(h, d, todo, job))
    || (pc.AwaitExit? && pc.d == d && pc.todo == todo && pc.job == job && AtAwaitExit(h, d, todo, job))
  }

  lemma LaunchOnRecord(h: Host, d: Deployment)
    requires Inv(h) && Snap(h.rows, d) && d.pid > 0
    ensures IdOf(RuntimeOf(d)) in h.launches
  {
    assert RowOk(h, h.rows[d.id]);
  }

  lemma StopRuntimeKeeps(h: Host, d: Deployment, todo: seq<Deployment>, job: Job, c: Choice)
    requires Inv(h) && AtStop(h, d, todo, job)
    ensures var (h', pc') := ActStop(h, StopRuntime(d, todo, job), c);
            Inv(h') && Current(h', d, todo, job) && StopOutcome(h', pc', d, todo, job)
  {
    hide DecideStop, Inv, JobOk, NoneLive, Queue, Reconcile;
    LaunchOnRecord(h, d);
    if c != IoError && c.Identity? {
      SignalsOnlyTheRecordedGroup(h.procs, RuntimeOf(d), c.reading);
      match DecideStop(h.procs, RuntimeOf(d), c.reading)
      case AlreadyGone => EmptyGroupIsDead(h, d);
      case Refuse =>
      case SignalGroup =>
        LeaderOwnsGroup(h, RuntimeOf(d), c.reading);
        SendKeeps(h, Term, RuntimeOf(d));
    }
  }

  lemma AwaitExitKeeps(h: Host, d: Deployment, killed: bool, todo: seq<Deployment>, job: Job, c: Choice)
    requires Inv(h) && AtAwaitExit(h, d, todo, job)
    ensures var (h', pc') := ActStop(h, AwaitExit(d, killed, todo, job), c);
            Inv(h') && Current(h', d, todo, job) && StopOutcome(h', pc', d, todo, job)
  {
    hide DecideStop, Identical, Inv, JobOk, NoneLive, OnlyLaunch, Queue, Reconcile;
    LaunchOnRecord(h, d);
    if c.Expired? {
      if !killed {
        SendKeeps(h, Kill, RuntimeOf(d));
      }
    } else if !GroupAlive(h.procs, d.pid) {
      EmptyGroupIsDead(h, d);
    }
  }

  lemma StopOutcomeOk(h: Host, pc: Pc, d: Deployment, todo: seq<Deployment>, job: Job)
    requires Current(h, d, todo, job) && StopOutcome(h, pc, d, todo, job)
    ensures PcInv(h, pc)
  {
    hide PcInv, AtDestroyNext, AtStop, AtAwaitExit, AtRemove, Current;
    AbandonOk(h, d, todo, job);
    if pc.Ended? {
      NoPart(h, pc);
    } else if pc.CheckOwner? {
      RemovalPart(h, pc);
    } else {
      DestroyPart(h, pc);
    }
  }

  lemma CheckRuntimeStepKeeps(h: Host, d: Deployment, todo: seq<Deployment>, job: Job, c: Choice)
    requires Inv(h) && AtStop(h, d, todo, job)
    ensures Good(ActStop(h, CheckRuntime(d, todo, job), c))
  {
    hide Inv, PcInv, Current, Reconcile, AtDestroyNext;
    AbandonOk(h, d, todo, job);
    var (h', pc') := ActStop(h, CheckRuntime(d, todo, job), c);
    if pc'.Ended? {
      NoPart(h', pc');
    } else {
      DestroyPart(h', pc');
    }
  }

  lemma StopRuntimeStepKeeps(h: Host, d: Deployment, todo: seq<Deployment>, job: Job, c: Choice)
    requires Inv(h) && AtStop(h, d, todo, job)
    ensures Good(ActStop(h, StopRuntime(d, todo, job), c))
  {
    hide Inv, PcInv, ActStop, Current, AtStop, StopOutcome;
    StopRuntimeKeeps(h, d, todo, job, c);
    var r := ActStop(h, StopRuntime(d, todo, job), c);
    StopOutcomeOk(r.0, r.1, d, todo, job);
  }

  lemma AwaitExitStepKeeps(h: Host, d: Deployment, killed: bool, todo: seq<Deployment>, job: Job, c: Choice)
    requires Inv(h) && AtAwaitExit(h, d, todo, job)
    ensures Good(ActStop(h, AwaitExit(d, killed, todo, job), c))
  {
    hide Inv, PcInv, ActStop, Current, AtAwaitExit, StopOutcome;
    AwaitExitKeeps(h, d, killed, todo, job, c);
    var r := ActStop(h, AwaitExit(d, killed, todo, job), c);
    StopOutcomeOk(r.0, r.1, d, todo, job);
  }

  lemma StopKeeps(h: Host, pc: Pc, c: Choice)
    requires Inv(h) && PcInv(h, pc)
    requires pc.CheckRuntime? || pc.StopRuntime? || pc.AwaitExit?
    ensures Good(ActStop(h, pc, c))
  {
    hide Inv, Good, PcInv, AtStop, AtAwaitExit;
    DestroyPart(h, pc);
    match pc
    case CheckRuntime(d, todo, job) => CheckRuntimeStepKeeps(h, d, todo, job, c);
    case StopRuntime(d, todo, job) => StopRuntimeStepKeeps(h, d, todo, job, c);
    case AwaitExit(d, killed, todo, job) => AwaitExitStepKeeps(h, d, killed, todo, job, c);
  }

  // ----- removeOwnedData -----

  /** Changing files keeps the invariant as long as no DESTROYED row gets anything back. */
  lemma FilesKeep(h: Host, files: Files)
    requires Inv(h) && MarkersOk(files, h.keys)
    requires forall id :: id in h.rows && h.rows[id].phase == Destroyed ==> Gone(files, h.root, h.rows[id])
    ensures Inv(h.(files := files))
  {
    var h' := h.(files := files);
    forall id | id in h.rows ensures RowOk(h', h.rows[id]) {
      assert RowOk(h, h.rows[id]);
    }
  }

  /** Removing files of a record that is not DESTROYED gives no DESTROYED row anything back. */
  lemma ShrinkKeeps(h: Host, files: Files)
    requires Inv(h)
    requires files.logs <= h.files.logs && files.dirs <= h.files.dirs
    requires forall p :: p in files.caches ==>
               p in h.files.caches && files.caches[p].marker in {None, h.files.caches[p].marker}
    ensures Inv(h.(files := files))
  {
    forall id | id in h.rows && h.rows[id].phase == Destroyed ensures Gone(files, h.root, h.rows[id]) {
      assert RowOk(h, h.rows[id]);
    }
    FilesKeep(h, files);
  }

  /** The record and the process table are not touched by removing files. */
  lemma AtRemoveFrame(h: Host, files: Files, d: Deployment, todo: seq<Deployment>, job: Job)
    requires AtRemove(h, d, todo, job)
    ensures AtRemove(h.(files := files), d, todo, job)
  {
  }

  lemma RemoveLogKeeps(h: Host, d: Deployment, owned: bool, todo: seq<Deployment>, job: Job)
    requires Inv(h) && AtRemoveLog(h, d, owned, todo, job)
    ensures var h' := h.(files := DropLog(h.files, d.id)); Inv(h') && AtRemoveDir(h', d, owned, todo, job)
  {
    ShrinkKeeps(h, DropLog(h.files, d.id));
    AtRemoveFrame(h, DropLog(h.files, d.id), d, todo, job);
  }

  lemma RemoveDirKeeps(h: Host, d: Deployment, owned: bool, todo: seq<Deployment>, job: Job)
    requires Inv(h) && AtRemoveDir(h, d, owned, todo, job)
    ensures var h' := h.(files := DropDir(h.files, d.id));
            Inv(h') && if owned then AtRemoveCache(h', d, todo, job) else AtMarkDestroyed(h', d, todo, job)
  {
    ShrinkKeeps(h, DropDir(h.files, d.id));
    AtRemoveFrame(h, DropDir(h.files, d.id), d, todo, job);
  }

  lemma RemoveMarkerKeeps(h: Host, d: Deployment, todo: seq<Deployment>, job: Job)
    requires Inv(h) && AtRemoveCache(h, d, todo, job)
    ensures var h' := h.(files := SetMarker(h.files, CachePath(h.root, d), None));
            Inv(h') && AtRemoveTail(h', d, todo, job)
  {
    var files := SetMarker(h.files, CachePath(h.root, d), None);
    ShrinkKeeps(h, files);
    AtRemoveFrame(h, files, d, todo, job);
  }

  lemma RemoveCacheKeeps(h: Host, d: Deployment, todo: seq<Deployment>, job: Job)
    requires Inv(h) && AtRemoveRest(h, d, todo, job)
    ensures var h' := h.(files := DropCache(h.files, CachePath(h.root, d)));
            Inv(h') && AtMarkDestroyed(h', d, todo, job)
  {
    var files := DropCache(h.files, CachePath(h.root, d));
    ShrinkKeeps(h, files);
    AtRemoveFrame(h, files, d, todo, job);
  }

  lemma CheckOwnerKeeps(h: Host, d: Deployment, todo: seq<Deployment>, job: Job, c: Choice)
    requires Inv(h) && AtRemove(h, d, todo, job)
    ensures Good(RemoveNext(h, CheckOwner(d, todo, job), c))
  {
    hide Inv, PcInv, Current, NoneLive, ValidId, AtDestroyNext;
    AbandonOk(h, d, todo, job);
    var (h', pc') := RemoveNext(h, CheckOwner(d, todo, job), c);
    if pc'.Ended? {
      NoPart(h', pc');
    } else if pc'.RemoveLog? {
      RemovalPart(h', pc');
    } else {
      DestroyPart(h', pc');
    }
  }

  lemma RemoveLogStepKeeps(h: Host, d: Deployment, owned: bool, todo: seq<Deployment>, job: Job, c: Choice)
    requires Inv(h) && AtRemoveLog(h, d, owned, todo, job)
    ensures Good(RemoveNext(h, RemoveLog(d, owned, todo, job), c))
  {
    hide Inv, PcInv, AtRemoveLog, AtRemoveDir, DropLog;
    RemoveLogKeeps(h, d, owned, todo, job);
    RemovalPart(h.(files := DropLog(h.files, d.id)), RemoveDir(d, owned, todo, job));
  }

  lemma RemoveDirStepKeeps(h: Host, d: Deployment, owned: bool, todo: seq<Deployment>, job: Job, c: Choice)
    requires Inv(h) && AtRemoveDir(h, d, owned, todo, job)
    ensures Good(RemoveNext(h, RemoveDir(d, owned, todo, job), c))
  {
    hide Inv, PcInv, AtRemoveDir, AtRemoveCache, AtMarkDestroyed, DropDir;
    RemoveDirKeeps(h, d, owned, todo, job);
    RemovalPart(h.(files := DropDir(h.files, d.id)),
                if owned then RemoveCache(d, todo, job) else MarkDestroyed(d, todo, job));
  }

  lemma RemoveCacheStepKeeps(h: Host, d: Deployment, todo: seq<Deployment>, job: Job, c: Choice)
    requires Inv(h) && AtRemoveCache(h, d, todo, job)
    ensures Good(RemoveNext(h, RemoveCache(d, todo, job), c))
  {
    hide Inv, PcInv, AtRemoveTail, AtMarkDestroyed, AtRemoveRest, DropCache, SetMarker;
    var (h', pc') := RemoveNext(h, RemoveCache(d, todo, job), c);
    RemovalPart(h', pc');
    if c == MarkerFirst {
      RemoveMarkerKeeps(h, d, todo, job);
    } else {
      RemoveCacheKeeps(h, d, todo, job);
    }
  }

  lemma RemoveRestStepKeeps(h: Host, d: Deployment, todo: seq<Deployment>, job: Job, c: Choice)
    requires Inv(h) && AtRemoveTail(h, d, todo, job)
    ensures Good(RemoveNext(h, RemoveCacheRest(d, todo, job), c))
  {
    hide Inv, PcInv, AtMarkDestroyed, AtRemoveRest, DropCache;
    RemoveCacheKeeps(h, d, todo, job);
    RemovalPart(h.(files := DropCache(h.files, CachePath(h.root, d))), MarkDestroyed(d, todo, job));
  }

  lemma RemoveNextKeeps(h: Host, pc: Pc, c: Choice)
    requires Inv(h) && PcInv(h, pc)
    requires pc.CheckOwner? || pc.RemoveLog? || pc.RemoveDir? || pc.RemoveCache? || pc.RemoveCacheRest?
    ensures Good(RemoveNext(h, pc, c))
  {
    hide Inv, Good, PcInv, AtRemove, AtRemoveLog, AtRemoveDir, AtRemoveCache, AtRemoveTail;
    RemovalPart(h, pc);
    match pc
    case CheckOwner(d, todo, job) => CheckOwnerKeeps(h, d, todo, job, c);
    case RemoveLog(d, owned, todo, job) => RemoveLogStepKeeps(h, d, owned, todo, job, c);
    case RemoveDir(d, owned, todo, job) => RemoveDirStepKeeps(h, d, owned, todo, job, c);
    case RemoveCache(d, todo, job) => RemoveCacheStepKeeps(h, d, todo, job, c);
    case RemoveCacheRest(d, todo, job) => RemoveRestStepKeeps(h, d, todo, job, c);
  }

  /** All of removal works on one record. */
  lemma RemovalIsCurrent(h: Host, pc: Pc)
    requires PcInv(h, pc)
    requires pc.CheckOwner? || pc.RemoveLog? || pc.RemoveDir? || pc.RemoveCache? || pc.RemoveCacheRest?
    ensures Current(h, pc.d, pc.todo, pc.job)
  {
    hide PcInv, Current, NoneLive, CacheAs;
    RemovalPart(h, pc);
  }

  lemma RemoveKeeps(h: Host, pc: Pc, c: Choice)
    requires Inv(h) && PcInv(h, pc)
    requires pc.CheckOwner? || pc.RemoveLog? || pc.RemoveDir? || pc.RemoveCache? || pc.RemoveCacheRest?
    ensures Good(ActRemove(h, pc, c))
  {
    hide Inv, PcInv, Current, AtDestroyNext, RemoveNext;
    if c == IoError {
      RemovalIsCurrent(h, pc);
      AbandonOk(h, pc.d, pc.todo, pc.job);
      if pc.job.ReplaceJob? {
        NoPart(h, Ended);
      } else {
        DestroyPart(h, DestroyNext(pc.todo, pc.job));
      }
    } else {
      RemoveNextKeeps(h, pc, c);
    }
  }
}
