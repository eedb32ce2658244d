/**
 * Resumable destroy, over runs: when a new destroy command, started in any reachable world whose lock is free, can
 * bring an active deployment to its end, and when nothing can.
 */
module Resume {
  import opened Basics
  import opened Phases
  import opened Store
  import opened Supervisor
  import opened Recovery
  import opened Files
  import opened Host
  import opened Protocol
  import opened ProtocolInvariant
  import opened ProtocolWorld
  import opened Lifecycle
  import opened Scripts
  import opened Markers

  /**
   * The runtime that recovery leaves recorded, if any, can be stopped: its PID and group are gone, or its PID is the
   * live leader of its own group and agrees with the record in token, start time and command.
   */
  ghost predicate Stoppable(procs: Procs, d: Deployment) {
    var r := RecoverRow(procs, d);
    r.pid == 0 || DecideStop(procs, RuntimeOf(r), Readable) != Refuse
  }

  /** The row is not a STARTING intent, so no process can pose as its runtime. */
  lemma RowChangeIsHonest(h: Host, id: string, d: Deployment)
    requires NoImposter(h) && !(d.phase == Starting && d.pid == 0)
    ensures NoImposter(h.(rows := h.rows[id := d]))
  {
  }

  // ----- recovery -----

  /** The rest of the listing needs no recovery. */
  lemma {:induction false} SkipRows(s: Script, h: Host, todo: seq<Deployment>)
    requires At(s, h, Recover(todo)) && NoImposter(h) && forall t :: t in todo ==> Teardown(t.phase)
    ensures At(s, h, Recovered)
    decreases |todo|
  {
    hide At, NoImposter;
    if todo == [] {
      Go(s, h, Recover(todo), Proceed, h, Recovered);
    } else {
      Go(s, h, Recover(todo), Proceed, h, Recover(todo[1..]));
      SkipRows(s, h, todo[1..]);
    }
  }

  /** The machine with one row in place of another of the same deployment. */
  predicate RowOnly(h: Host, h': Host, id: string) {
    id in h.rows && id in h'.rows && h' == h.(rows := h.rows[id := h'.rows[id]])
  }

  lemma CrashScript(s: Script, h: Host, pc: Pc, choice: Choice, a: Deployment, reason: string, rest: seq<Deployment>)
    returns (h': Host)
    requires At(s, h, pc) && Holding(pc) && NoImposter(h) && SameRow(h.rows, a) && Legal(a.phase, Crashed)
    requires Act(h, s.goal, pc, choice) == Move(h, a.id, a.phase, Crashed, reason, Recover(rest))
    ensures At(s, h', Recover(rest)) && NoImposter(h') && RowOnly(h, h', a.id)
    ensures Erase(h'.rows[a.id]) == Erase(CrashRow(a, reason))
  {
    hide At, NoImposter, Act, Legal;
    var d' := Moved(h.rows[a.id], Crashed, reason, h.now);
    h' := h.(rows := h.rows[a.id := d']);
    assert Move(h, a.id, a.phase, Crashed, reason, Recover(rest)) == (h', Recover(rest));
    RowChangeIsHonest(h, a.id, d');
    Go(s, h, pc, choice, h', Recover(rest));
  }

  /** The row's identity can be decided, and then it takes its recovered form. */
  lemma SettleScript(s: Script, h: Host, a: Deployment, rest: seq<Deployment>) returns (h': Host)
    requires At(s, h, Settle(a, rest)) && NoImposter(h) && SameRow(h.rows, a)
    requires !Teardown(a.phase) && !a.phase.Unrecognised?
    requires a.pid == 0 || Reconcile(h.procs, RuntimeOf(a), Readable) != Unknown
    ensures At(s, h', Recover(rest)) && NoImposter(h') && RowOnly(h, h', a.id)
    ensures Erase(h'.rows[a.id]) == Erase(ReconcileRow(h.procs, a))
  {
    hide At, NoImposter, Reconcile;
    var pc := Settle(a, rest);
    var c := Identity(Readable);
    if a.pid == 0 {
      h' := CrashScript(s, h, pc, c, a, NO_IDENTITY, rest);
    } else {
      var crashed := ReconcileRow(h.procs, a);
      if crashed == a {
        h' := h;
        Go(s, h, pc, c, h, Recover(rest));
      } else {
        var reason := crashed.failureReason;
        Go(s, h, pc, c, h, MarkCrashed(a, reason, rest));
        h' := CrashScript(s, h, MarkCrashed(a, reason, rest), Proceed, a, reason, rest);
      }
    }
  }

  /** The runtime of a STARTING intent is recorded. */
  lemma AdoptScript(s: Script, h: Host, d: Deployment, m: Ident, rest: seq<Deployment>) returns (h': Host)
    requires At(s, h, Adopt(d, m, rest)) && NoImposter(h) && d.id in h.rows && h.rows[d.id] == d
    requires d.phase == Starting && d.pid == 0 && m.pid > 0
    ensures At(s, h', Settle(RowAdopted(d, m), rest)) && NoImposter(h') && RowOnly(h, h', d.id)
    ensures SameRow(h'.rows, RowAdopted(d, m))
  {
    hide At, NoImposter;
    h' := h.(rows := h.rows[d.id := RowAdopted(d, m).(updatedAt := h.now)]);
    RowChangeIsHonest(h, d.id, RowAdopted(d, m).(updatedAt := h.now));
    Go(s, h, Adopt(d, m, rest), Proceed, h', Settle(RowAdopted(d, m), rest));
  }

  /** Taking an unsettled row off the listing. */
  lemma TakeScript(s: Script, h: Host, d: Deployment, rest: seq<Deployment>) returns (h': Host)
    requires At(s, h, Recover([d] + rest)) && NoImposter(h) && d.id in h.rows && h.rows[d.id] == d
    requires !Teardown(d.phase)
    ensures At(s, h', Settle(AdoptRow(h.procs, d), rest)) && NoImposter(h') && RowOnly(h, h', d.id)
    ensures SameRow(h'.rows, AdoptRow(h.procs, d))
  {
    hide At, NoImposter, Act, Only, Candidates, IdentOf;
    TakesRow(s.goal, h, d, rest);
    if Scans(h.procs, d) {
      var m := IdentOf(h.procs, Only(Candidates(h.procs, d.command, d.updatedAt)).value);
      Go(s, h, Recover([d] + rest), Proceed, h, Adopt(d, m, rest));
      h' := AdoptScript(s, h, d, m, rest);
    } else {
      h' := h;
      Go(s, h, Recover([d] + rest), Proceed, h, Settle(d, rest));
    }
  }

  /** Recovery finds the one process of this intent. */
  ghost predicate Scans(procs: Procs, d: Deployment) {
    && d.phase == Starting && d.pid == 0 && d.command != ""
    && Only(Candidates(procs, d.command, d.updatedAt)).Some?
    && Only(Candidates(procs, d.command, d.updatedAt)).value in procs
    && Only(Candidates(procs, d.command, d.updatedAt)).value > 0
  }

  lemma TakesRow(goal: Goal, h: Host, d: Deployment, rest: seq<Deployment>)
    requires !Teardown(d.phase)
    ensures Scans(h.procs, d) ==>
              var m := IdentOf(h.procs, Only(Candidates(h.procs, d.command, d.updatedAt)).value);
              m.pid > 0 && AdoptRow(h.procs, d) == RowAdopted(d, m)
              && Act(h, goal, Recover([d] + rest), Proceed) == (h, Adopt(d, m, rest))
    ensures !Scans(h.procs, d) ==>
              AdoptRow(h.procs, d) == d && Act(h, goal, Recover([d] + rest), Proceed) == (h, Settle(d, rest))
  {
    assert ([d] + rest)[0] == d && ([d] + rest)[1..] == rest;
    var found := Candidates(h.procs, d.command, d.updatedAt);
    assert Only(found).Some? ==> Only(found).value in found;
  }

  /** What can be stopped can be decided. */
  lemma StoppableIsDecidable(procs: Procs, d: Deployment)
    requires Stoppable(procs, d) && !Teardown(d.phase)
    ensures var a := AdoptRow(procs, d);
            && a.id == d.id && a.phase == d.phase
            && RecoverRow(procs, d) == ReconcileRow(procs, a)
            && (a.pid == 0 || Reconcile(procs, RuntimeOf(a), Readable) != Unknown)
  {
    var a := AdoptRow(procs, d);
    assert RuntimeOf(RecoverRow(procs, d)) == RuntimeOf(a);
    hide Only, Candidates;
  }

  /** Recovery of a table whose only active row can be stopped. */
  lemma RecoverScript(s: Script, h: Host, id: string) returns (h': Host)
    requires At(s, h, ListRows) && Inv(h) && NoImposter(h)
    requires id in h.rows && Active(h.rows[id]) && Stoppable(h.procs, h.rows[id])
    ensures At(s, h', Recovered) && NoImposter(h') && RowOnly(h, h', id)
    ensures Erase(h'.rows[id]) == Erase(RecoverRow(h.procs, h.rows[id]))
  {
    hide At, NoImposter, Inv, Act, Stoppable, RecoverRow, Enumerates;
    var d := h.rows[id];
    RowKnown(h, id);
    var rest := OthersListed(h, id);
    Go(s, h, ListRows, Listing([d] + rest), h, Recover([d] + rest)) by {
      ListsRows(h, s.goal, [d] + rest);
    }
    if Teardown(d.phase) {
      SkipRows(s, h, [d] + rest);
      h' := h;
      TeardownIsRecovered(h.procs, d);
    } else {
      h' := UnsettledScript(s, h, d, rest);
      SkipRows(s, h', rest);
    }
  }

  lemma RowKnown(h: Host, id: string)
    requires Inv(h) && id in h.rows
    ensures h.rows[id].id == id && !h.rows[id].phase.Unrecognised?
  {
    assert RowOk(h, h.rows[id]);
  }

  /** An unsettled row takes its recovered form. */
  lemma UnsettledScript(s: Script, h: Host, d: Deployment, rest: seq<Deployment>) returns (h': Host)
    requires At(s, h, Recover([d] + rest)) && NoImposter(h) && d.id in h.rows && h.rows[d.id] == d
    requires !Teardown(d.phase) && !d.phase.Unrecognised? && Stoppable(h.procs, d)
    ensures At(s, h', Recover(rest)) && NoImposter(h') && RowOnly(h, h', d.id)
    ensures Erase(h'.rows[d.id]) == Erase(RecoverRow(h.procs, d))
  {
    hide At, NoImposter, Stoppable, RecoverRow, AdoptRow, ReconcileRow, Reconcile;
    StoppableIsDecidable(h.procs, d);
    var h1 := TakeScript(s, h, d, rest);
    h' := SettleScript(s, h1, AdoptRow(h.procs, d), rest);
  }

  lemma TeardownIsRecovered(procs: Procs, d: Deployment)
    ensures Teardown(d.phase) ==> RecoverRow(procs, d) == d
  {
  }

  lemma ListsRows(h: Host, goal: Goal, all: seq<Deployment>)
    requires Enumerates(all, h.rows)
    ensures Act(h, goal, ListRows, Listing(all)) == (h, Recover(all))
  {
  }

  /** All other rows are DESTROYED. */
  lemma OthersListed(h: Host, id: string) returns (rest: seq<Deployment>)
    requires Inv(h) && id in h.rows && Active(h.rows[id])
    ensures Enumerates([h.rows[id]] + rest, h.rows) && forall t :: t in rest ==> t.phase == Destroyed
  {
    OnlyActive(h, id);
    RowsNamed(h);
    hide Inv;
    rest := Enumerate(h.rows - {id});
    AddToListing(h.rows, id, rest);
  }

  // ----- destruction -----

  /** A transition of the record that the command works on. */
  lemma MoveScript(s: Script, h: Host, pc: Pc, d: Deployment, to: Phase, reason: string, next: Pc) returns (h': Host)
    requires At(s, h, pc) && Holding(pc) && NoImposter(h) && Snap(h.rows, d) && Legal(d.phase, to) && to != Starting
    requires Act(h, s.goal, pc, Proceed) == Move(h, d.id, d.phase, to, reason, next)
    ensures At(s, h', next) && NoImposter(h') && RowOnly(h, h', d.id) && Snap(h'.rows, d.(phase := to))
  {
    hide At, NoImposter, Act, Legal;
    var d' := Moved(h.rows[d.id], to, reason, h.now);
    h' := h.(rows := h.rows[d.id := d']);
    assert Move(h, d.id, d.phase, to, reason, next) == (h', next);
    RowChangeIsHonest(h, d.id, d');
    Go(s, h, pc, Proceed, h', next);
  }

  /** From the listed record to DESTROYING, through FAILED where the phase demands it. */
  lemma MarkScript(s: Script, h: Host, d: Deployment, job: Job) returns (h': Host)
    requires At(s, h, DestroyNext([d], job)) && NoImposter(h) && d.id in h.rows && h.rows[d.id] == d
    requires Active(d) && !d.phase.Unrecognised?
    ensures var d' := d.(phase := Destroying);
            At(s, h', AfterMarked(d', [], job)) && NoImposter(h') && RowOnly(h, h', d.id) && Snap(h'.rows, d')
  {
    hide Act, At, NoImposter;
    Dispatches(h, s.goal, d, job);
    Go(s, h, DestroyNext([d], job), Proceed, h, Dispatch(d, [], job));
    if d.phase == Destroying {
      h' := h;
      assert d.(phase := Destroying) == d;
    } else if d.phase in {Ready, Failed, Crashed, UnregisteredHealthy} {
      h' := MoveScript(s, h, MarkDestroying(d, [], job), d, Destroying, "",
          AfterMarked(d.(phase := Destroying), [], job));
    } else {
      var f := d.(phase := Failed);
      var h1 := MoveScript(s, h, MarkFailed(d, [], job), d, Failed, "destroy requested", MarkDestroying(f, [], job));
      MarksDestroying(h1, s.goal, f, job);
      h' := MoveScript(s, h1, MarkDestroying(f, [], job), f, Destroying, "",
          AfterMarked(f.(phase := Destroying), [], job));
      assert f.(phase := Destroying) == d.(phase := Destroying);
    }
  }

  lemma MarksDestroying(h: Host, goal: Goal, d: Deployment, job: Job)
    ensures Act(h, goal, MarkDestroying(d, [], job), Proceed)
         == Move(h, d.id, d.phase, Destroying, "", AfterMarked(d.(phase := Destroying), [], job))
  {
    hide Move, AfterMarked;
  }

  lemma Dispatches(h: Host, goal: Goal, d: Deployment, job: Job)
    ensures Act(h, goal, DestroyNext([d], job), Proceed) == (h, Dispatch(d, [], job))
    ensures Act(h, goal, MarkFailed(d, [], job), Proceed)
         == Move(h, d.id, d.phase, Failed, "destroy requested", MarkDestroying(d.(phase := Failed), [], job))
    ensures Act(h, goal, MarkDestroying(d, [], job), Proceed)
         == Move(h, d.id, d.phase, Destroying, "", AfterMarked(d.(phase := Destroying), [], job))
  {
    hide Move, AfterMarked, Dispatch;
    assert [d][1..] == [];
  }

  /** The recorded group is gone, or is signalled and exits as a whole. */
  lemma StopScript(s: Script, h: Host, d: Deployment, job: Job) returns (h': Host)
    requires WorldInv(s.w) && At(s, h, AfterMarked(d, [], job)) && d.phase == Destroying
    requires d.pid == 0 || DecideStop(h.procs, RuntimeOf(d), Readable) != Refuse
    requires |s.w.host.signals| <= |h.signals|
    ensures At(s, h', CheckOwner(d, [], job)) && h' == h.(procs := h'.procs, signals := h'.signals)
    ensures |h.signals| <= |h'.signals|
  {
    AtIsSound(s, h, AfterMarked(d, [], job));
    hide At, NoImposter, Act, Inv, WorldInv, DecideStop, Reconcile;
    h' := h;
    if d.pid > 0 {
      var who := RuntimeOf(d);
      Stops(h, s.goal, d, job);
      SignalsOnlyTheRecordedGroup(h.procs, who, Readable);
      Go(s, h, CheckRuntime(d, [], job), Identity(Readable), h, StopRuntime(d, [], job));
      if DecideStop(h.procs, who, Readable) == AlreadyGone {
        Go(s, h, StopRuntime(d, [], job), Identity(Readable), h, CheckOwner(d, [], job));
      } else {
        h' := KillScript(s, h, d, job);
      }
    }
  }

  lemma Stops(h: Host, goal: Goal, d: Deployment, job: Job)
    requires d.pid > 0 && DecideStop(h.procs, RuntimeOf(d), Readable) != Refuse
    ensures Act(h, goal, CheckRuntime(d, [], job), Identity(Readable)) == (h, StopRuntime(d, [], job))
    ensures DecideStop(h.procs, RuntimeOf(d), Readable) == AlreadyGone ==>
              Act(h, goal, StopRuntime(d, [], job), Identity(Readable)) == (h, CheckOwner(d, [], job))
    ensures DecideStop(h.procs, RuntimeOf(d), Readable) == SignalGroup ==>
              Act(h, goal, StopRuntime(d, [], job), Identity(Readable))
              == (Send(h, Term, RuntimeOf(d)), AwaitExit(d, false, [], job))
  {
    hide Send;
  }

  lemma SendOnlySignals(h: Host, who: Ident)
    ensures var h1 := Send(h, Term, who);
            && h1 == h.(signals := h1.signals) && |h1.signals| == |h.signals| + 1
            && h1.signals[|h.signals|].target == who
  {
  }

  lemma GroupIsSignalled(s: Script, h: Host, pgid: int)
    requires |s.w.host.signals| < |h.signals| && h.signals[|h.signals| - 1].target.pid == pgid
    ensures forall p :: p in Group(h.procs, pgid).Keys && p in h.procs ==>
              Signalled(h, |s.w.host.signals|, h.procs[p].pgid)
  {
  }

  lemma GroupIsGone(h: Host, pgid: int)
    ensures !GroupAlive(h.procs - Group(h.procs, pgid).Keys, pgid)
  {
  }

  lemma KillScript(s: Script, h: Host, d: Deployment, job: Job) returns (h': Host)
    requires WorldInv(s.w) && At(s, h, StopRuntime(d, [], job)) && d.pid > 0
    requires DecideStop(h.procs, RuntimeOf(d), Readable) == SignalGroup
    requires |s.w.host.signals| <= |h.signals|
    ensures At(s, h', CheckOwner(d, [], job)) && h' == h.(procs := h'.procs, signals := h'.signals)
    ensures |h.signals| <= |h'.signals|
  {
    hide At, Act, WorldInv, DecideStop, NoImposter, Inv, Send, Signalled, GroupAlive, PcInv;
    var who := RuntimeOf(d);
    var h1 := Send(h, Term, who);
    var await := AwaitExit(d, false, [], job);
    AtIsSound(s, h, StopRuntime(d, [], job));
    Stops(h, s.goal, d, job);
    SendOnlySignals(h, who);
    SameRowsHonest(h, h1);
    Go(s, h, StopRuntime(d, [], job), Identity(Readable), h1, await);
    AtIsSound(s, h1, await);
    var gone := Group(h1.procs, d.pid).Keys;
    h' := h1.(procs := h1.procs - gone);
    GroupCanExit(h1, d, [], job) by { DestroyPart(h1, await); }
    FewerAreHonest(h1, gone);
    GroupIsSignalled(s, h1, d.pid);
    Exit(s, h1, await, gone);
    GroupIsGone(h1, d.pid);
    Awaits(h', s.goal, d, job);
    Go(s, h', await, Proceed, h', CheckOwner(d, [], job));
  }

  lemma Awaits(h: Host, goal: Goal, d: Deployment, job: Job)
    requires !GroupAlive(h.procs, d.pid)
    ensures Act(h, goal, AwaitExit(d, false, [], job), Proceed) == (h, CheckOwner(d, [], job))
  {
  }

  lemma FewerAreHonest(h: Host, gone: set<int>)
    requires NoImposter(h)
    ensures NoImposter(h.(procs := h.procs - gone))
  {
    var h' := h.(procs := h.procs - gone);
    forall id, p | id in h'.rows && h'.rows[id].phase == Starting && h'.rows[id].pid == 0
                   && p in Candidates(h'.procs, h'.rows[id].command, h'.rows[id].updatedAt)
      ensures h'.procs[p].origin == Some(LaunchId(p, h'.procs[p].token))
    {
      assert p in Candidates(h.procs, h.rows[id].command, h.rows[id].updatedAt);
    }
  }

  /** The whole group of a verified leader may exit together. */
  lemma GroupCanExit(h: Host, d: Deployment, todo: seq<Deployment>, job: Job)
    requires Inv(h) && AtAwaitExit(h, d, todo, job)
    ensures CanExit(h, Group(h.procs, d.pid).Keys)
  {
    forall p, q | p in Group(h.procs, d.pid) && q in h.procs && h.procs[p].origin.Some?
                  && h.procs[q].origin == h.procs[p].origin
      ensures q in Group(h.procs, d.pid)
    {
      assert ProcOk(p, h.procs[p], h.launches, h.ids) && ProcOk(q, h.procs[q], h.launches, h.ids);
    }
  }

  /** Log, directory and cache go, the cache only if there is one. */
  lemma RemoveScript(s: Script, h: Host, d: Deployment, job: Job) returns (h': Host)
    requires At(s, h, CheckOwner(d, [], job)) && NoImposter(h)
    requires ValidId(d.id) && CacheOwnership(h.files, CachePath(h.root, d), d.id, d.key) != Refused
    ensures At(s, h', MarkDestroyed(d, [], job)) && NoImposter(h') && h' == h.(files := h'.files)
  {
    hide At, NoImposter, Act, ValidId, CacheOwnership, CachePath;
    var p := CachePath(h.root, d);
    var owned := CacheOwnership(h.files, p, d.id, d.key) == Owned;
    Removes(h, s.goal, d, owned, job);
    Go(s, h, CheckOwner(d, [], job), Proceed, h, RemoveLog(d, owned, [], job));
    var h1 := h.(files := DropLog(h.files, d.id));
    SameRowsHonest(h, h1);
    Go(s, h, RemoveLog(d, owned, [], job), Proceed, h1, RemoveDir(d, owned, [], job));
    Removes(h1, s.goal, d, owned, job);
    var h2 := h1.(files := DropDir(h1.files, d.id));
    SameRowsHonest(h, h2);
    Go(s, h1, RemoveDir(d, owned, [], job), Proceed, h2,
       if owned then RemoveCache(d, [], job) else MarkDestroyed(d, [], job));
    h' := h2;
    if owned {
      Removes(h2, s.goal, d, owned, job);
      h' := h2.(files := DropCache(h2.files, p));
      SameRowsHonest(h, h');
      Go(s, h2, RemoveCache(d, [], job), Proceed, h', MarkDestroyed(d, [], job));
    }
  }

  lemma Removes(h: Host, goal: Goal, d: Deployment, owned: bool, job: Job)
    ensures var owner := CacheOwnership(h.files, CachePath(h.root, d), d.id, d.key);
            ValidId(d.id) && owner != Refused ==>
              Act(h, goal, CheckOwner(d, [], job), Proceed) == (h, RemoveLog(d, owner == Owned, [], job))
    ensures Act(h, goal, RemoveLog(d, owned, [], job), Proceed)
         == (h.(files := DropLog(h.files, d.id)), RemoveDir(d, owned, [], job))
    ensures Act(h, goal, RemoveDir(d, owned, [], job), Proceed)
         == (h.(files := DropDir(h.files, d.id)), if owned then RemoveCache(d, [], job) else MarkDestroyed(d, [], job))
    ensures Act(h, goal, RemoveCache(d, [], job), Proceed)
         == (h.(files := DropCache(h.files, CachePath(h.root, d))), MarkDestroyed(d, [], job))
  {
    hide DropLog, DropDir, DropCache, CachePath, ValidId, CacheOwnership;
  }

  /** The record is DESTROYED, and purged if the job says so. */
  lemma FinishScript(s: Script, h: Host, d: Deployment, job: Job) returns (h': Host)
    requires At(s, h, MarkDestroyed(d, [], job)) && NoImposter(h) && Snap(h.rows, d) && d.phase == Destroying
    ensures At(s, h', DestroyNext([], job)) && NoImposter(h') && h' == h.(rows := h'.rows)
    ensures if Purges(job) then h'.rows == h.rows - {d.id} else RowOnly(h, h', d.id) && h'.rows[d.id].phase == Destroyed
  {
    hide At, NoImposter, Act;
    var d' := d.(phase := Destroyed);
    Finishes(h, s.goal, d, job);
    h' := MoveScript(s, h, MarkDestroyed(d, [], job), d, Destroyed, "", AfterDestroyed(d', [], job));
    if Purges(job) {
      var h1 := h';
      h' := h1.(rows := h1.rows - {d.id});
      assert h1.rows - {d.id} == h.rows - {d.id};
      Finishes(h1, s.goal, d', job);
      FewerRowsHonest(h1, d.id);
      Go(s, h1, Purge(d', [], job), Proceed, h', DestroyNext([], job));
    }
  }

  lemma Finishes(h: Host, goal: Goal, d: Deployment, job: Job)
    ensures d.phase == Destroying ==>
              Act(h, goal, MarkDestroyed(d, [], job), Proceed)
              == Move(h, d.id, Destroying, Destroyed, "", AfterDestroyed(d.(phase := Destroyed), [], job))
    ensures d.id in h.rows && h.rows[d.id].phase == Destroyed ==>
              Act(h, goal, Purge(d, [], job), Proceed) == (h.(rows := h.rows - {d.id}), DestroyNext([], job))
  {
    hide Move, AfterDestroyed;
  }

  lemma FewerRowsHonest(h: Host, id: string)
    requires NoImposter(h)
    ensures NoImposter(h.(rows := h.rows - {id}))
  {
  }

  /** What a destruction leaves alone. */
  predicate Around(h: Host, h': Host) {
    h'.now == h.now && h'.keys == h.keys && h'.root == h.root && h'.ids == h.ids && h'.launches == h.launches
  }

  /** destroyOne up to the point where the runtime is gone. */
  lemma ReleaseScript(s: Script, h: Host, d: Deployment, job: Job) returns (h': Host)
    requires WorldInv(s.w) && d.id in h.rows && h.rows[d.id] == d && At(s, h, DestroyNext([d], job))
    requires Active(d) && !d.phase.Unrecognised? && |s.w.host.signals| <= |h.signals|
    requires d.pid == 0 || DecideStop(h.procs, RuntimeOf(d), Readable) != Refuse
    ensures At(s, h', CheckOwner(d.(phase := Destroying), [], job)) && Around(h, h') && h'.files == h.files
    ensures Snap(h'.rows, d.(phase := Destroying)) && h'.rows == h.rows[d.id := h'.rows[d.id]]
  {
    AtIsSound(s, h, DestroyNext([d], job));
    hide At, NoImposter, Inv, WorldInv, DecideStop, PcInv, AfterMarked;
    var d' := d.(phase := Destroying);
    var h1 := MarkScript(s, h, d, job);
    assert RuntimeOf(d') == RuntimeOf(d);
    h' := StopScript(s, h1, d', job);
  }

  lemma RowNamesId(h: Host, d: Deployment)
    requires Inv(h) && d.id in h.rows && h.rows[d.id] == d
    ensures ValidId(d.id) && !d.phase.Unrecognised?
  {
    assert RowOk(h, d);
  }

  /** destroyOne on a record that can be stopped and whose cache may go. */
  lemma DestroyScript(s: Script, h: Host, d: Deployment, job: Job) returns (h': Host)
    requires WorldInv(s.w) && d.id in h.rows && h.rows[d.id] == d && At(s, h, DestroyNext([d], job))
    requires Active(d) && |s.w.host.signals| <= |h.signals|
    requires d.pid == 0 || DecideStop(h.procs, RuntimeOf(d), Readable) != Refuse
    requires CacheOwnership(h.files, CachePath(h.root, d), d.id, d.key) != Refused
    ensures At(s, h', DestroyNext([], job)) && NoImposter(h') && Around(h, h')
    ensures if Purges(job) then h'.rows == h.rows - {d.id} else d.id in h'.rows && h'.rows[d.id].phase == Destroyed
  {
    hide At, NoImposter, Inv, WorldInv, DecideStop, PcInv, CacheOwnership, ValidId;
    AtIsSound(s, h, DestroyNext([d], job));
    RowNamesId(h, d);
    var d' := d.(phase := Destroying);
    assert CachePath(h.root, d') == CachePath(h.root, d);
    var h1 := ReleaseScript(s, h, d, job);
    AtIsSound(s, h1, CheckOwner(d', [], job));
    var h2 := RemoveScript(s, h1, d', job);
    h' := FinishScript(s, h2, d', job);
    assert h1.rows - {d.id} == h.rows - {d.id};
  }

  // ----- when destroy can finish -----

  /** The deployment is destroyed: its record says so, or was purged. */
  predicate Finished(h: Host, id: string, purge: bool) {
    if purge then id !in h.rows else id in h.rows && h.rows[id].phase == Destroyed
  }

  lemma RecoveredKeepsFields(procs: Procs, d: Deployment)
    ensures var r := RecoverRow(procs, d);
            && (r.id, r.cacheDir, r.key) == (d.id, d.cacheDir, d.key)
            && (Active(d) ==> Active(r))
  {
    hide Candidates, Only, Reconcile;
  }

  /** A recovered row is as stoppable and releasable as its recovered form says. */
  lemma RecoveredIsReady(h: Host, h': Host, id: string)
    requires RowOnly(h, h', id) && Erase(h'.rows[id]) == Erase(RecoverRow(h.procs, h.rows[id])) && Active(h.rows[id])
    requires Stoppable(h.procs, h.rows[id]) && Releasable(h, id) && h.rows[id].id == id
    ensures var d := h'.rows[id];
            && d.id == id && Active(d)
            && (d.pid == 0 || DecideStop(h'.procs, RuntimeOf(d), Readable) != Refuse)
            && CacheOwnership(h'.files, CachePath(h'.root, d), d.id, d.key) != Refused
  {
    RecoveredKeepsFields(h.procs, h.rows[id]);
    hide RecoverRow, DecideStop, CacheOwnership;
    var d, r := h'.rows[id], RecoverRow(h.procs, h.rows[id]);
    assert RuntimeOf(d) == RuntimeOf(Erase(d)) && RuntimeOf(r) == RuntimeOf(Erase(r));
    assert Erase(d).cacheDir == d.cacheDir && Erase(r).cacheDir == r.cacheDir;
  }

  /**
   * Destroy can be resumed: from every reachable world whose lock is free, wherever earlier commands died, if the
   * runtime that recovery leaves recorded can be stopped and the cache may go, then one new destroy command, with the
   * exit of the group it signals, destroys the deployment.
   */
  lemma DestroyCanFinish(w: World, id: string, purge: bool) returns (s: Script, v: World)
    requires Reachable(w) && w.lock == None && id in w.host.rows && Active(w.host.rows[id])
    requires Stoppable(w.host.procs, w.host.rows[id]) && Releasable(w.host, id)
    ensures s == Script(w, s.c, DestroyGoal(Some(id), purge)) && s.c !in w.cmds
    ensures Gets(s, v) && Finished(v.host, id, purge)
  {
    ReachableIsSound(w);
    var c := NewCommand(w.cmds);
    s := Script(w, c, DestroyGoal(Some(id), purge));
    var h := w.host;
    assert h.rows[id].id == id by { RowsNamed(h); }
    hide At, NoImposter, Inv, Stoppable, Releasable, DecideStop, CacheOwnership, Reachable, RecoverRow;
    Begin(s);
    var h1 := RecoverScript(s, h, id);
    RecoveredIsReady(h, h1, id);
    var job := DestroyJob(purge);
    Go(s, h1, Recovered, Proceed, h1, DestroyNext([h1.rows[id]], job)) by { Chooses(h1, id, purge); }
    var h2 := DestroyScript(s, h1, h1.rows[id], job);
    v := Standing(s, h2, DestroyNext([], job));
    assert Gets(s, v) by { AtMeansGets(s, h2, DestroyNext([], job)); }
  }

  lemma AtMeansGets(s: Script, h: Host, pc: Pc)
    requires At(s, h, pc)
    ensures Gets(s, Standing(s, h, pc))
  {
  }

  lemma Chooses(h: Host, id: string, purge: bool)
    requires id in h.rows
    ensures Act(h, DestroyGoal(Some(id), purge), Recovered, Proceed)
        == (h, DestroyNext([h.rows[id]], DestroyJob(purge)))
  {
  }
}
