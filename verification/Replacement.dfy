/**
 * Replacing a deployment is not transactional: the old one is given up for good at one effect of the replacing command,
 * before anything of the new one exists, and the new one may then fail.
 */
module Replacement {
  import opened Basics
  import opened Text
  import opened Phases
  import opened Store
  import opened Supervisor
  import opened Recovery
  import opened Files
  import opened Host
  import opened Protocol
  import opened ProtocolInvariant
  import opened ProtocolWorld
  import opened Lifecycle
  import opened Effects
  import opened Markers
  import opened Scripts
  import opened Restart
  import opened Resume
  import opened Blocked
  import opened Progress

  // ----- where a deployment is given up -----

  /** A transition into teardown from the stored phase happens, and no process can pose as a runtime because of it. */
  lemma MoveTearsDown(h: Host, id: string, from: Phase, to: Phase, reason: string, next: Pc)
    requires id in h.rows && h.rows[id].phase == from && Legal(from, to) && Teardown(to)
    ensures var h' := Move(h, id, from, to, reason, next).0;
            id in h'.rows && Teardown(h'.rows[id].phase) && (NoImposter(h) ==> NoImposter(h'))
  {
    hide Legal, NoImposter;
    assert Move(h, id, from, to, reason, next).0 == h.(rows := h.rows[id := Moved(h.rows[id], to, reason, h.now)]);
    if NoImposter(h) {
      RowChangeIsHonest(h, id, Moved(h.rows[id], to, reason, h.now));
    }
  }

  /** Every known phase before teardown may turn CRASHED or FAILED. */
  lemma MayCrash(h: Host, id: string)
    requires Inv(h) && id in h.rows && !Teardown(h.rows[id].phase)
    ensures Legal(h.rows[id].phase, Crashed) && Legal(h.rows[id].phase, Failed)
  {
    assert RowOk(h, h.rows[id]);
  }

  /** A machine whose row is torn down, with no process posing as a runtime that did not before. */
  ghost predicate TornDown(h: Host, h': Host, id: string) {
    id in h'.rows && Teardown(h'.rows[id].phase) && (NoImposter(h) ==> NoImposter(h'))
  }

  lemma RecoveryTearsDown(h: Host, pc: Pc, c: Choice, id: string)
    requires pc.Settle? || pc.MarkCrashed?
    requires Inv(h) && PcInv(h, pc) && id in h.rows && !Teardown(h.rows[id].phase) && BeginsTeardown(pc, id)
    ensures TornDown(h, ActRecovery(h, pc, c).0, id)
  {
    hide Inv, PcInv, NoneLive, Queue, SettledBut, Move, NoImposter, Legal;
    RecoveryPart(h, pc);
    MayCrash(h, id);
    match pc
    case Settle(d, todo) => MoveTearsDown(h, id, d.phase, Crashed, NO_IDENTITY, Recover(todo));
    case MarkCrashed(d, reason, todo) => MoveTearsDown(h, id, d.phase, Crashed, reason, Recover(todo));
  }

  lemma DestroyTearsDown(h: Host, pc: Pc, c: Choice, id: string)
    requires pc.MarkFailed? || pc.MarkDestroying?
    requires Inv(h) && PcInv(h, pc) && id in h.rows && !Teardown(h.rows[id].phase) && BeginsTeardown(pc, id)
    ensures TornDown(h, ActDestroy(h, pc, c).0, id)
  {
    hide Inv, PcInv, Queue, JobOk, Move, NoImposter, Legal;
    DestroyPart(h, pc);
    MayCrash(h, id);
    match pc
    case MarkFailed(d, todo, job) =>
      MoveTearsDown(h, id, d.phase, Failed, "destroy requested", MarkDestroying(d.(phase := Failed), todo, job));
    case MarkDestroying(d, todo, job) =>
      ReadyMayGo(d.phase);
      MoveTearsDown(h, id, d.phase, Destroying, "", AfterMarked(d.(phase := Destroying), todo, job));
  }

  lemma FailTearsDown(h: Host, r: Run, from: Phase, c: Choice, id: string)
    requires Inv(h) && PcInv(h, FailMark(r, from)) && id in h.rows && !Teardown(h.rows[id].phase) && r.spec.id == id
    ensures TornDown(h, ActFail(h, FailMark(r, from), c).0, id)
  {
    hide Inv, PcInv, NoneLive, ValidSpec, Move, NoImposter, Legal;
    EndPart(h, FailMark(r, from));
    MayCrash(h, id);
    MoveTearsDown(h, id, from, Failed, "cause", DeployFailed(r));
  }

  lemma TeardownHappens(h: Host, goal: Goal, pc: Pc, c: Choice, id: string)
    requires Inv(h) && PcInv(h, pc) && id in h.rows && !Teardown(h.rows[id].phase) && BeginsTeardown(pc, id)
    ensures TornDown(h, Act(h, goal, pc, c).0, id)
  {
    hide Inv, PcInv, TornDown, ActRecovery, ActRecovered, ActDestroy, ActStop, ActRemove, ActCreate, ActPrepare,
         ActLaunch, ActServe, ActFail;
    match pc
    case Settle(_, _) => RecoveryTearsDown(h, pc, c, id);
    case MarkCrashed(_, _, _) => RecoveryTearsDown(h, pc, c, id);
    case MarkFailed(_, _, _) => DestroyTearsDown(h, pc, c, id);
    case MarkDestroying(_, _, _) => DestroyTearsDown(h, pc, c, id);
    case FailMark(r, from) => FailTearsDown(h, r, from, c, id);
  }

  lemma ReadyMayGo(from: Phase)
    requires from in {Ready, Failed, Crashed, UnregisteredHealthy}
    ensures Legal(from, Destroying)
  {
  }

  /**
   * Where a deployment is given up, exactly: in every reachable world, an event makes a record that is not torn down
   * one that is if and only if it is an effect of the lock holder that begins its teardown. No other event takes the
   * record away or gives it another key.
   */
  lemma TeardownBeginsAt(w: World, e: Event, id: string)
    requires Reachable(w) && id in w.host.rows && !Teardown(w.host.rows[id].phase)
    ensures var rows := Step(w, e).host.rows;
            && id in rows && rows[id].key == w.host.rows[id].key
            && (Teardown(rows[id].phase) <==>
                  e.Advance? && e.c in w.cmds && w.lock == Some(e.c) && BeginsTeardown(w.cmds[e.c].pc, id))
  {
    hide Reachable, Inv, NoImposter, PcInv, Act, CacheEffect, BeginsTeardown;
    ReachableIsSound(w);
    StepHasEffect(w, e, w.host.root);
    if e.Advance? && e.c in w.cmds && w.lock == Some(e.c) && BeginsTeardown(w.cmds[e.c].pc, id) {
      assert CmdInv(w, e.c);
      TeardownHappens(w.host, w.cmds[e.c].goal, w.cmds[e.c].pc, e.choice, id);
    }
  }

  /** The incarnation of the deployment with this key is over, and no other will have its key. */
  predicate Lost(h: Host, id: string, key: string) {
    key in h.keys && (id in h.rows && h.rows[id].key == key ==> Teardown(h.rows[id].phase))
  }

  lemma LostStep(w: World, e: Event, id: string, key: string)
    requires WorldInv(w) && Lost(w.host, id, key)
    ensures Lost(Step(w, e).host, id, key)
  {
    hide WorldInv, Step, CacheEffect;
    StepHasEffect(w, e, w.host.root);
  }

  lemma {:induction false} LostForever(w: World, events: seq<Event>, id: string, key: string)
    requires WorldInv(w) && Lost(w.host, id, key)
    ensures Lost(RunAll(w, events).host, id, key)
    decreases |events|
  {
    hide WorldInv, Lost, Step;
    if events != [] {
      StepKeeps(w, events[0]);
      LostStep(w, events[0], id, key);
      LostForever(Step(w, events[0]), events[1..], id, key);
    }
  }

  /**
   * Once its teardown has begun, a deployment never serves again, whatever commands run: a later one has another key.
   */
  lemma TornDownForGood(w: World, events: seq<Event>, id: string)
    requires Reachable(w) && id in w.host.rows && Teardown(w.host.rows[id].phase)
    ensures var rows := RunAll(w, events).host.rows;
            id in rows && rows[id].key == w.host.rows[id].key ==> Teardown(rows[id].phase)
  {
    ReachableIsSound(w);
    assert RowOk(w.host, w.host.rows[id]);
    hide WorldInv, RunAll;
    LostForever(w, events, id, w.host.rows[id].key);
  }

  // ----- a replacement that loses both -----

  const REPLACE := DeployGoal(true)

  lemma {:induction false} KeepsNone(ds: seq<Deployment>, keep: Deployment -> bool)
    requires forall d :: d in ds ==> !keep(d)
    ensures Filter(ds, keep) == []
  {
    if ds != [] {
      KeepsNone(ds[1..], keep);
    }
  }

  /** The replacing command resolves its spec, and takes the only active record to destroy. */
  lemma Replaces(h: Host, d: Deployment, rest: seq<Deployment>, spec: Spec)
    requires Enumerates([d] + rest, h.rows) && Active(d) && ValidSpec(spec)
    requires forall t :: t in rest ==> t.phase == Destroyed
    ensures Act(h, REPLACE, Recovered, Resolved([d] + rest, spec)) == (h, DestroyNext([d], ReplaceJob(spec)))
  {
    hide ValidSpec, Enumerates, ActRecovery, ActDestroy, ActStop, ActRemove, ActCreate, ActPrepare, ActLaunch,
         ActServe, ActFail;
    assert ([d] + rest)[1..] == rest;
    KeepsNone(rest, (x: Deployment) => Active(x));
    assert Filter([d] + rest, (x: Deployment) => Active(x)) == [d];
  }

  /** Up to the point where the old deployment is purged and nothing of the new one exists. */
  lemma PurgeOld(s: Script, id: string, spec: Spec) returns (h: Host)
    requires Reachable(s.w) && s.w.lock == None && s.c !in s.w.cmds && s.goal == REPLACE && ValidSpec(spec)
    requires id in s.w.host.rows && Active(s.w.host.rows[id])
    requires Stoppable(s.w.host.procs, s.w.host.rows[id]) && Releasable(s.w.host, id)
    ensures At(s, h, DestroyNext([], ReplaceJob(spec))) && NoImposter(h)
    ensures id !in h.rows && DestroyedBut(h.rows, {})
  {
    hide At, NoImposter, Inv, PcInv, Stoppable, Releasable, DecideStop, CacheOwnership, Reachable, RecoverRow,
         ValidSpec, Act, Enumerates;
    ReachableIsSound(s.w);
    var h0 := s.w.host;
    RowKnown(h0, id);
    Begin(s);
    var h1 := RecoverScript(s, h0, id);
    RecoveredIsReady(h0, h1, id);
    AtIsSound(s, h1, Recovered);
    var d := h1.rows[id];
    var rest := OthersListed(h1, id);
    OnlyActive(h1, id);
    Replaces(h1, d, rest, spec);
    Go(s, h1, Recovered, Resolved([d] + rest, spec), h1, DestroyNext([d], ReplaceJob(spec)));
    h := DestroyScript(s, h1, d, ReplaceJob(spec));
  }

  lemma FailsEarly(h: Host, goal: Goal, r: Run)
    ensures Act(h, goal, ToValidating(r), Proceed) == Move(h, r.spec.id, Requested, Validating, "", WriteKey(r))
    ensures Act(h, goal, WriteKey(r), IoError) == (h, FailMark(r, Validating))
    ensures Act(h, goal, FailMark(r, Validating), Proceed)
         == Move(h, r.spec.id, Validating, Failed, "cause", DeployFailed(r))
  {
    hide Move, ActRecovery, ActRecovered, ActDestroy, ActStop, ActRemove, ActCreate, ActLaunch, ActServe;
  }

  lemma RecordIsNew(h: Host, spec: Spec, key: string)
    ensures var rows := WithRecord(h, spec, key).rows;
            && spec.id in rows && rows[spec.id].id == spec.id
            && rows[spec.id].phase == Requested && rows[spec.id].key == key
  {
  }

  /** The new deployment fails at its first write. */
  lemma FailNew(s: Script, h: Host, spec: Spec, key: string) returns (h': Host)
    requires At(s, h, DestroyNext([], ReplaceJob(spec))) && NoImposter(h) && DestroyedBut(h.rows, {})
    requires key != "" && key !in h.keys
    ensures At(s, h', DeployFailed(Run(spec, key)))
    ensures spec.id in h'.rows && h'.rows[spec.id].phase == Failed && h'.rows[spec.id].key == key
    ensures forall i :: i in h'.rows && i != spec.id ==> i in h.rows
  {
    hide At, NoImposter, Act, Move;
    var r := Run(spec, key);
    Create(s, h, spec, key);
    var h1 := WithRecord(Cleared(h, spec.id), spec, key);
    RecordIsNew(Cleared(h, spec.id), spec, key);
    var d := h1.rows[spec.id];
    FailsEarly(h1, s.goal, r);
    var h2 := MoveScript(s, h1, ToValidating(r), d, Validating, "", WriteKey(r));
    FailsEarly(h2, s.goal, r);
    Go(s, h2, WriteKey(r), IoError, h2, FailMark(r, Validating));
    h' := MoveScript(s, h2, FailMark(r, Validating), d.(phase := Validating), Failed, "cause", DeployFailed(r));
  }

  /** Nothing of the incarnation with this key is left: no record, no process. */
  ghost predicate NothingLeft(h: Host, id: string, key: string) {
    NoneLive(h, Owner(id, key)) && (id in h.rows ==> h.rows[id].key != key)
  }

  /** A new incarnation, under a key not in use before, is FAILED. */
  predicate NewFailed(h0: Host, h: Host, id: string) {
    id in h.rows && h.rows[id].phase == Failed && h.rows[id].key !in h0.keys
  }

  /** The old deployment is gone, and the new one did not come up. */
  ghost predicate BothLost(h0: Host, h: Host, id: string, spec: Spec) {
    id in h0.rows && NothingLeft(h, id, h0.rows[id].key) && NewFailed(h0, h, spec.id)
  }

  /** Whoever has no record is not alive. */
  lemma NobodyOfOld(w: World, id: string, key: string)
    requires Reachable(w) && (id in w.host.rows ==> w.host.rows[id].key != key)
    ensures NothingLeft(w.host, id, key)
  {
    hide Reachable;
    forall l | l in w.host.launches && w.host.launches[l] == Owner(id, key) ensures !Live(w.host.procs, l) {
      if Live(w.host.procs, l) {
        NoOrphan(w, l);
        assert false;
      }
    }
  }

  /**
   * From every reachable world whose lock is free, if the active deployment can be stopped and released, one new
   * replacing command has a run that leaves nothing of it, and the new deployment FAILED.
   */
  lemma ReplacementCanLoseBoth(w: World, id: string, spec: Spec) returns (c: nat, v: World)
    requires Reachable(w) && w.lock == None && id in w.host.rows && Active(w.host.rows[id]) && ValidSpec(spec)
    requires Stoppable(w.host.procs, w.host.rows[id]) && Releasable(w.host, id)
    ensures c !in w.cmds && Gets(Script(w, c, REPLACE), v) && BothLost(w.host, v.host, id, spec)
  {
    hide At, ValidSpec, Reachable, Stoppable, Releasable, NothingLeft;
    c := NewCommand(w.cmds);
    var s := Script(w, c, REPLACE);
    var h := PurgeOld(s, id, spec);
    var key := NewText(h.keys + w.host.keys);
    var h' := FailNew(s, h, spec, key);
    v := Standing(s, h', DeployFailed(Run(spec, key)));
    StandsReachably(s, h', DeployFailed(Run(spec, key)));
    AtMeansGets(s, h', DeployFailed(Run(spec, key)));
    KeyIsUsed(w, id);
    NobodyOfOld(v, id, w.host.rows[id].key);
  }

  lemma KeyIsUsed(w: World, id: string)
    requires Reachable(w) && id in w.host.rows
    ensures w.host.rows[id].key in w.host.keys
  {
    ReachableIsSound(w);
    assert RowOk(w.host, w.host.rows[id]);
  }

  /** Such worlds exist: on every quiet machine a deployment can be brought into service, to be stopped and released. */
  lemma InServiceIsReachable(w: World, spec: Spec, key: string, pid: int, token: string) returns (v: World)
    requires Boot(w) && Quiet(w.host, spec, key, pid, token)
    ensures Reachable(v) && v.lock == None
    ensures spec.id in v.host.rows && v.host.rows[spec.id].phase == UnregisteredHealthy
    ensures Stoppable(v.host.procs, v.host.rows[spec.id]) && Releasable(v.host, spec.id)
  {
    var r := Run(spec, key);
    var h := DeployCanSucceed(w, spec, key, pid, token);
    assert Fields(spec.intent) != [] by { QuietHasIntent(w.host, spec, key, pid, token); }
    BootIsReachable(w);
    hide At, MatchesArgv, Quiet, Reachable, Up, Stoppable, Releasable;
    UpIsStoppable(h, r, Captured(w.host, r, pid, token));
    v := Left(DeployOn(w), h, r);
    InServiceOwnsCache(v, spec.id);
  }

  // ----- and when none does -----

  /** Where a deploy that may not replace can be while a deployment is active. */
  predicate Harmless(pc: Pc) {
    pc.Idle? || Recovering(pc) || pc.Ended? || pc.StoreFault?
  }

  lemma RecoveryIsHarmless(h: Host, pc: Pc, c: Choice, id: string)
    requires pc.ListRows? || pc.Recover? || pc.Adopt? || pc.Settle? || pc.MarkCrashed?
    requires id in h.rows && Active(h.rows[id])
    ensures var (h', pc') := ActRecovery(h, pc, c); id in h'.rows && Active(h'.rows[id]) && Harmless(pc')
  {
    hide Reconcile, Only, Candidates, Enumerates, Legal;
  }

  lemma ChecksAreHarmless(h: Host, c: Choice, id: string)
    requires id in h.rows && Active(h.rows[id])
    ensures ActRecovered(h, DeployGoal(false), c) == (h, Ended)
  {
    hide Enumerates, ValidSpec;
  }

  lemma EffectIsHarmless(h: Host, pc: Pc, c: Choice, id: string)
    requires Holding(pc) && Harmless(pc) && id in h.rows && Active(h.rows[id])
    ensures var (h', pc') := Act(h, DeployGoal(false), pc, c); id in h'.rows && Active(h'.rows[id]) && Harmless(pc')
  {
    hide ActRecovery, ActRecovered, ActDestroy, ActStop, ActRemove, ActCreate, ActPrepare, ActLaunch, ActServe,
         ActFail;
    if pc.Recovered? {
      ChecksAreHarmless(h, c, id);
    } else if Recovering(pc) {
      RecoveryIsHarmless(h, pc, c, id);
    }
  }

  /** The one command at work may not replace, and the deployment is active. */
  ghost predicate Unreplaced(w: World, c: nat, id: string) {
    && id in w.host.rows && Active(w.host.rows[id])
    && (c in w.cmds ==> w.cmds[c].goal == DeployGoal(false) && Harmless(w.cmds[c].pc))
  }

  lemma UnreplacedStep(w: World, c: nat, e: Event, id: string)
    requires WorldInv(w) && Unreplaced(w, c, id) && OfOne(c, DeployGoal(false), e)
    ensures Unreplaced(Step(w, e), c, id)
  {
    hide Inv, NoImposter, PcInv, Act, Env;
    if e.Advance? && c in w.cmds && Holding(w.cmds[c].pc) {
      EffectIsHarmless(w.host, w.cmds[c].pc, e.choice, id);
    } else {
      OtherEvents(w, e);
    }
  }

  lemma {:induction false} UnreplacedForever(w: World, c: nat, events: seq<Event>, id: string)
    requires WorldInv(w) && Unreplaced(w, c, id) && AllOfOne(c, DeployGoal(false), events)
    ensures StillThere(RunAll(w, events).host, id, w.host.rows[id].key)
    decreases |events|
  {
    hide WorldInv, Step, OfOne, Harmless;
    if events != [] {
      StepKeeps(w, events[0]);
      UnreplacedStep(w, c, events[0], id);
      StepKeepsKey(w, events[0], id);
      UnreplacedForever(Step(w, events[0]), c, events[1..], id);
    }
  }

  /** A run of one new deploy command, in which no process is disturbed but by its signals, that loses both. */
  ghost predicate LosesBoth(w: World, id: string, spec: Spec, replace: bool, c: nat, events: seq<Event>) {
    && c !in w.cmds && AllOfOne(c, DeployGoal(replace), events) && Undisturbed(w, |w.host.signals|, events)
    && BothLost(w.host, RunAll(w, events).host, id, spec)
  }

  /**
   * Replacement is not transactional, exactly. In every reachable world whose lock is free, for every active
   * deployment: some undisturbed run of one new deploy command leaves nothing of it, and the new deployment FAILED,
   * if and only if the command may replace, the runtime that recovery leaves recorded can be stopped, and the cache
   * is absent or carries the key. All three can be checked before the command starts.
   */
  lemma ReplacementIsExact(w: World, id: string, spec: Spec, replace: bool)
    requires Reachable(w) && w.lock == None && id in w.host.rows && Active(w.host.rows[id]) && ValidSpec(spec)
    ensures (exists c, events :: LosesBoth(w, id, spec, replace, c, events))
            <==> replace && Stoppable(w.host.procs, w.host.rows[id]) && Releasable(w.host, id)
  {
    hide ValidSpec, Reachable, Stoppable, Releasable, BothLost, RunAll, Undisturbed, AllOfOne;
    if replace && Stoppable(w.host.procs, w.host.rows[id]) && Releasable(w.host, id) {
      var c, v := ReplacementCanLoseBoth(w, id, spec);
      var events :| Ends(Script(w, c, REPLACE), events, v);
      assert LosesBoth(w, id, spec, replace, c, events);
    } else {
      forall c, events | LosesBoth(w, id, spec, replace, c, events) ensures false {
        OldStays(w, id, replace, c, events);
        StillThereIsNotLost(w.host, RunAll(w, events).host, id, spec);
      }
    }
  }

  lemma StillThereIsNotLost(h0: Host, h: Host, id: string, spec: Spec)
    requires id in h0.rows && StillThere(h, id, h0.rows[id].key)
    ensures !BothLost(h0, h, id, spec)
  {
    hide NoneLive;
  }

  /** Without one of the three conditions the old deployment's record stays. */
  lemma OldStays(w: World, id: string, replace: bool, c: nat, events: seq<Event>)
    requires Reachable(w) && w.lock == None && id in w.host.rows && Active(w.host.rows[id])
    requires !(replace && Stoppable(w.host.procs, w.host.rows[id]) && Releasable(w.host, id))
    requires c !in w.cmds && AllOfOne(c, DeployGoal(replace), events) && Undisturbed(w, |w.host.signals|, events)
    ensures StillThere(RunAll(w, events).host, id, w.host.rows[id].key)
  {
    hide Reachable, Stoppable, Releasable, RunAll, Undisturbed, AllOfOne, WorldInv, StillThere;
    if !Releasable(w.host, id) {
      UnreleasableStays(w, events, id);
    } else if replace {
      RefusedStays(w, events, id);
    } else {
      ReachableIsSound(w);
      UnreplacedForever(w, c, events, id);
    }
  }
}
