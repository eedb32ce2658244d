/** The environment and the interleaving of commands keep the invariant, so it holds in every reachable world. */
module ProtocolWorld {
  import opened Basics
  import opened Store
  import opened Supervisor
  import opened Recovery
  import opened Host
  import opened Protocol
  import opened ProtocolInvariant
  import opened ProtocolLaunch

  // ----- the environment -----

  /**
   * A change by the environment: rows and history stay, markers stay, nothing dead revives, pinned groups stay pure.
   */
  ghost predicate Calm(h: Host, h': Host, pinned: set<int>) {
    && h' == h.(procs := h'.procs, ids := h'.ids, now := h'.now, files := h'.files)
    && h.now <= h'.now
    && h'.files == h.files.(caches := h'.files.caches)
    && h'.files.caches.Keys == h.files.caches.Keys
    && (forall p :: p in h.files.caches ==> h'.files.caches[p].marker == h.files.caches[p].marker)
    && (forall l :: Live(h'.procs, l) ==> Live(h.procs, l))
    && (forall who: Ident :: who.pid in pinned && OnlyLaunch(h.procs, who) ==> OnlyLaunch(h'.procs, who))
  }

  lemma ForeignKeeps(h: Host, pinned: set<int>, pid: int, proc: Proc)
    requires Inv(h)
    ensures var h' := Env(h, pinned, Foreign(pid, proc)); Inv(h') && Calm(h, h', pinned)
  {
    var h' := Env(h, pinned, Foreign(pid, proc));
    if h' != h {
      RowsUntouched(h, h');
      assert forall p :: p in h.procs ==> ProcOk(p, h.procs[p], h.launches, h.ids);
      forall p, q | SharesGroup(h'.procs, p, q) ensures h'.procs[q].origin == h'.procs[p].origin {
        assert p != pid;
        assert q != pid ==> SharesGroup(h.procs, p, q);
      }
      forall l | Live(h'.procs, l) ensures Live(h.procs, l) {
        var p :| p in h'.procs && h'.procs[p].origin == Some(l);
        assert p in h.procs && h.procs[p].origin == Some(l);
      }
      AddedAccounted(h, h');
    }
  }

  /** Rows are as sound as before when neither they nor the history they refer to changed. */
  lemma RowsUntouched(h: Host, h': Host)
    requires RowsOk(h)
    requires h' == h.(procs := h'.procs, ids := h'.ids, now := h'.now)
    ensures RowsOk(h')
  {
    forall id | id in h.rows ensures RowOk(h', h.rows[id]) {
      assert RowOk(h, h.rows[id]);
    }
  }

  /** New processes of no new launch take no claim away. */
  lemma AddedAccounted(h: Host, h': Host)
    requires Inv(h) && h'.rows == h.rows && h'.launches == h.launches
    requires forall p :: p in h.procs ==> p in h'.procs && h'.procs[p] == h.procs[p]
    requires forall l :: Live(h'.procs, l) ==> Live(h.procs, l)
    ensures Accounted(h'.rows, h'.procs, h'.launches)
  {
    forall l | l in h'.launches && Live(h'.procs, l) ensures AccountedFor(h'.rows, h'.procs, h'.launches[l], l) {
      assert AccountedFor(h.rows, h.procs, h.launches[l], l);
    }
  }

  lemma ForkKeeps(h: Host, pinned: set<int>, e: EnvEvent)
    requires Inv(h) && e.Fork?
    ensures var h' := Env(h, pinned, e); Inv(h') && Calm(h, h', pinned)
  {
    var h' := Env(h, pinned, e);
    if h' != h {
      RowsUntouched(h, h');
      var pid := e.pid;
      assert ProcOk(e.parent, h.procs[e.parent], h.launches, h.ids);
      assert h.procs[e.parent].pgid != pid;
      forall p | p in h'.procs ensures ProcOk(p, h'.procs[p], h'.launches, h'.ids) {
        if p != pid {
          assert ProcOk(p, h.procs[p], h.launches, h.ids);
        }
      }
      ForkKeepsGroups(h, h'.procs, e.parent, pid);
      forall l | Live(h'.procs, l) ensures Live(h.procs, l) {
        var p :| p in h'.procs && h'.procs[p].origin == Some(l);
        var parent := if p == pid then e.parent else p;
        assert parent in h.procs && h.procs[parent].origin == Some(l);
      }
      AddedAccounted(h, h');
    }
  }

  /** A child joins its parent's group and launch. */
  lemma ForkKeepsGroups(h: Host, procs: Procs, parent: int, pid: int)
    requires Inv(h) && parent in h.procs && pid !in h.procs
    requires forall p :: p in h.procs ==> h.procs[p].pgid != pid
    requires procs.Keys == h.procs.Keys + {pid}
    requires forall p :: p in h.procs ==> procs[p] == h.procs[p]
    requires procs[pid].pgid == h.procs[parent].pgid && procs[pid].origin == h.procs[parent].origin
    ensures GroupsPure(procs)
  {
    forall p, q | SharesGroup(procs, p, q) ensures procs[q].origin == procs[p].origin {
      var p' := if p == pid then parent else p;
      var q' := if q == pid then parent else q;
      assert ProcOk(p', h.procs[p'], h.launches, h.ids);
      assert SharesGroup(h.procs, p', q');
    }
  }

  lemma ExitsKeep(h: Host, pinned: set<int>, gone: set<int>)
    requires Inv(h)
    ensures var h' := Env(h, pinned, Exits(gone)); Inv(h') && Calm(h, h', pinned)
  {
    if CanExit(h, gone) {
      RemoveProcsKeeps(h, gone);
    }
  }

  /** What other programs put into a cache directory changes neither which directories exist nor their markers. */
  lemma FillIsCalm(h: Host, pinned: set<int>, path: Path)
    ensures var h' := Env(h, pinned, Fill(path)); Calm(h, h', pinned) && h' == h.(files := h'.files)
  {
    hide OnlyLaunch, Live, CanSpawn, CanExit;
    var h' := Env(h, pinned, Fill(path));
    assert h'.files.caches.Keys == h.files.caches.Keys;
  }

  lemma FilesUntouched(h: Host, h': Host)
    requires Inv(h) && h' == h.(files := h'.files)
    requires h'.files.logs == h.files.logs && h'.files.dirs == h.files.dirs
    requires h'.files.caches.Keys == h.files.caches.Keys && MarkersOk(h'.files, h.keys)
    ensures Inv(h')
  {
    forall id | id in h.rows ensures RowOk(h', h.rows[id]) {
      assert RowOk(h, h.rows[id]);
    }
  }

  lemma FillKeeps(h: Host, pinned: set<int>, path: Path)
    requires Inv(h)
    ensures var h' := Env(h, pinned, Fill(path)); Inv(h') && Calm(h, h', pinned)
  {
    FillIsCalm(h, pinned, path);
    assert MarkersOk(Env(h, pinned, Fill(path)).files, h.keys);
    hide Inv, Env, MarkersOk;
    FilesUntouched(h, Env(h, pinned, Fill(path)));
  }

  lemma TickKeeps(h: Host, pinned: set<int>, delta: nat)
    requires Inv(h)
    ensures var h' := Env(h, pinned, Tick(delta)); Inv(h') && Calm(h, h', pinned)
  {
    RowsUntouched(h, Env(h, pinned, Tick(delta)));
  }

  lemma EnvKeeps(h: Host, pinned: set<int>, e: EnvEvent)
    requires Inv(h)
    ensures Inv(Env(h, pinned, e)) && Calm(h, Env(h, pinned, e), pinned)
  {
    hide Inv, Calm;
    match e
    case Tick(delta) => TickKeeps(h, pinned, delta);
    case Foreign(pid, proc) => ForeignKeeps(h, pinned, pid, proc);
    case Fork(_, _, _, _, _) => ForkKeeps(h, pinned, e);
    case Exits(gone) => ExitsKeep(h, pinned, gone);
    case Fill(path) => FillKeeps(h, pinned, path);
  }

  /** What a dead deployment's row, caches and the clock let the environment change does not matter to it. */
  lemma NoneLiveCalm(h: Host, h': Host, pinned: set<int>, o: Owner)
    requires Calm(h, h', pinned) && NoneLive(h, o)
    ensures NoneLive(h', o)
  {
  }

  lemma RecoveryCalm(h: Host, h': Host, pinned: set<int>, pc: Pc)
    requires Calm(h, h', pinned) && RecoveryInv(h, pc)
    ensures RecoveryInv(h', pc)
  {
    if pc.Settle? && pc.d.pid == 0 {
      NoneLiveCalm(h, h', pinned, OwnerOf(pc.d));
    }
    hide NoneLive;
  }

  lemma DestroyCalm(h: Host, h': Host, pinned: set<int>, pc: Pc)
    requires Calm(h, h', pinned) && DestroyInv(h, pc) && Pinned(pc) <= pinned
    ensures DestroyInv(h', pc)
  {
    hide OnlyLaunch, Queue, JobOk, Live;
    if pc.AwaitExit? {
      assert RuntimeOf(pc.d).pid in pinned;
    }
  }

  lemma RemovalCalm(h: Host, h': Host, pinned: set<int>, pc: Pc)
    requires Calm(h, h', pinned) && RemovalInv(h, pc)
    ensures RemovalInv(h', pc)
  {
    hide NoneLive, Queue, JobOk, OnlyLaunch, Live;
    if pc.CheckOwner? || pc.RemoveLog? || pc.RemoveDir? || pc.RemoveCache? || pc.RemoveCacheRest? || pc.MarkDestroyed? {
      NoneLiveCalm(h, h', pinned, OwnerOf(pc.d));
    }
  }

  lemma PrepareCalm(h: Host, h': Host, pinned: set<int>, pc: Pc)
    requires Calm(h, h', pinned) && PrepareInv(h, pc)
    ensures PrepareInv(h', pc)
  {
    hide OnlyLaunch, Live;
  }

  lemma ServeCalm(h: Host, h': Host, pinned: set<int>, pc: Pc)
    requires Calm(h, h', pinned) && ServeInv(h, pc) && Pinned(pc) <= pinned
    ensures ServeInv(h', pc)
  {
    hide OnlyLaunch, Live, NeverLaunched, Identical;
    if pc.Exec? {
      NeverLaunchedCalm(h, h', Owner(pc.r.spec.id, pc.r.key));
    }
  }

  lemma NeverLaunchedCalm(h: Host, h': Host, o: Owner)
    requires NeverLaunched(h, o) && h'.launches == h.launches
    ensures NeverLaunched(h', o)
  {
  }

  lemma EndCalm(h: Host, h': Host, pinned: set<int>, pc: Pc)
    requires Calm(h, h', pinned) && EndInv(h, pc) && Pinned(pc) <= pinned
    ensures EndInv(h', pc)
  {
    hide OnlyLaunch, Live, NoneLive;
    if pc.FailMark? && h.rows[pc.r.spec.id].pid == 0 {
      NoneLiveCalm(h, h', pinned, Owner(pc.r.spec.id, pc.r.key));
    }
  }

  /** Where a command stands survives what the environment does meanwhile. */
  lemma PcCalm(h: Host, h': Host, pinned: set<int>, pc: Pc)
    requires Calm(h, h', pinned) && PcInv(h, pc) && Pinned(pc) <= pinned
    ensures PcInv(h', pc)
  {
    hide Calm, Pinned, RecoveryInv, DestroyInv, RemovalInv, PrepareInv, ServeInv, EndInv;
    RecoveryCalm(h, h', pinned, pc);
    DestroyCalm(h, h', pinned, pc);
    RemovalCalm(h, h', pinned, pc);
    PrepareCalm(h, h', pinned, pc);
    ServeCalm(h, h', pinned, pc);
    EndCalm(h, h', pinned, pc);
  }

  // ----- the world -----

  /**
   * The machine is sound, at most the lock holder is past the lock, and each command stands where its counter says.
   */
  ghost predicate WorldInv(w: World) {
    && Inv(w.host)
    && NoImposter(w.host)
    && (w.lock.Some? ==> w.lock.value in w.cmds && Holding(w.cmds[w.lock.value].pc))
    && (forall c :: c in w.cmds ==> CmdInv(w, c))
  }

  ghost predicate CmdInv(w: World, c: nat)
    requires c in w.cmds
  {
    (Holding(w.cmds[c].pc) ==> w.lock == Some(c)) && PcInv(w.host, w.cmds[c].pc)
  }

  lemma SameRowsHonest(h: Host, h': Host)
    requires NoImposter(h) && h'.rows == h.rows && h'.procs == h.procs
    ensures NoImposter(h')
  {
  }

  /** Only one command is past the lock. */
  lemma OthersIdle(w: World, c: nat)
    requires WorldInv(w) && c in w.cmds && Holding(w.cmds[c].pc)
    ensures forall other :: other in w.cmds && other != c ==> w.cmds[other].pc == Idle
    ensures PcInv(w.host, w.cmds[c].pc)
  {
    hide Inv, NoImposter, PcInv;
    assert CmdInv(w, c);
    forall other | other in w.cmds && other != c ensures w.cmds[other].pc == Idle {
      assert CmdInv(w, other);
    }
  }

  lemma BootIsSound(w: World)
    requires Boot(w)
    ensures WorldInv(w)
  {
    FreshIsSound(w.host);
  }

  lemma AdvanceKeeps(w: World, c: nat, choice: Choice)
    requires WorldInv(w)
    ensures var next := Attempt(w, Advance(c, choice)); NoImposter(next.host) ==> WorldInv(next)
  {
    hide Inv, Act;
    if c in w.cmds && Holding(w.cmds[c].pc) {
      var next := Attempt(w, Advance(c, choice));
      assert CmdInv(w, c);
      ActKeeps(w.host, w.cmds[c].goal, w.cmds[c].pc, choice);
      forall other | other in next.cmds ensures CmdInv(next, other) {
        if other != c {
          assert CmdInv(w, other);
        }
      }
    }
  }

  lemma EnvironmentKeeps(w: World, e: EnvEvent)
    requires WorldInv(w)
    ensures var next := Attempt(w, Environment(e)); NoImposter(next.host) ==> WorldInv(next)
  {
    hide Inv, Calm, PcInv, NoImposter, Env;
    var pinned := AllPinned(w.cmds);
    EnvKeeps(w.host, pinned, e);
    var next := Attempt(w, Environment(e));
    forall c | c in next.cmds ensures CmdInv(next, c) {
      assert CmdInv(w, c);
      PcCalm(w.host, next.host, pinned, w.cmds[c].pc);
    }
  }

  lemma StepKeeps(w: World, e: Event)
    requires WorldInv(w)
    ensures WorldInv(Step(w, e))
  {
    hide Inv, NoImposter;
    match e
    case Advance(c, choice) => AdvanceKeeps(w, c, choice);
    case Environment(env) => EnvironmentKeeps(w, env);
    case Invoke(c, goal) => BookkeepingKeeps(w, e);
    case Acquire(c) => BookkeepingKeeps(w, e);
    case GiveUpLock(c) => BookkeepingKeeps(w, e);
    case Finish(c) => BookkeepingKeeps(w, e);
    case Crash(c) => BookkeepingKeeps(w, e);
  }

  /** Starting, locking, ending and dying touch only the lock and the list of commands. */
  lemma BookkeepingKeeps(w: World, e: Event)
    requires WorldInv(w) && !e.Advance? && !e.Environment?
    ensures WorldInv(Attempt(w, e))
  {
    hide Inv, NoImposter, PcInv, Act, Env;
    var next := Attempt(w, e);
    NoPart(w.host, Idle);
    NoPart(w.host, ListRows);
    forall c | c in next.cmds ensures CmdInv(next, c) {
      if c in w.cmds {
        assert CmdInv(w, c);
      }
    }
  }

  /** What changes of the machine when no command takes an effect: neither rows nor markers. */
  ghost predicate Aside(h: Host, h': Host) {
    && h'.root == h.root && h'.rows == h.rows && h'.keys == h.keys
    && h'.files.caches.Keys == h.files.caches.Keys
    && forall p :: p in h.files.caches ==> h'.files.caches[p].marker == h.files.caches[p].marker
  }

  lemma EnvIsAside(h: Host, pinned: set<int>, e: EnvEvent)
    ensures Aside(h, Env(h, pinned, e))
  {
    hide CanSpawn, CanExit;
  }

  lemma OtherEvents(w: World, e: Event)
    requires e.Advance? ==> !(e.c in w.cmds && Holding(w.cmds[e.c].pc))
    ensures Aside(w.host, Step(w, e).host)
  {
    hide NoImposter, Act, Env, Aside;
    AsideOfItself(w.host);
    if e.Environment? {
      EnvIsAside(w.host, AllPinned(w.cmds), e.e);
    }
  }

  lemma AsideOfItself(h: Host)
    ensures Aside(h, h)
  {
  }

  /** The invariant holds after every sequence of events: any commands, interleaved any way, with crashes anywhere. */
  lemma {:induction false} RunKeeps(w: World, events: seq<Event>)
    requires WorldInv(w)
    ensures WorldInv(RunAll(w, events))
    decreases |events|
  {
    hide WorldInv, Step;
    if events != [] {
      StepKeeps(w, events[0]);
      RunKeeps(Step(w, events[0]), events[1..]);
    }
  }

  /** So it holds along every run from a fresh machine. */
  lemma {:induction false} RunIsSound(worlds: seq<World>, events: seq<Event>, k: nat)
    requires IsRun(worlds, events) && k <= |events|
    ensures WorldInv(worlds[k])
  {
    hide WorldInv, Step;
    if k == 0 {
      BootIsSound(worlds[0]);
    } else {
      RunIsSound(worlds, events, k - 1);
      assert Moves(worlds, events, k - 1);
      StepKeeps(worlds[k - 1], events[k - 1]);
    }
  }

  /** Going on from the end of a run makes a run. */
  lemma {:induction false} RunAllIsReachable(worlds: seq<World>, events: seq<Event>, more: seq<Event>)
    requires IsRun(worlds, events)
    ensures Reachable(RunAll(worlds[|events|], more))
    decreases |more|
  {
    hide Boot, Step;
    if more != [] {
      var worlds' := worlds + [Step(worlds[|events|], more[0])];
      var events' := events + [more[0]];
      forall i | 0 <= i < |events'| ensures Moves(worlds', events', i) {
        assert i < |events| ==> Moves(worlds, events, i);
      }
      RunAllIsReachable(worlds', events', more[1..]);
    }
  }
}
