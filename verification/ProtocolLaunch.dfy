/** Every effect of a deploy command, from creating the record to its final phase, keeps the invariant. */
module ProtocolLaunch {
  import opened Basics
  import opened Phases
  import opened Store
  import opened Supervisor
  import opened Recovery
  import opened Files
  import opened Host
  import opened Protocol
  import opened ProtocolInvariant
  import opened ProtocolSteps

  // ----- creating the record -----

  lemma ClearTombstoneKeeps(h: Host, spec: Spec, c: Choice)
    requires Inv(h) && AtCreate(h, spec)
    ensures Good(ActCreate(h, ClearTombstone(spec), c))
  {
    hide PcInv;
    if spec.id in h.rows {
      DropRow(h, spec.id);
    }
    PreparePart(ActCreate(h, ClearTombstone(spec), c).0, CreateRecord(spec));
    hide Inv;
  }

  lemma MoreKeys(h: Host, text: string)
    requires Inv(h)
    ensures Inv(h.(keys := h.keys + {text}))
  {
    var h' := h.(keys := h.keys + {text});
    forall i | i in h.rows ensures RowOk(h', h.rows[i]) {
      assert RowOk(h, h.rows[i]);
    }
  }

  /** A key that was never used owns nothing: no launch can be attributed to a new record with it. */
  lemma FreshKeyOwnsNothing(h: Host, id: string, key: string)
    requires Inv(h) && key !in h.keys
    ensures NeverLaunched(h, Owner(id, key))
    ensures Inv(h.(keys := h.keys + {key}))
  {
    MoreKeys(h, key);
  }

  lemma NewRowOk(h: Host, d: Deployment, spec: Spec, key: string)
    requires ValidSpec(spec) && key != "" && key in h.keys && NeverLaunched(h, Owner(spec.id, key))
    requires d == NewRow(spec, key).(createdAt := d.createdAt, updatedAt := d.updatedAt)
    ensures RowOk(h, d)
  {
    assert OwnerOf(d) == Owner(spec.id, key);
  }

  lemma NewRecordKeeps(h: Host, spec: Spec, key: string)
    requires Inv(h) && AtCreate(h, spec) && spec.id !in h.rows && key != "" && key !in h.keys
    ensures Good(ActCreate(h, CreateRecord(spec), FreshKey(key)))
  {
    hide Inv, PcInv;
    var h1 := h.(keys := h.keys + {key});
    var stamp := WholeSeconds(h.now);
    var d := NewRow(spec, key).(createdAt := stamp, updatedAt := stamp);
    var r := ActCreate(h, CreateRecord(spec), FreshKey(key));
    assert r == (h1.(rows := h.rows[spec.id := d]), ToValidating(Run(spec, key)));
    hide Inv, PcInv, NeverLaunched;
    FreshKeyOwnsNothing(h, spec.id, key);
    NewRowOk(h1, d, spec, key);
    NobodyLive(h1, d.id);
    UpdateRow(h1, d);
    PreparePart(r.0, r.1);
  }

  lemma CreateRecordKeeps(h: Host, spec: Spec, c: Choice)
    requires Inv(h) && AtCreate(h, spec) && spec.id !in h.rows
    ensures Good(ActCreate(h, CreateRecord(spec), c))
  {
    hide Inv, PcInv, AtCreate;
    if c.FreshKey? && c.key != "" && c.key !in h.keys {
      NewRecordKeeps(h, spec, c.key);
    } else {
      PreparePart(h, CreateRecord(spec));
    }
  }

  // ----- preparing the launch -----

  /** A deploy command moves its own record. */
  lemma MoveMine(h: Host, r: Run, from: Phase, to: Phase, reason: string, next: Pc)
    requires Inv(h) && Mine(h, r, from) && Legal(from, to) && to != Destroyed
    requires to in {Healthy, Registering, UnregisteredHealthy} ==>
               h.rows[r.spec.id].pid != 0 && WasHealthy(h, r.key, RuntimeOf(h.rows[r.spec.id]))
    requires to in {Registering, UnregisteredHealthy} ==> WasReady(h, r.key, r.spec.id)
    requires to in {Requested, Validating, Downloading} ==> from in {Requested, Validating}
    requires to != Ready
    requires from == Starting && h.rows[r.spec.id].pid == 0 ==> NoneLive(h, Owner(r.spec.id, r.key))
    ensures var (h', pc') := Move(h, r.spec.id, from, to, reason, next);
            && Inv(h') && pc' == next
            && h' == h.(rows := h'.rows)
            && Mine(h', r, to)
            && h'.rows[r.spec.id] == Moved(h.rows[r.spec.id], to, reason, h.now)
  {
    hide Inv, WasHealthy, WasReady, ValidSpec, NoneLive, Legal;
    RowsNamed(h);
    assert OwnerOf(h.rows[r.spec.id]) == Owner(r.spec.id, r.key);
    MoveKeeps(h, r.spec.id, from, to, reason, next);
  }

  lemma ToValidatingKeeps(h: Host, r: Run, c: Choice)
    requires Inv(h) && Mine(h, r, Requested)
    ensures Good(ActPrepare(h, ToValidating(r), c))
  {
    hide Inv, PcInv, Move;
    MoveMine(h, r, Requested, Validating, "", WriteKey(r));
    PreparePart(ActPrepare(h, ToValidating(r), c).0, WriteKey(r));
    hide Mine, ValidSpec;
  }

  lemma ToDownloadingKeeps(h: Host, r: Run, c: Choice)
    requires Inv(h) && Mine(h, r, Validating)
    ensures Good(ActPrepare(h, ToDownloading(r), c))
  {
    hide Inv, PcInv, Move;
    MoveMine(h, r, Validating, Downloading, "", WriteIntent(r));
    PreparePart(ActPrepare(h, ToDownloading(r), c).0, WriteIntent(r));
    hide Mine, ValidSpec;
  }

  /** Before STARTING nothing was launched, so a failing deploy leaves nothing alive. */
  lemma FailsBeforeStarting(h: Host, r: Run, from: Phase)
    requires Inv(h) && Mine(h, r, from) && from in {Validating, Downloading}
    ensures AtFailMark(h, r, from)
  {
    var d := h.rows[r.spec.id];
    assert RowOk(h, d) && OwnerOf(d) == Owner(r.spec.id, r.key);
  }

  /** A deployment's files are not those of any DESTROYED row: its row is not DESTROYED, and paths name their owner. */
  lemma GrowKeeps(h: Host, r: Run, phase: Phase, files: Files)
    requires Inv(h) && Mine(h, r, phase) && phase != Destroyed
    requires files.logs <= h.files.logs + {r.spec.id} && files.dirs <= h.files.dirs + {r.spec.id}
    requires files.caches.Keys <= h.files.caches.Keys + {r.spec.cache}
    requires forall p :: p in files.caches && files.caches[p].marker.Some? ==>
               || files.caches[p].marker.value in h.keys + {r.key}
               || (p in h.files.caches && files.caches[p].marker == h.files.caches[p].marker)
    ensures Inv(h.(files := files)) && Mine(h.(files := files), r, phase)
  {
    assert RowOk(h, h.rows[r.spec.id]);
    forall id | id in h.rows && h.rows[id].phase == Destroyed ensures Gone(files, h.root, h.rows[id]) {
      assert RowOk(h, h.rows[id]) && h.rows[id].id == id;
      assert id != r.spec.id;
      assert LastElement(h.rows[id].cacheDir.value) == id;
    }
    FilesKeep(h, files);
  }

  lemma WriteKeyKeeps(h: Host, r: Run, c: Choice)
    requires Inv(h) && Mine(h, r, Validating)
    ensures Good(ActPrepare(h, WriteKey(r), c))
  {
    hide Inv, PcInv, Mine, AtFailMark;
    FailsBeforeStarting(h, r, Validating);
    var next := h.(files := h.files.(dirs := h.files.dirs + {r.spec.id}));
    GrowKeeps(h, r, Validating, next.files);
    EndPart(h, FailMark(r, Validating));
    PreparePart(next, MakeCache(r));
  }

  lemma MakeCacheKeeps(h: Host, r: Run, c: Choice)
    requires Inv(h) && Mine(h, r, Validating)
    ensures Good(ActPrepare(h, MakeCache(r), c))
  {
    hide Inv, PcInv, Mine, AtFailMark;
    FailsBeforeStarting(h, r, Validating);
    var next := h.(files := h.files.(caches := h.files.caches[r.spec.cache := Cache(None, false)]));
    GrowKeeps(h, r, Validating, next.files);
    EndPart(h, FailMark(r, Validating));
    PreparePart(h, ClaimCache(r));
    PreparePart(next, ClaimCache(r));
  }

  lemma MarkerClaimed(h: Host, r: Run)
    requires Inv(h) && Mine(h, r, Validating) && r.spec.cache in h.files.caches
    ensures var h' := h.(files := SetMarker(h.files, r.spec.cache, Some(r.key))); Inv(h') && Mine(h', r, Validating)
  {
    hide Inv, Mine;
    GrowKeeps(h, r, Validating, SetMarker(h.files, r.spec.cache, Some(r.key)));
  }

  /** A marker file that was not written to its end claims nothing. */
  lemma MarkerBroken(h: Host, r: Run, text: string)
    requires Inv(h) && Mine(h, r, Validating) && r.spec.cache in h.files.caches
    ensures var h' := h.(keys := h.keys + {text}, files := SetMarker(h.files, r.spec.cache, Some(text)));
            Inv(h') && AtFailMark(h', r, Validating)
  {
    hide Inv, Mine, AtFailMark;
    var h1 := h.(keys := h.keys + {text});
    MoreKeys(h, text);
    MineKeeps(h, r, Validating, h1);
    GrowKeeps(h1, r, Validating, SetMarker(h.files, r.spec.cache, Some(text)));
    FailsBeforeStarting(h1.(files := SetMarker(h.files, r.spec.cache, Some(text))), r, Validating);
  }

  lemma MineKeeps(h: Host, r: Run, phase: Phase, h': Host)
    requires Mine(h, r, phase) && h'.rows == h.rows
    ensures Mine(h', r, phase)
  {
  }

  lemma ClaimCacheKeeps(h: Host, r: Run, c: Choice)
    requires Inv(h) && Mine(h, r, Validating)
    ensures Good(ActPrepare(h, ClaimCache(r), c))
  {
    hide Inv, PcInv, Mine, AtFailMark;
    FailsBeforeStarting(h, r, Validating);
    if r.spec.cache in h.files.caches {
      MarkerClaimed(h, r);
      if c.PartialMarker? {
        MarkerBroken(h, r, c.text);
      }
    }
    hide SetMarker;
    var (h', pc') := ActPrepare(h, ClaimCache(r), c);
    if pc'.FailMark? {
      EndPart(h', pc');
    } else {
      PreparePart(h', pc');
    }
  }

  /** The row with its runtime intent. */
  function WithIntent(d: Deployment, r: Run, now: int): Deployment {
    d.(pid := 0, port := r.spec.port, command := r.spec.intent, startedAt := 0, startToken := "", updatedAt := now)
  }

  lemma IntentIsSound(h: Host, r: Run)
    requires Inv(h) && Mine(h, r, Downloading)
    ensures Inv(h.(rows := h.rows[r.spec.id := WithIntent(h.rows[r.spec.id], r, h.now)]))
  {
    var was := h.rows[r.spec.id];
    var now := WithIntent(was, r, h.now);
    assert RowOk(h, was);
    assert RowOk(h, now) by {
      assert CachePath(h.root, now) == CachePath(h.root, was) && OwnerOf(now) == OwnerOf(was);
    }
    NobodyLive(h, now.id);
    OnlyActive(h, r.spec.id);
    UpdateRow(h, now);
  }

  lemma WriteIntentKeeps(h: Host, r: Run, c: Choice)
    requires Inv(h) && Mine(h, r, Downloading)
    ensures Good(ActPrepare(h, WriteIntent(r), c))
  {
    hide Inv, PcInv, AtFailMark;
    FailsBeforeStarting(h, r, Downloading);
    IntentIsSound(h, r);
    EndPart(h, FailMark(r, Downloading));
    PreparePart(ActPrepare(h, WriteIntent(r), c).0, ToStarting(r));
  }

  /** A DOWNLOADING deployment was never launched. */
  lemma NotYetLaunched(h: Host, r: Run)
    requires Inv(h) && Mine(h, r, Downloading)
    ensures h.rows[r.spec.id].pid == 0 && NeverLaunched(h, Owner(r.spec.id, r.key))
  {
    assert RowOk(h, h.rows[r.spec.id]) && OwnerOf(h.rows[r.spec.id]) == Owner(r.spec.id, r.key);
  }

  lemma LaunchesStay(h: Host, h': Host, o: Owner)
    requires NeverLaunched(h, o) && h'.launches == h.launches
    ensures NeverLaunched(h', o)
  {
  }

  lemma ToStartingKeeps(h: Host, r: Run, c: Choice)
    requires Inv(h) && AtToStarting(h, r)
    ensures Good(ActPrepare(h, ToStarting(r), c))
  {
    hide Inv, PcInv, Move, NeverLaunched;
    NotYetLaunched(h, r);
    MoveMine(h, r, Downloading, Starting, "", Exec(r));
    var h' := ActPrepare(h, ToStarting(r), c).0;
    assert WholeSeconds(h.now) <= h.now;
    ServePart(h', Exec(r));
    LaunchesStay(h, h', Owner(r.spec.id, r.key));
  }

  lemma PrepareKeeps(h: Host, pc: Pc, c: Choice)
    requires Inv(h) && PcInv(h, pc)
    requires pc.ToValidating? || pc.WriteKey? || pc.MakeCache? || pc.ClaimCache? || pc.ToDownloading?
             || pc.WriteIntent? || pc.ToStarting?
    ensures Good(ActPrepare(h, pc, c))
  {
    hide ActPrepare, AtCreate, Inv, Mine, PcInv;
    PreparePart(h, pc);
    match pc
    case ToValidating(r) => ToValidatingKeeps(h, r, c);
    case WriteKey(r) => WriteKeyKeeps(h, r, c);
    case MakeCache(r) => MakeCacheKeeps(h, r, c);
    case ClaimCache(r) => ClaimCacheKeeps(h, r, c);
    case ToDownloading(r) => ToDownloadingKeeps(h, r, c);
    case WriteIntent(r) => WriteIntentKeeps(h, r, c);
    case ToStarting(r) => ToStartingKeeps(h, r, c);
  }

  // ----- launching -----

  /** A new leader under a fresh PID and token joins no group and shadows no record. */
  lemma NewLeaderKeepsProcs(h: Host, pid: int, proc: Proc, owner: Owner)
    requires Inv(h) && CanSpawn(h, pid, proc.token)
    requires proc.origin == Some(LaunchId(pid, proc.token)) && proc.pgid == pid
    ensures var l := LaunchId(pid, proc.token);
            ProcsOk(h.procs[pid := proc], h.launches[l := owner], h.ids + {l})
  {
    var l := LaunchId(pid, proc.token);
    var procs := h.procs[pid := proc];
    forall p | p in procs ensures ProcOk(p, procs[p], h.launches[l := owner], h.ids + {l}) {
      if p != pid {
        assert ProcOk(p, h.procs[p], h.launches, h.ids);
      }
    }
    assert forall p :: p in h.procs ==> ProcOk(p, h.procs[p], h.launches, h.ids);
    forall p, q | SharesGroup(procs, p, q) ensures procs[q].origin == procs[p].origin {
      assert p != pid && q != pid ==> SharesGroup(h.procs, p, q);
    }
  }

  lemma LaunchedRowsOk(h: Host, r: Run, c: Choice)
    requires Inv(h) && AtExec(h, r) && Spawns(h, r, c)
    ensures RowsOk(Launched(h, r, c))
  {
    var h' := Launched(h, r, c);
    var l := LaunchId(c.pid, c.token);
    assert l !in h.launches;
    forall id | id in h.rows ensures RowOk(h', h.rows[id]) {
      assert RowOk(h, h.rows[id]) && h.rows[id].id == id;
      assert Active(h.rows[id]) ==> BothActive(h.rows, id, r.spec.id);
    }
  }

  /** While a deployment is being launched, nothing else that IOLD started is alive. */
  lemma NothingElseLive(h: Host, r: Run)
    requires Inv(h) && AtExec(h, r)
    ensures forall m :: m in h.launches ==> !Live(h.procs, m)
  {
    forall m | m in h.launches ensures !Live(h.procs, m) {
      var o := h.launches[m];
      assert o == Owner(o.id, o.key);
      assert Live(h.procs, m) ==> AccountedFor(h.rows, h.procs, o, m);
      assert Live(h.procs, m) ==> BothActive(h.rows, o.id, r.spec.id);
    }
  }

  lemma LaunchedAccounted(h: Host, r: Run, c: Choice)
    requires Inv(h) && AtExec(h, r) && Spawns(h, r, c)
    ensures var h' := Launched(h, r, c); Accounted(h'.rows, h'.procs, h'.launches)
  {
    hide Inv;
    var h' := Launched(h, r, c);
    var l := LaunchId(c.pid, c.token);
    var d := h.rows[r.spec.id];
    assert c.pid in Candidates(h'.procs, d.command, d.updatedAt);
    assert Claims(h'.procs, d, l);
    NothingElseLive(h, r);
    forall m | m in h'.launches && m != l ensures !Live(h'.procs, m) {
      assert !Live(h.procs, m);
      assert forall p :: p in h'.procs && p != c.pid ==> p in h.procs && h.procs[p].origin == h'.procs[p].origin;
    }
    assert AccountedFor(h'.rows, h'.procs, h'.launches[l], l);
  }

  lemma LaunchedIsSound(h: Host, r: Run, c: Choice)
    requires Inv(h) && AtExec(h, r) && Spawns(h, r, c)
    ensures Inv(Launched(h, r, c))
  {
    var h' := Launched(h, r, c);
    var l := LaunchId(c.pid, c.token);
    LaunchedRowsOk(h, r, c);
    LaunchedAccounted(h, r, c);
    NewLeaderKeepsProcs(h, c.pid, h'.procs[c.pid], Owner(r.spec.id, r.key));
    assert RowOk(h, h.rows[r.spec.id]);
    forall m, n | SameOwner(h'.launches, m, n) ensures m == n {
      if m != l && n != l {
        assert SameOwner(h.launches, m, n);
      }
    }
    forall i | 0 <= i < |h.signals| ensures SignalOk(h.signals[i], h'.launches) {
      assert SignalOk(h.signals[i], h.launches);
    }
  }

  lemma LaunchedAtCapture(h: Host, r: Run, c: Choice)
    requires AtExec(h, r) && Spawns(h, r, c)
    ensures AtCapture(Launched(h, r, c), r, Ident(c.pid, c.command, c.startedAt, c.token))
  {
  }

  lemma ExecFailsKeeps(h: Host, r: Run)
    requires Inv(h) && AtExec(h, r)
    ensures Inv(LogCreated(h, r)) && AtFailMark(LogCreated(h, r), r, Starting)
  {
    GrowKeeps(h, r, Starting, h.files.(logs := h.files.logs + {r.spec.id}));
  }

  lemma ExecKeeps(h: Host, r: Run, c: Choice)
    requires Inv(h) && AtExec(h, r)
    ensures Good(ActLaunch(h, Exec(r), c))
  {
    hide Inv, PcInv, Spawns, Launched, AtExec, AtCapture, AtFailMark;
    ServePart(h, Exec(r));
    if c == IoError {
      ExecFailsKeeps(h, r);
      EndPart(LogCreated(h, r), FailMark(r, Starting));
    } else if Spawns(h, r, c) {
      SpawnedChoice(h, r, c);
      LaunchedIsSound(h, r, c);
      LaunchedAtCapture(h, r, c);
      ServePart(Launched(h, r, c), Capture(r, Ident(c.pid, c.command, c.startedAt, c.token)));
    }
  }

  lemma SpawnedChoice(h: Host, r: Run, c: Choice)
    requires Spawns(h, r, c)
    ensures c.Spawned?
  {
  }

  // ----- capturing and recording the identity -----

  /** Removing processes leaves the rest of the table sound, as long as no leader leaves an unrecorded group behind. */
  lemma RemoveProcsKeeps(h: Host, gone: set<int>)
    requires Inv(h)
    requires CanExit(h, gone)
    ensures Inv(h.(procs := h.procs - gone))
  {
    var h' := h.(procs := h.procs - gone);
    forall id | id in h.rows ensures RowOk(h', h.rows[id]) {
      assert RowOk(h, h.rows[id]);
    }
    forall p | p in h'.procs ensures ProcOk(p, h'.procs[p], h.launches, h.ids) {
      assert ProcOk(p, h.procs[p], h.launches, h.ids);
    }
    forall p, q | SharesGroup(h'.procs, p, q) ensures h'.procs[q].origin == h'.procs[p].origin {
      assert SharesGroup(h.procs, p, q);
    }
    forall l | l in h.launches && Live(h'.procs, l) ensures AccountedFor(h.rows, h'.procs, h.launches[l], l) {
      StillAccounted(h, gone, l);
    }
  }

  /** A launch that is still alive keeps its claim: an unrecorded one keeps its leader. */
  lemma StillAccounted(h: Host, gone: set<int>, l: LaunchId)
    requires Inv(h) && CanExit(h, gone) && l in h.launches && Live(h.procs - gone, l)
    ensures AccountedFor(h.rows, h.procs - gone, h.launches[l], l)
  {
    var p :| p in h.procs && p !in gone && h.procs[p].origin == Some(l);
    assert Live(h.procs, l);
    assert AccountedFor(h.rows, h.procs, h.launches[l], l);
    var d := h.rows[h.launches[l].id];
    if LaunchId(d.pid, d.startToken) != l {
      assert Adoptable(h.procs, d, l);
      assert ProcOk(l.pid, h.procs[l.pid], h.launches, h.ids);
      if Recorded(h.rows, l) {
        RecordedByItsRow(h, l);
        assert false;
      }
      assert l.pid !in gone;
    }
  }

  /** Only the row of its own deployment can record a launch. */
  lemma RecordedByItsRow(h: Host, l: LaunchId)
    requires Inv(h) && l in h.launches && Recorded(h.rows, l)
    ensures h.launches[l].id in h.rows
    ensures LaunchId(h.rows[h.launches[l].id].pid, h.rows[h.launches[l].id].startToken) == l
  {
    var id :| id in h.rows && LaunchId(h.rows[id].pid, h.rows[id].startToken) == l;
    assert RowOk(h, h.rows[id]) && h.rows[id].id == id;
    assert l.pid > 0;
  }

  /** Killing the child whose identity could not be captured empties its group. */
  lemma KillChildKeeps(h: Host, r: Run, who: Ident)
    requires Inv(h) && AtCapture(h, r, who)
    ensures var h' := Send(h, Kill, who).(procs := h.procs - Group(h.procs, who.pid).Keys);
            Inv(h') && AtFailMark(h', r, Starting)
  {
    var gone := Group(h.procs, who.pid).Keys;
    SendKeeps(h, Kill, who);
    assert forall p :: p in h.procs ==> ProcOk(p, h.procs[p], h.launches, h.ids);
    var sent := Send(h, Kill, who);
    RemoveProcsKeeps(sent, gone);
    var h' := sent.(procs := h.procs - gone);
    forall l | l in h'.launches && h'.launches[l] == Owner(r.spec.id, r.key) ensures !Live(h'.procs, l) {
      assert SameOwner(h.launches, l, IdOf(who));
    }
  }

  lemma CaptureKeeps(h: Host, r: Run, who: Ident, c: Choice)
    requires Inv(h) && AtCapture(h, r, who)
    ensures Good(ActLaunch(h, Capture(r, who), c))
  {
    hide Inv, PcInv, Send, Group, OnlyLaunch, AtFailMark, Mine;
    KillChildKeeps(h, r, who);
    var (h', pc') := ActLaunch(h, Capture(r, who), c);
    if c == IoError {
      EndPart(h', pc');
    } else {
      ServePart(h', pc');
    }
  }

  /** The row with its runtime identity. */
  function WithRuntime(d: Deployment, r: Run, who: Ident, now: int): Deployment {
    d.(pid := who.pid, port := r.spec.port, command := who.command, startedAt := who.startedAt,
       startToken := who.token, updatedAt := now)
  }

  lemma RuntimeIsSound(h: Host, r: Run, who: Ident)
    requires Inv(h) && AtRecord(h, r, who)
    ensures Inv(h.(rows := h.rows[r.spec.id := WithRuntime(h.rows[r.spec.id], r, who, h.now)]))
  {
    var was := h.rows[r.spec.id];
    var now := WithRuntime(was, r, who, h.now);
    assert RowOk(h, was);
    assert RowOk(h, now) by {
      assert CachePath(h.root, now) == CachePath(h.root, was) && OwnerOf(now) == OwnerOf(was);
    }
    forall l | l in h.launches && h.launches[l].id == now.id && Live(h.procs, l)
      ensures h.launches[l].key == now.key && Claims(h.procs, now, l)
    {
      assert AccountedFor(h.rows, h.procs, h.launches[l], l);
      assert SameOwner(h.launches, l, IdOf(who));
    }
    OnlyActive(h, r.spec.id);
    UpdateRow(h, now);
  }

  lemma RecordKeeps(h: Host, r: Run, who: Ident, c: Choice)
    requires Inv(h) && AtRecord(h, r, who)
    ensures Good(ActLaunch(h, Record(r, who), c))
  {
    hide Inv;
    RuntimeIsSound(h, r, who);
  }

  lemma LaunchKeeps(h: Host, pc: Pc, c: Choice)
    requires Inv(h) && PcInv(h, pc)
    requires pc.Exec? || pc.Capture? || pc.Record?
    ensures Good(ActLaunch(h, pc, c))
  {
    hide Inv, Good, PcInv;
    ServePart(h, pc);
    match pc
    case Exec(r) => ExecKeeps(h, r, c);
    case Capture(r, who) => CaptureKeeps(h, r, who, c);
    case Record(r, who) => RecordKeeps(h, r, who, c);
  }

  // ----- health, readiness, and the final phases -----

  /** Remembering an answered probe for the deployment being launched takes nothing from any other row. */
  lemma ProbeKeeps(h: Host, r: Run, who: Ident, phase: Phase, healthy: map<string, HealthAnswer>,
                   ready: map<string, string>)
    requires Inv(h) && Serving(h, r, who, phase) && phase in {Starting, Healthy}
    requires healthy - {r.key} == h.healthy - {r.key} && ready - {r.key} == h.ready - {r.key}
    requires phase == Healthy ==> healthy == h.healthy
    ensures Inv(h.(healthy := healthy, ready := ready))
  {
    var h' := h.(healthy := healthy, ready := ready);
    OnlyActive(h, r.spec.id);
    forall id | id in h.rows ensures RowOk(h', h.rows[id]) {
      assert RowOk(h, h.rows[id]);
    }
  }

  lemma AwaitHealthKeeps(h: Host, r: Run, who: Ident, c: Choice)
    requires Inv(h) && Serving(h, r, who, Starting)
    ensures Good(ActServe(h, AwaitHealth(r, who), c))
  {
    hide Inv, PcInv, Mine, Reconcile, Identical;
    var (h', pc') := ActServe(h, AwaitHealth(r, who), c);
    if pc'.FailStop? {
      EndPart(h', pc');
    } else {
      ServePart(h', pc');
      if pc'.ToHealthy? {
        ReconcileIsSound(h.procs, who, c.reading);
        ProbeKeeps(h, r, who, Starting, h.healthy[r.key := HealthAnswer(who, h.procs)], h.ready);
        MineKeeps(h, r, Starting, h');
      }
    }
  }

  lemma AwaitReadyKeeps(h: Host, r: Run, who: Ident, c: Choice)
    requires Inv(h) && Serving(h, r, who, Healthy)
    ensures Good(ActServe(h, AwaitReady(r, who), c))
  {
    hide Inv, PcInv, Mine;
    var (h', pc') := ActServe(h, AwaitReady(r, who), c);
    if pc'.FailStop? {
      EndPart(h', pc');
    } else {
      ServePart(h', pc');
      if pc'.ToRegistering? {
        ProbeKeeps(h, r, who, Healthy, h.healthy, h.ready[r.key := r.spec.id]);
        MineKeeps(h, r, Healthy, h');
      }
    }
  }

  /** A healthy deployment answered the health probe. */
  lemma HealthyAnswered(h: Host, r: Run, who: Ident, phase: Phase)
    requires Inv(h) && Serving(h, r, who, phase) && phase in {Healthy, Registering}
    ensures WasHealthy(h, r.key, who) && (phase == Registering ==> WasReady(h, r.key, r.spec.id))
  {
    assert RowOk(h, h.rows[r.spec.id]);
  }

  /** Moving a serving deployment keeps its recorded runtime. */
  lemma MoveServing(h: Host, r: Run, who: Ident, from: Phase, to: Phase, reason: string, next: Pc)
    requires Inv(h) && Serving(h, r, who, from) && Legal(from, to)
    requires to in {Healthy, Registering, UnregisteredHealthy} && WasHealthy(h, r.key, who)
    requires to != Healthy ==> WasReady(h, r.key, r.spec.id)
    ensures var (h', pc') := Move(h, r.spec.id, from, to, reason, next);
            Inv(h') && pc' == next && Serving(h', r, who, to)
  {
    hide Inv;
    MoveMine(h, r, from, to, reason, next);
  }

  lemma ToHealthyKeeps(h: Host, r: Run, who: Ident, c: Choice)
    requires Inv(h) && Serving(h, r, who, Starting) && WasHealthy(h, r.key, who)
    ensures Good(ActServe(h, ToHealthy(r, who), c))
  {
    hide Inv, PcInv, Move, Serving;
    MoveServing(h, r, who, Starting, Healthy, "", AwaitReady(r, who));
    ServePart(ActServe(h, ToHealthy(r, who), c).0, AwaitReady(r, who));
  }

  lemma ToRegisteringKeeps(h: Host, r: Run, who: Ident, c: Choice)
    requires Inv(h) && Serving(h, r, who, Healthy) && WasReady(h, r.key, r.spec.id)
    ensures Good(ActServe(h, ToRegistering(r, who), c))
  {
    hide Inv, PcInv, Move, Serving;
    HealthyAnswered(h, r, who, Healthy);
    MoveServing(h, r, who, Healthy, Registering, "", ToUnregistered(r, who));
    ServePart(ActServe(h, ToRegistering(r, who), c).0, ToUnregistered(r, who));
  }

  lemma ToUnregisteredKeeps(h: Host, r: Run, who: Ident, c: Choice)
    requires Inv(h) && Serving(h, r, who, Registering)
    ensures Good(ActServe(h, ToUnregistered(r, who), c))
  {
    hide Inv, PcInv, Move, Mine, RecordedAs;
    HealthyAnswered(h, r, who, Registering);
    MoveServing(h, r, who, Registering, UnregisteredHealthy, "gateway registration not implemented yet (M4)",
        Deployed(r));
    EndPart(ActServe(h, ToUnregistered(r, who), c).0, Deployed(r));
  }

  lemma ServeKeeps(h: Host, pc: Pc, c: Choice)
    requires Inv(h) && PcInv(h, pc)
    requires pc.AwaitHealth? || pc.ToHealthy? || pc.AwaitReady? || pc.ToRegistering? || pc.ToUnregistered?
    ensures Good(ActServe(h, pc, c))
  {
    hide Inv, Good, PcInv, Serving;
    ServePart(h, pc);
    match pc
    case AwaitHealth(r, who) => AwaitHealthKeeps(h, r, who, c);
    case ToHealthy(r, who) => ToHealthyKeeps(h, r, who, c);
    case AwaitReady(r, who) => AwaitReadyKeeps(h, r, who, c);
    case ToRegistering(r, who) => ToRegisteringKeeps(h, r, who, c);
    case ToUnregistered(r, who) => ToUnregisteredKeeps(h, r, who, c);
  }

  // ----- the fail closure -----

  lemma FailStopKeeps(h: Host, r: Run, who: Ident, from: Phase, c: Choice)
    requires Inv(h) && AtFailStop(h, r, who, from)
    ensures Good(ActFail(h, FailStop(r, who, from), c))
  {
    hide Inv, PcInv, DecideStop, Identical, Mine, OnlyLaunch;
    var (h', pc') := ActFail(h, FailStop(r, who, from), c);
    EndPart(h', pc');
    if c.Identity? && DecideStop(h.procs, who, c.reading) == SignalGroup {
      LeaderOwnsGroup(h, who, c.reading);
      SendKeeps(h, Term, who);
    }
    MineKeeps(h, r, from, h');
  }

  lemma FailAwaitKeeps(h: Host, r: Run, who: Ident, killed: bool, from: Phase, c: Choice)
    requires Inv(h) && AtFailAwait(h, r, who, from)
    ensures Good(ActFail(h, FailAwait(r, who, killed, from), c))
  {
    hide Inv, PcInv, OnlyLaunch, Mine, Identical, GroupAlive;
    var (h', pc') := ActFail(h, FailAwait(r, who, killed, from), c);
    EndPart(h', pc');
    if pc'.FailAwait? && pc'.killed && !killed {
      SendKeeps(h, Kill, who);
    }
    MineKeeps(h, r, from, h');
  }

  lemma FailMarkKeeps(h: Host, r: Run, from: Phase, c: Choice)
    requires Inv(h) && AtFailMark(h, r, from)
    ensures Good(ActFail(h, FailMark(r, from), c))
  {
    hide Inv, PcInv, Move, NoneLive;
    MoveMine(h, r, from, Failed, "cause", DeployFailed(r));
    EndPart(ActFail(h, FailMark(r, from), c).0, DeployFailed(r));
    hide Mine;
  }

  lemma FailKeeps(h: Host, pc: Pc, c: Choice)
    requires Inv(h) && PcInv(h, pc)
    requires pc.FailStop? || pc.FailAwait? || pc.FailMark?
    ensures Good(ActFail(h, pc, c))
  {
    hide Inv, Good, PcInv;
    EndPart(h, pc);
    match pc
    case FailStop(r, who, from) => FailStopKeeps(h, r, who, from, c);
    case FailAwait(r, who, killed, from) => FailAwaitKeeps(h, r, who, killed, from, c);
    case FailMark(r, from) => FailMarkKeeps(h, r, from, c);
  }

  lemma CreateKeeps(h: Host, pc: Pc, c: Choice)
    requires Inv(h) && PcInv(h, pc)
    requires pc.ClearTombstone? || pc.CreateRecord?
    ensures Good(ActCreate(h, pc, c))
  {
    hide Inv, Good, PcInv;
    PreparePart(h, pc);
    match pc
    case ClearTombstone(spec) => ClearTombstoneKeeps(h, spec, c);
    case CreateRecord(spec) => CreateRecordKeeps(h, spec, c);
  }

  /** Whatever a command does next, and whatever the environment answers, the machine stays sound. */
  lemma ActKeeps(h: Host, goal: Goal, pc: Pc, c: Choice)
    requires Inv(h) && NoImposter(h) && PcInv(h, pc)
    ensures Good(Act(h, goal, pc, c))
  {
    hide Inv, NoImposter, PcInv, ActRecovery, ActRecovered, ActDestroy, ActStop, ActRemove, ActCreate, ActPrepare,
         ActLaunch, ActServe, ActFail;
    if pc.ListRows? || pc.Recover? || pc.Adopt? || pc.Settle? || pc.MarkCrashed? {
      RecoveryKeeps(h, pc, c);
    } else if pc.Recovered? {
      RecoveredKeeps(h, goal, c);
    } else if pc.DestroyNext? || pc.MarkFailed? || pc.MarkDestroying? || pc.MarkDestroyed? || pc.Purge? {
      DestroyKeeps(h, pc, c);
    } else if pc.CheckRuntime? || pc.StopRuntime? || pc.AwaitExit? {
      StopKeeps(h, pc, c);
    } else if pc.CheckOwner? || pc.RemoveLog? || pc.RemoveDir? || pc.RemoveCache? || pc.RemoveCacheRest? {
      RemoveKeeps(h, pc, c);
    } else if pc.ClearTombstone? || pc.CreateRecord? {
      CreateKeeps(h, pc, c);
    } else if pc.ToValidating? || pc.WriteKey? || pc.MakeCache? || pc.ClaimCache? || pc.ToDownloading?
              || pc.WriteIntent? || pc.ToStarting? {
      PrepareKeeps(h, pc, c);
    } else if pc.Exec? || pc.Capture? || pc.Record? {
      LaunchKeeps(h, pc, c);
    } else if pc.AwaitHealth? || pc.ToHealthy? || pc.AwaitReady? || pc.ToRegistering? || pc.ToUnregistered? {
      ServeKeeps(h, pc, c);
    } else if pc.FailStop? || pc.FailAwait? || pc.FailMark? {
      FailKeeps(h, pc, c);
    }
  }
}
