/**
 * destroyOne and `iold destroy`: when a destruction completes, what it leaves when it does not, and that it can be
 * resumed.
 */
module Destruction {
  import opened Basics
  import opened Phases
  import opened Store
  import opened Supervisor
  import opened Recovery
  import opened Files
  import opened Ids

  /** What one Stop call meets: the process table, the identity reading, signal delivery and the group observations. */
  datatype Runtime = Runtime(procs: Procs, reading: Reading, delivers: Signal -> bool, alive: nat -> bool,
      gracePolls: nat)

  /** The three things a deployment owns on disk. */
  datatype Owned = LogFile | OwnDir | CacheDir

  /** Whether each removal succeeds, and what is left of the cache directory when its removal does not. */
  datatype Io = Io(removes: Owned -> bool, left: Cache)

  datatype DestroyError =
    | StoreRefused(store: StoreError) | NotStopped(stop: StopError) | InvalidId | NotOwner | RemoveFailed

  class Disk {
    const root: Path
    var files: Files

    constructor (root: Path, files: Files)
      ensures this.root == root && this.files == files
    {
      this.root := root;
      this.files := files;
    }
  }

  /** Stop empties the recorded group, or finds it empty. */
  ghost predicate StopSucceeds(rt: Runtime, p: Ident) {
    match DecideStop(rt.procs, p, rt.reading)
    case AlreadyGone => true
    case Refuse => false
    case SignalGroup =>
      && rt.delivers(Term)
      && (|| (exists i :: 0 <= i < rt.gracePolls && !rt.alive(i))
          || (rt.delivers(Kill) && exists i :: rt.gracePolls <= i < rt.gracePolls + 100 && !rt.alive(i)))
  }

  /** The cache may go: its path is safe, and it is absent or carries the deployment's key. */
  predicate CacheReleasable(files: Files, root: Path, d: Deployment) {
    CacheOwnership(files, CachePath(root, d), d.id, d.key) != Refused
  }

  predicate RemovalsSucceed(files: Files, root: Path, d: Deployment, io: Io) {
    io.removes(LogFile) && io.removes(OwnDir) && (CachePath(root, d) in files.caches ==> io.removes(CacheDir))
  }

  /** The exact condition for destroying a deployment that is not DESTROYED yet. */
  ghost predicate CanDestroy(files: Files, root: Path, d: Deployment, rt: Runtime, io: Io) {
    && (d.pid > 0 ==> StopSucceeds(rt, RuntimeOf(d)))
    && ValidId(d.id)
    && CacheReleasable(files, root, d)
    && RemovalsSucceed(files, root, d, io)
  }

  /** Nothing but the files of `id` changed. */
  ghost predicate OnlyFilesOf(id: string, before: Files, after: Files) {
    && (forall i :: i != id ==> (i in after.logs <==> i in before.logs) && (i in after.dirs <==> i in before.dirs))
    && (forall p :: LastElement(p) != id ==> (p in after.caches <==> p in before.caches))
    && (forall p :: LastElement(p) != id && p in before.caches ==> after.caches[p] == before.caches[p])
  }

  /** The files with the first things of `paths` removed. */
  function RemovedAll(files: Files, paths: seq<Owned>, id: string, cache: Path): Files {
    if paths == [] then files
    else
      var rest := RemovedAll(files, paths[..|paths| - 1], id, cache);
      match paths[|paths| - 1]
      case LogFile => DropLog(rest, id)
      case OwnDir => DropDir(rest, id)
      case CacheDir => DropCache(rest, cache)
  }

  /** How writing the marker ends: completely, without a file, or with a file that holds only this text. */
  datatype MarkerWrite = Written | NotCreated | Broken(text: string)

  /** The directory may be claimed: it carries the key already, or is empty and its marker can be written. */
  predicate Claimable(files: Files, path: Path, key: string, readable: bool, write: MarkerWrite) {
    if path in files.caches && files.caches[path].marker.Some? then readable && files.caches[path].marker == Some(key)
    else (path in files.caches ==> !files.caches[path].payload) && write == Written
  }

  /** The directory, made if it was not there. */
  function Made(files: Files, path: Path): Files {
    if path in files.caches then files else files.(caches := files.caches[path := Cache(None, false)])
  }

  /** The files after prepareModelCache on a directory that can be made. */
  function Prepared(files: Files, path: Path, key: string, write: MarkerWrite): Files {
    var made := Made(files, path);
    if made.caches[path].marker.Some? || made.caches[path].payload then made
    else
      match write
      case NotCreated => made
      case Broken(text) => SetMarker(made, path, Some(text))
      case Written => SetMarker(made, path, Some(key))
  }

  /**
   * prepareModelCache: makes the directory, and claims it unless another deployment has or something is already in
   * it. What it has claimed, removeOwnedData will remove. A directory that it made but could not claim is refused
   * from then on, unless the failed write had already completed the key.
   */
  method PrepareModelCache(disk: Disk, path: Path, id: string, key: string, makes: bool, readable: bool,
      write: MarkerWrite)
    returns (ok: bool)
    modifies disk`files
    ensures ok <==> SafeCachePath(path, id, key) && makes && Claimable(old(disk.files), path, key, readable, write)
    ensures disk.files == if SafeCachePath(path, id, key) && makes then Prepared(old(disk.files), path, key, write)
                          else old(disk.files)
    ensures ok ==> CacheOwnership(disk.files, path, id, key) == Owned
    ensures !ok && disk.files != old(disk.files) ==>
              CacheOwnership(disk.files, path, id, key) == if write == Broken(key) then Owned else Refused
    ensures path in old(disk.files).caches && old(disk.files).caches[path].marker.Some?
        ==> disk.files == old(disk.files)
    ensures OnlyFilesOf(id, old(disk.files), disk.files)
    ensures disk.files == old(disk.files).(caches := disk.files.caches)
    ensures disk.files.caches - {path} == old(disk.files).caches - {path}
  {
    if !SafeCachePath(path, id, key) {
      return false;
    }
    if !makes {
      return false;
    }
    if path !in disk.files.caches {
      disk.files := disk.files.(caches := disk.files.caches[path := Cache(None, false)]);
    }
    var marker := disk.files.caches[path].marker;
    if marker.Some? {
      return readable && marker.value == key;
    }
    if disk.files.caches[path].payload {
      return false;
    }
    match write {
      case NotCreated => return false;
      case Broken(text) =>
        disk.files := SetMarker(disk.files, path, Some(text));
        return false;
      case Written =>
        disk.files := SetMarker(disk.files, path, Some(key));
        return true;
    }
  }

  lemma RemovedInOrder(files: Files, id: string, cache: Path)
    ensures RemovedAll(files, [LogFile, OwnDir], id, cache) == DropDir(DropLog(files, id), id)
    ensures RemovedAll(files, [LogFile, OwnDir, CacheDir], id, cache)
        == DropCache(DropDir(DropLog(files, id), id), cache)
  {
    assert [LogFile, OwnDir, CacheDir][..2] == [LogFile, OwnDir];
    assert [LogFile, OwnDir][..1] == [LogFile];
    assert [LogFile][..0] == [];
    assert RemovedAll(files, [LogFile], id, cache) == DropLog(files, id);
    assert RemovedAll(files, [LogFile, OwnDir], id, cache) == DropDir(DropLog(files, id), id);
  }

  /**
   * removeOwnedData: decides ownership before it removes anything, then removes the log, the directory and the cache.
   */
  method RemoveOwnedData(disk: Disk, d: Deployment, io: Io) returns (err: Option<DestroyError>)
    modifies disk`files
    ensures err == None <==> && ValidId(d.id) && CacheReleasable(old(disk.files), disk.root, d)
                             && RemovalsSucceed(old(disk.files), disk.root, d, io)
    ensures !ValidId(d.id) ==> err == Some(InvalidId)
    ensures ValidId(d.id) && !CacheReleasable(old(disk.files), disk.root, d) ==> err == Some(NotOwner)
    ensures err in {None, Some(InvalidId), Some(NotOwner), Some(RemoveFailed)}
    ensures err in {Some(InvalidId), Some(NotOwner)} ==> disk.files == old(disk.files)
    ensures IsModelId(d.id) ==> (err == None <==> CacheReleasable(old(disk.files), disk.root, d)
                                                  && RemovalsSucceed(old(disk.files), disk.root, d, io))
    ensures err == None ==> Gone(disk.files, disk.root, d)
    ensures OnlyFilesOf(d.id, old(disk.files), disk.files)
  {
    if IsModelId(d.id) {
      ModelIdIsValid(d.id);
    }
    if !ValidId(d.id) {
      return Some(InvalidId);
    }
    var paths := [LogFile, OwnDir];
    var cache := CachePath(disk.root, d);
    var owner := CacheOwnership(disk.files, cache, d.id, d.key);
    if owner == Refused {
      return Some(NotOwner);
    }
    if owner == Owned {
      paths := paths + [CacheDir];
    }
    var i := 0;
    while i < |paths|
      invariant 0 <= i <= |paths|
      invariant disk.files == RemovedAll(old(disk.files), paths[..i], d.id, cache)
      invariant forall j :: 0 <= j < i ==> io.removes(paths[j])
      invariant OnlyFilesOf(d.id, old(disk.files), disk.files)
    {
      assert paths[..i + 1][..i] == paths[..i];
      if !io.removes(paths[i]) {
        if paths[i] == CacheDir {
          disk.files := disk.files.(caches := disk.files.caches[cache := io.left]);
        }
        return Some(RemoveFailed);
      }
      match paths[i] {
        case LogFile => disk.files := DropLog(disk.files, d.id);
        case OwnDir => disk.files := DropDir(disk.files, d.id);
        case CacheDir => disk.files := DropCache(disk.files, cache);
      }
      i := i + 1;
    }
    assert paths[..i] == paths;
    RemovedInOrder(old(disk.files), d.id, cache);
    assert paths[0] == LogFile && paths[1] == OwnDir && (owner == Owned ==> paths[2] == CacheDir);
    err := None;
  }

  /** The ID that a model reference leaves never stands in the way of destroying its deployment. */
  lemma ModelCanBeDestroyed(files: Files, root: Path, d: Deployment, rt: Runtime, io: Io)
    requires IsModelId(d.id)
    ensures CanDestroy(files, root, d, rt, io) <==> && (d.pid > 0 ==> StopSucceeds(rt, RuntimeOf(d)))
                                                    && CacheReleasable(files, root, d)
                                                    && RemovalsSucceed(files, root, d, io)
  {
    ModelIdIsValid(d.id);
  }

  /** The record as a destruction leaves it: as it was, DESTROYING, DESTROYED, or purged. */
  predicate RowsAfter(before: Rows, after: Rows, id: string, phase: Option<Phase>) {
    match phase
    case None => after == before - {id}
    case Some(p) => id in after && after == before[id := after[id]] && after[id].phase == p
                    && (id in before ==> Evolved(before[id], after[id]))
  }

  /** Only phase, reason and timestamp of the record may have changed. */
  predicate Evolved(a: Deployment, b: Deployment) {
    b.(phase := a.phase, failureReason := a.failureReason, updatedAt := a.updatedAt) == a
  }

  /** The first part of destroyOne: the record says DESTROYING, through FAILED where no direct edge leads there. */
  method MarkDestroying(store: Store, d: Deployment, now: int)
    requires d.id in store.rows && store.rows[d.id] == d && !d.phase.Unrecognised? && d.phase != Destroyed
    modifies store
    ensures RowsAfter(old(store.rows), store.rows, d.id, Some(Destroying))
  {
    var failed: Option<StoreError>;
    if d.phase == Destroying {
    } else if d.phase == Ready || d.phase == Failed || d.phase == Crashed || d.phase == UnregisteredHealthy {
      failed := store.Transition(d.id, d.phase, Destroying, "", now);
      assert failed == None;
    } else {
      failed := store.Transition(d.id, d.phase, Failed, "destroy requested", now);
      assert failed == None;
      failed := store.Transition(d.id, Failed, Destroying, "", now);
      assert failed == None;
    }
  }

  /** The second part: nothing of the recorded group is left, or the destruction does not go on. */
  method ReleaseRuntime(d: Deployment, rt: Runtime) returns (err: Option<StopError>, sent: seq<Signal>)
    ensures err == None <==> (d.pid > 0 ==> StopSucceeds(rt, RuntimeOf(d)))
    ensures sent != [] ==> d.pid > 0 && Identical(rt.procs, RuntimeOf(d)) && rt.procs[d.pid].pgid == d.pid
    ensures d.pid <= 0 || Reconcile(rt.procs, RuntimeOf(d), rt.reading) in {Reused, Unknown} ==> sent == []
  {
    err, sent := None, [];
    if d.pid > 0 {
      SignalsOnlyTheRecordedGroup(rt.procs, RuntimeOf(d), rt.reading);
      var status := Reconcile(rt.procs, RuntimeOf(d), rt.reading);
      if status == Reused || status == Unknown {
        return Some(NotOwned), [];
      }
      var polls;
      err, sent, polls := Stop(rt.procs, RuntimeOf(d), rt.reading, rt.delivers, rt.alive, rt.gracePolls);
    }
  }

  /**
   * destroyOne on a listed record, whatever its phase. It completes exactly when the recorded group stops or is already
   * gone and the cache may go; otherwise the record says DESTROYING, and a refusal for ownership has removed nothing.
   */
  method DestroyOne(store: Store, disk: Disk, d: Deployment, purge: bool, rt: Runtime, io: Io, now: int)
    returns (err: Option<DestroyError>, sent: seq<Signal>)
    requires d.id in store.rows && store.rows[d.id] == d && !d.phase.Unrecognised?
    modifies store, disk`files
    ensures err == None <==> d.phase == Destroyed || CanDestroy(old(disk.files), disk.root, d, rt, io)
    ensures IsModelId(d.id) ==>
              (err == None <==> d.phase == Destroyed || (&& (d.pid > 0 ==> StopSucceeds(rt, RuntimeOf(d)))
                                                         && CacheReleasable(old(disk.files), disk.root, d)
                                                         && RemovalsSucceed(old(disk.files), disk.root, d, io)))
    ensures RowsAfter(old(store.rows), store.rows, d.id,
                      if err != None then Some(Destroying) else if purge then None else Some(Destroyed))
    ensures d.phase == Destroyed ==> sent == [] && disk.files == old(disk.files)
    ensures err.Some? && err != Some(RemoveFailed) ==> disk.files == old(disk.files)
    ensures d.phase != Destroyed && err == None ==> Gone(disk.files, disk.root, d)
    ensures OnlyFilesOf(d.id, old(disk.files), disk.files)
    ensures sent != [] ==> d.pid > 0 && Identical(rt.procs, RuntimeOf(d)) && rt.procs[d.pid].pgid == d.pid
  {
    hide Gone, Identical, StopSucceeds, CacheReleasable, RemovalsSucceed, ValidId, Reconcile, IsModelId;
    if IsModelId(d.id) {
      ModelCanBeDestroyed(disk.files, disk.root, d, rt, io);
    }
    var failed: Option<StoreError>;
    sent := [];
    if d.phase != Destroyed {
      MarkDestroying(store, d, now);
      var stopped;
      stopped, sent := ReleaseRuntime(d, rt);
      if stopped.Some? {
        return Some(NotStopped(stopped.value)), sent;
      }
      err := RemoveOwnedData(disk, d, io);
      if err != None {
        return;
      }
      failed := store.Transition(d.id, Destroying, Destroyed, "", now);
      assert failed == None;
    }
    if purge {
      failed := store.Delete(d.id);
      assert failed == None;
    }
    err := None;
  }

  /**
   * A group that is empty, so that nothing is left to stop, releases its record exactly when the recorded PID is not in
   * use: once the kernel gives that PID to another process, no destroy can complete while that process lives.
   */
  lemma ReusedPidBlocks(rt: Runtime, p: Ident)
    requires p.pid > 0 && !GroupAlive(rt.procs, p.pid)
    ensures StopSucceeds(rt, p) <==> !Alive(rt.procs, p.pid)
  {
    SignalsOnlyTheRecordedGroup(rt.procs, p, rt.reading);
    assert p.pid in rt.procs && rt.procs[p.pid].pgid == p.pid ==> GroupAlive(rt.procs, p.pid);
  }

  /**
   * A concrete case: the runtime 100 is long gone, its group is empty, and an unrelated child of 7 now bears its PID.
   */
  lemma ReusedPidExample(rt: Runtime)
    requires rt.procs == map[7 := Proc("a", 1, "sh", 7, None), 100 := Proc("b", 2, "ls", 7, None)]
    ensures !GroupAlive(rt.procs, 100) && !StopSucceeds(rt, Ident(100, "vllm", 1, "t"))
  {
    ReusedPidBlocks(rt, Ident(100, "vllm", 1, "t"));
  }

  /**
   * Why a second process that matches an intent must be excluded: recovery records a runtime for a STARTING intent
   * exactly when one process matches it. With several, the record becomes CRASHED without a runtime, and destroying
   * it needs no stopped group: the launched runtime survives, and no record accounts for it any more.
   */
  lemma AmbiguousIntentOrphans(procs: Procs, d: Deployment, files: Files, root: Path, rt: Runtime, io: Io)
    requires d.phase == Starting && d.pid == 0 && d.command != ""
    ensures RecoverRow(procs, d).pid != 0 <==> |Candidates(procs, d.command, d.updatedAt)| == 1
    ensures RecoverRow(procs, d).pid == 0 ==>
              && RecoverRow(procs, d) == CrashRow(d, NO_IDENTITY)
              && (CanDestroy(files, root, RecoverRow(procs, d), rt, io) <==>
                    ValidId(d.id) && CacheReleasable(files, root, d) && RemovalsSucceed(files, root, d, io))
  {
    RecordedWhenUnique(procs, d);
    hide RecoverRow, Candidates, ValidId, CacheOwnership;
    assert CachePath(root, CrashRow(d, NO_IDENTITY)) == CachePath(root, d);
  }

  lemma RecordedWhenUnique(procs: Procs, d: Deployment)
    requires d.phase == Starting && d.pid == 0 && d.command != ""
    ensures RecoverRow(procs, d).pid != 0 <==> |Candidates(procs, d.command, d.updatedAt)| == 1
    ensures RecoverRow(procs, d).pid == 0 ==> RecoverRow(procs, d) == CrashRow(d, NO_IDENTITY)
  {
    var found := Candidates(procs, d.command, d.updatedAt);
    if |found| == 1 {
      var p :| p in found;
      MemberOfOne(found, p);
      assert Only(found).value in found;
    }
    AdoptedHasRuntime(procs, d);
  }

  /** What of a running supervisor and of the file system one destroyed record meets. */
  datatype Meets = Meets(rt: Runtime, io: Io)

  /** The listed record, its files and what its destruction meets decide alone whether it will be destroyed. */
  ghost predicate WillDestroy(files: Files, root: Path, d: Deployment, m: Meets) {
    d.phase == Destroyed || CanDestroy(files, root, d, m.rt, m.io)
  }

  /** Files that matter to a record are the same. */
  predicate SameFilesOf(d: Deployment, root: Path, a: Files, b: Files) {
    && (d.id in a.logs <==> d.id in b.logs)
    && (d.id in a.dirs <==> d.id in b.dirs)
    && (SafeCachePath(CachePath(root, d), d.id, d.key) ==>
          var p := CachePath(root, d);
          (p in a.caches <==> p in b.caches) && (p in a.caches ==> a.caches[p] == b.caches[p]))
  }

  lemma SameFilesSameFate(files: Files, now: Files, root: Path, d: Deployment, m: Meets)
    requires SameFilesOf(d, root, files, now)
    ensures WillDestroy(now, root, d, m) == WillDestroy(files, root, d, m)
  {
  }

  /** The record that a destroy has dealt with. */
  ghost predicate Dealt(rows: Rows, files: Files, root: Path, d: Deployment, purge: bool, will: bool) {
    if !will then d.id in rows && rows[d.id].phase == Destroying && Evolved(d, rows[d.id])
    else
      && (if purge then d.id !in rows else d.id in rows && rows[d.id].phase == Destroyed && Evolved(d, rows[d.id]))
      && (d.phase != Destroyed ==> Gone(files, root, d))
  }

  ghost predicate Waiting(rows: Rows, start: Files, files: Files, root: Path, d: Deployment) {
    d.id in rows && rows[d.id] == d && !d.phase.Unrecognised? && SameFilesOf(d, root, start, files)
  }

  /** Destroying one record changes nothing for another. */
  lemma OthersUntouched(rows: Rows, rows': Rows, start: Files, files: Files, files': Files, root: Path, id: string,
                        d: Deployment)
    requires d.id != id && OnlyFilesOf(id, files, files')
    requires d.id in rows' <==> d.id in rows
    requires d.id in rows ==> rows'[d.id] == rows[d.id]
    ensures Waiting(rows, start, files, root, d) ==> Waiting(rows', start, files', root, d)
    ensures forall m: Meets, purge ::
              Dealt(rows, files, root, d, purge, WillDestroy(start, root, d, m)) ==>
              Dealt(rows', files', root, d, purge, WillDestroy(start, root, d, m))
  {
    forall m: Meets, purge | Dealt(rows, files, root, d, purge, WillDestroy(start, root, d, m))
      ensures Dealt(rows', files', root, d, purge, WillDestroy(start, root, d, m))
    {
      if WillDestroy(start, root, d, m) && d.phase != Destroyed {
        assert LastElement(CachePath(root, d)) == d.id;
      }
    }
  }

  /**
   * The loop of `iold destroy --all`: each record is destroyed exactly when it can be, whatever happens to the
   * others, and the command fails exactly when some record could not be destroyed.
   */
  method DestroyTargets(store: Store, disk: Disk, targets: seq<Deployment>, purge: bool, meets: nat -> Meets, now: int)
    returns (firstErr: Option<DestroyError>)
    requires Enumerates(targets, store.rows)
    requires forall id :: id in store.rows ==> store.rows[id].id == id && !store.rows[id].phase.Unrecognised?
    modifies store, disk`files
    ensures forall i :: 0 <= i < |targets| ==>
              Dealt(store.rows, disk.files, disk.root, targets[i], purge,
                    WillDestroy(old(disk.files), disk.root, targets[i], meets(i)))
    ensures firstErr == None <==> forall i :: 0 <= i < |targets| ==>
                                    WillDestroy(old(disk.files), disk.root, targets[i], meets(i))
  {
    firstErr := None;
    ghost var start := disk.files;
    var i := 0;
    assert forall j :: 0 <= j < |targets| ==> targets[j] in targets;
    while i < |targets|
      invariant 0 <= i <= |targets|
      invariant forall j :: i <= j < |targets| ==> Waiting(store.rows, start, disk.files, disk.root, targets[j])
      invariant forall j :: 0 <= j < i ==>
                  Dealt(store.rows, disk.files, disk.root, targets[j], purge,
                        WillDestroy(start, disk.root, targets[j], meets(j)))
      invariant firstErr == None <==> forall j :: 0 <= j < i ==> WillDestroy(start, disk.root, targets[j], meets(j))
    {
      hide CanDestroy, WillDestroy, Dealt, SameFilesOf, OnlyFilesOf, StopSucceeds, Evolved;
      var d := targets[i];
      ghost var files, rows := disk.files, store.rows;
      var err := DestroyTarget(store, disk, d, purge, meets(i), now, start);
      if err != None && firstErr == None {
        firstErr := err;
      }
      forall j | 0 <= j < |targets| && j != i
        ensures Waiting(rows, start, files, disk.root, targets[j]) ==>
                  Waiting(store.rows, start, disk.files, disk.root, targets[j])
        ensures forall m: Meets ::
                  Dealt(rows, files, disk.root, targets[j], purge, WillDestroy(start, disk.root, targets[j], m)) ==>
                  Dealt(store.rows, disk.files, disk.root, targets[j], purge,
                      WillDestroy(start, disk.root, targets[j], m))
      {
        OthersUntouched(rows, store.rows, start, files, disk.files, disk.root, d.id, targets[j]);
      }
      i := i + 1;
    }
  }

  /** One round of the loop. */
  method DestroyTarget(store: Store, disk: Disk, d: Deployment, purge: bool, m: Meets, now: int, ghost start: Files)
    returns (err: Option<DestroyError>)
    requires Waiting(store.rows, start, disk.files, disk.root, d)
    modifies store, disk`files
    ensures err == None <==> WillDestroy(start, disk.root, d, m)
    ensures Dealt(store.rows, disk.files, disk.root, d, purge, WillDestroy(start, disk.root, d, m))
    ensures OnlyFilesOf(d.id, old(disk.files), disk.files)
    ensures forall id :: id != d.id ==> (id in store.rows <==> id in old(store.rows))
    ensures forall id :: id != d.id && id in store.rows ==> store.rows[id] == old(store.rows)[id]
  {
    SameFilesSameFate(start, disk.files, disk.root, d, m);
    var sent;
    err, sent := DestroyOne(store, disk, d, purge, m.rt, m.io, now);
  }
}
