/**
 * The methods of destruction and cache claiming, and the protocol's effects, are two models of one program: they
 * agree.
 */
module Agreement {
  import opened Basics
  import opened Phases
  import opened Store
  import opened Supervisor
  import opened Recovery
  import opened Files
  import opened Host
  import opened Destruction
  import opened Protocol
  import opened Lifecycle
  import opened Markers
  import opened Resume
  import opened Blocked

  /** One destruction meets this process table, and nothing else stands in its way. */
  ghost predicate NothingFails(h: Host, rt: Runtime, io: Io) {
    && rt.procs == h.procs && rt.reading == Readable
    && rt.delivers(Term) && (exists i :: 0 <= i < rt.gracePolls && !rt.alive(i))
    && forall owned :: io.removes(owned)
  }

  lemma StopsUnlessRefused(h: Host, rt: Runtime, io: Io, who: Ident)
    requires NothingFails(h, rt, io)
    ensures StopSucceeds(rt, who) <==> DecideStop(h.procs, who, Readable) != Refuse
  {
    hide DecideStop;
  }

  /** The condition of the method is the condition of the runs. */
  lemma SameCondition(h: Host, id: string, rt: Runtime, io: Io)
    requires Inv(h) && id in h.rows && Active(h.rows[id]) && NothingFails(h, rt, io)
    ensures CanDestroy(h.files, h.root, RecoverRow(h.procs, h.rows[id]), rt, io)
            <==> Stoppable(h.procs, h.rows[id]) && Releasable(h, id)
  {
    var d := h.rows[id];
    var r := RecoverRow(h.procs, d);
    assert RowOk(h, d) && d.id == id;
    RecoveredKeepsFields(h.procs, d);
    RecoveredPid(h, id);
    StopsUnlessRefused(h, rt, io, RuntimeOf(r));
    assert CachePath(h.root, r) == CachePath(h.root, d);
    hide Inv, RowOk, RecoverRow, DecideStop, StopSucceeds, CacheOwnership, ValidId;
  }

  /**
   * Method and runs agree about destroy. In every reachable world whose lock is free, for every active deployment:
   * destroyOne, called on its record as recovery leaves it, completes where nothing else fails, if and only if some
   * undisturbed run of commands ends the deployment.
   */
  lemma DestroyAgrees(w: World, id: string, rt: Runtime, io: Io)
    requires Reachable(w) && w.lock == None && id in w.host.rows && Active(w.host.rows[id])
    requires NothingFails(w.host, rt, io)
    ensures CanDestroy(w.host.files, w.host.root, RecoverRow(w.host.procs, w.host.rows[id]), rt, io)
            <==> exists events :: EndsIt(w, events, id)
  {
    ReachableIsSound(w);
    hide Reachable, Inv, NothingFails, CanDestroy, Stoppable, Releasable, EndsIt, RecoverRow;
    SameCondition(w.host, id, rt, io);
    DestroyIsResumable(w, id);
  }

  /** The answer to the claim that a marker write, or a marker that cannot be read, amounts to. */
  function ClaimChoice(files: Files, path: Path, readable: bool, write: MarkerWrite): Choice {
    if path in files.caches && files.caches[path].marker.Some? then (if readable then Proceed else IoError)
    else
      match write
      case Written => Proceed
      case NotCreated => IoError
      case Broken(text) => PartialMarker(text)
  }

  /**
   * Method and effects agree about the claim: the same files, and the launch goes on exactly when the method
   * succeeds.
   */
  lemma ClaimAgrees(h: Host, goal: Goal, r: Run, readable: bool, write: MarkerWrite)
    ensures var choice := ClaimChoice(h.files, r.spec.cache, readable, write);
            var (h1, pc1) := Act(h, goal, MakeCache(r), Proceed);
            var (h2, pc2) := Act(h1, goal, pc1, choice);
            && pc1 == ClaimCache(r)
            && h2.files == Prepared(h.files, r.spec.cache, r.key, write)
            && pc2 == if Claimable(h.files, r.spec.cache, r.key, readable, write) then ToDownloading(r)
                      else FailMark(r, Validating)
  {
    MakesDirectory(h, goal, r);
    ClaimsDirectory(h.(files := Made(h.files, r.spec.cache)), goal, r,
        ClaimChoice(h.files, r.spec.cache, readable, write));
    hide Act;
  }

  lemma MakesDirectory(h: Host, goal: Goal, r: Run)
    ensures Act(h, goal, MakeCache(r), Proceed) == (h.(files := Made(h.files, r.spec.cache)), ClaimCache(r))
  {
  }

  /** The second effect, on a directory that exists. */
  lemma ClaimsDirectory(h: Host, goal: Goal, r: Run, c: Choice)
    requires r.spec.cache in h.files.caches && (c in {Proceed, IoError} || c.PartialMarker?)
    ensures var cache := h.files.caches[r.spec.cache];
            var (h', pc') := Act(h, goal, ClaimCache(r), c);
            && h'.files == (if cache.marker.Some? || cache.payload || c == IoError then h.files
                            else SetMarker(h.files, r.spec.cache, Some(if c.PartialMarker? then c.text else r.key)))
            && pc' == if c != IoError && (cache.marker == Some(r.key)
                                          || (cache.marker == None && !cache.payload && c == Proceed))
                      then ToDownloading(r) else FailMark(r, Validating)
  {
    hide SetMarker;
  }
}
