/** The deployment state machine: its phases and legal edges. */
module Phases {

  /** A phase as stored; `Unrecognised` is any text that names no phase of the machine. */
  datatype Phase =
    | Requested | Validating | Downloading | Starting | Healthy | Registering | Ready | UnregisteredHealthy
    | Failed | Crashed | Destroying | Destroyed
    | Unrecognised(text: string)

  /** The edge table, without the two phases that any active phase may enter. */
  function Edges(from: Phase): set<Phase> {
    match from
    case Requested => {Validating}
    case Validating => {Downloading}
    case Downloading => {Starting}
    case Starting => {Healthy}
    case Healthy => {Registering}
    case Registering => {Ready, UnregisteredHealthy}
    case UnregisteredHealthy => {Registering, Destroying}
    case Ready => {Destroying}
    case Failed => {Destroying}
    case Crashed => {Destroying}
    case Destroying => {Destroyed}
    case Destroyed => {}
    case Unrecognised(_) => {}
  }

  predicate CanTransition(from: Phase, to: Phase) {
    if to == Failed then from != Destroyed && from != Failed && from != Crashed
    else if to == Crashed then from != Destroyed && from != Destroying && from != Failed && from != Crashed
    else to in Edges(from)
  }

  /** checkTransition: both phases known, and the edge legal. */
  predicate Legal(from: Phase, to: Phase) {
    !from.Unrecognised? && !to.Unrecognised? && CanTransition(from, to)
  }

  /** Phases in which the deployment is over and only cleanup remains. */
  predicate Teardown(p: Phase) {
    p in {Failed, Crashed, Destroying, Destroyed}
  }

  /** Phases a deploy command passes before its runtime is known to be healthy. */
  predicate Early(p: Phase) {
    p in {Requested, Validating, Downloading, Starting}
  }

  /** A sequence of phases that a record may legally step through. */
  predicate LegalPath(path: seq<Phase>) {
    |path| > 0 && forall i :: 0 <= i < |path| - 1 ==> Legal(path[i], path[i + 1])
  }

  /** Once a deployment is being torn down it never comes back: no legal path leaves those phases. */
  lemma {:induction false} TeardownIsClosed(path: seq<Phase>)
    requires LegalPath(path) && Teardown(path[0])
    ensures forall i :: 0 <= i < |path| ==> Teardown(path[i])
  {
    if |path| > 1 {
      assert Legal(path[0], path[1]);
      assert forall i :: 0 <= i < |path| - 1 ==> path[1..][i] == path[i + 1];
      TeardownIsClosed(path[1..]);
    }
  }

  /** The legal edges, one by one. */
  lemma EdgesAreExact(from: Phase, to: Phase)
    requires !from.Unrecognised?
    ensures Legal(from, to) <==>
              || (from, to) in {(Requested, Validating), (Validating, Downloading), (Downloading, Starting),
                                (Starting, Healthy), (Healthy, Registering), (Registering, Ready),
                                (Registering, UnregisteredHealthy), (UnregisteredHealthy, Registering),
                                (UnregisteredHealthy, Destroying), (Ready, Destroying), (Failed, Destroying),
                                (Crashed, Destroying), (Destroying, Destroyed)}
              || (to == Failed && from !in {Failed, Crashed, Destroyed})
              || (to == Crashed && from !in {Failed, Crashed, Destroying, Destroyed})
    ensures !Legal(Unrecognised("x"), to)
  {
  }

  /** The phases before a deployment serves, in the order of its launch. */
  const LAUNCH := [Requested, Validating, Downloading, Starting, Healthy, Registering]

  /** No step of a launch is skipped: a legal path from REQUESTED to a phase that serves begins with all of them. */
  lemma {:induction false} ServiceTakesEveryStep(path: seq<Phase>, i: nat)
    requires LegalPath(path) && path[0] == Requested && i < 6
    requires path[|path| - 1] in {Ready, UnregisteredHealthy}
    ensures i + 1 < |path| && path[i] == LAUNCH[i]
  {
    if i > 0 {
      ServiceTakesEveryStep(path, i - 1);
      assert Legal(path[i - 1], path[i]);
      NeverTornDown(path, i);
    }
  }

  lemma NeverTornDown(path: seq<Phase>, i: nat)
    requires LegalPath(path) && i < |path| && !Teardown(path[|path| - 1])
    ensures !Teardown(path[i])
  {
    var rest := path[i..];
    assert rest[|rest| - 1] == path[|path| - 1];
    if Teardown(rest[0]) {
      TeardownIsClosed(rest);
    }
  }

  /** Nor does a status probe undo destruction: after FAILED or DESTROYING, no legal path meets CRASHED. */
  lemma {:induction false} DestructionIsNotCrashed(path: seq<Phase>)
    requires LegalPath(path) && path[0] in {Failed, Destroying, Destroyed}
    ensures forall i :: 0 <= i < |path| ==> path[i] in {Failed, Destroying, Destroyed}
  {
    if |path| > 1 {
      assert Legal(path[0], path[1]);
      assert forall i :: 0 <= i < |path| - 1 ==> path[1..][i] == path[i + 1];
      DestructionIsNotCrashed(path[1..]);
    }
  }

  /** The phases destroyOne writes for a record in phase `p`, the one it reads first. */
  function DestroyRoute(p: Phase): seq<Phase> {
    match p
    case Destroyed => [p]
    case Destroying => [p, Destroyed]
    case Ready => [p, Destroying, Destroyed]
    case Failed => [p, Destroying, Destroyed]
    case Crashed => [p, Destroying, Destroyed]
    case UnregisteredHealthy => [p, Destroying, Destroyed]
    case _ => [p, Failed, Destroying, Destroyed]
  }

  /**
   * Every known phase can be destroyed: the route is legal edge by edge, and no shorter legal path reaches DESTROYED.
   */
  lemma DestroyRouteIsLegal(p: Phase)
    requires !p.Unrecognised?
    ensures LegalPath(DestroyRoute(p)) && DestroyRoute(p)[|DestroyRoute(p)| - 1] == Destroyed
    ensures forall path :: LegalPath(path) && path[0] == p && path[|path| - 1] == Destroyed
                           ==> |path| >= |DestroyRoute(p)|
  {
    forall path | LegalPath(path) && path[0] == p && path[|path| - 1] == Destroyed
      ensures |path| >= |DestroyRoute(p)|
    {
      if |path| == 2 {
        assert Legal(path[0], path[1]);
      } else if |path| == 3 {
        assert Legal(path[0], path[1]);
        assert Legal(path[1], path[2]);
      }
    }
  }

  /** The phases that destroyOne takes through FAILED: its default branch. */
  predicate MidFlight(p: Phase) {
    Early(p) || p == Healthy || p == Registering
  }

  /**
   * destroyOne calls FAILED the only legal way out of a mid-flight phase. Those are exactly the phases before
   * teardown without a direct edge to DESTROYING; from each of them CRASHED is as legal a detour as FAILED, and from
   * REGISTERING so are READY and UNREGISTERED_HEALTHY.
   */
  lemma MidFlightDetours(from: Phase, via: Phase)
    requires !from.Unrecognised?
    ensures MidFlight(from) <==> !Teardown(from) && !Legal(from, Destroying)
    ensures MidFlight(from) <==> |DestroyRoute(from)| == 4
    ensures MidFlight(from) ==>
              (Legal(from, via) && Legal(via, Destroying) <==>
               via in {Failed, Crashed} || (from == Registering && via in {Ready, UnregisteredHealthy}))
  {
  }
}
