/** Building runs: one new command acts on a given world, event by event. */
module Scripts {
  import opened Basics
  import opened Store
  import opened Recovery
  import opened Host
  import opened Protocol
  import opened ProtocolInvariant
  import opened ProtocolWorld

  /** Since the `n`-th one, some signal was sent to this group. */
  predicate Signalled(h: Host, n: nat, pgid: int) {
    exists i :: n <= i < |h.signals| && h.signals[i].target.pid == pgid
  }

  /** Nothing happens to processes but that those exit whose group was signalled since the `n`-th signal. */
  predicate MayHappen(w: World, n: nat, e: Event) {
    match e
    case Environment(env) => (
      match env
      case Tick(_) => true
      case Fill(_) => true
      case Exits(gone) => forall p :: p in gone && p in w.host.procs ==> Signalled(w.host, n, w.host.procs[p].pgid)
      case _ => false)
    case _ => true
  }

  /** The run disturbs no process except through signals that commands send in it. */
  ghost predicate Undisturbed(w: World, n: nat, events: seq<Event>)
    decreases |events|
  {
    events != [] ==> MayHappen(w, n, events[0]) && Undisturbed(Step(w, events[0]), n, events[1..])
  }

  /** What one new command does, and exits. */
  predicate OfOne(c: nat, goal: Goal, e: Event) {
    match e
    case Invoke(d, g) => d == c && g == goal
    case Acquire(d) => d == c
    case Advance(d, _) => d == c
    case Environment(env) => env.Exits?
    case _ => false
  }

  predicate AllOfOne(c: nat, goal: Goal, events: seq<Event>) {
    forall i :: 0 <= i < |events| ==> OfOne(c, goal, events[i])
  }

  /** A world to start from, and the command to run there. */
  datatype Script = Script(w: World, c: nat, goal: Goal)

  /** The command's own run from there ends here. */
  ghost predicate Ends(s: Script, events: seq<Event>, v: World) {
    AllOfOne(s.c, s.goal, events) && Undisturbed(s.w, |s.w.host.signals|, events) && RunAll(s.w, events) == v
  }

  ghost predicate Gets(s: Script, v: World) {
    exists events :: Ends(s, events, v)
  }

  /** The command has the lock and stands at `pc`, and the machine is `h`. */
  function Standing(s: Script, h: Host, pc: Pc): World {
    World(h, Some(s.c), s.w.cmds[s.c := Cmd(s.goal, pc)])
  }

  ghost predicate At(s: Script, h: Host, pc: Pc) {
    Gets(s, Standing(s, h, pc))
  }

  lemma {:induction false} RunAppend(w: World, n: nat, events: seq<Event>, e: Event)
    requires Undisturbed(w, n, events) && MayHappen(RunAll(w, events), n, e)
    ensures RunAll(w, events + [e]) == Step(RunAll(w, events), e) && Undisturbed(w, n, events + [e])
    decreases |events|
  {
    hide Step, MayHappen;
    if events == [] {
      assert ([e])[1..] == [];
      assert [] + [e] == [e];
      assert RunAll(Step(w, e), []) == Step(w, e) && Undisturbed(Step(w, e), n, []);
    } else {
      assert (events + [e])[1..] == events[1..] + [e];
      RunAppend(Step(w, events[0]), n, events[1..], e);
    }
  }

  lemma GetsNext(s: Script, v: World, e: Event)
    requires Gets(s, v) && OfOne(s.c, s.goal, e) && MayHappen(v, |s.w.host.signals|, e)
    ensures Gets(s, Step(v, e))
  {
    hide Step, RunAll, OfOne, MayHappen, Undisturbed;
    var events :| Ends(s, events, v);
    RunAppend(s.w, |s.w.host.signals|, events, e);
    assert Ends(s, events + [e], Step(v, e));
  }

  lemma GetsStart(s: Script)
    ensures Gets(s, s.w)
  {
    assert Ends(s, [], s.w);
  }

  /** The command starts and gets the lock. */
  lemma Begin(s: Script)
    requires s.c !in s.w.cmds && s.w.lock == None && NoImposter(s.w.host)
    ensures At(s, s.w.host, ListRows)
  {
    hide NoImposter, Gets;
    GetsStart(s);
    var w1 := s.w.(cmds := s.w.cmds[s.c := Cmd(s.goal, Idle)]);
    assert Step(s.w, Invoke(s.c, s.goal)) == w1;
    GetsNext(s, s.w, Invoke(s.c, s.goal));
    assert w1.cmds[s.c := Cmd(s.goal, ListRows)] == s.w.cmds[s.c := Cmd(s.goal, ListRows)];
    assert Step(w1, Acquire(s.c)) == Standing(s, s.w.host, ListRows);
    GetsNext(s, w1, Acquire(s.c));
  }

  /** One effect of the command. */
  lemma Go(s: Script, h: Host, pc: Pc, choice: Choice, h': Host, pc': Pc)
    requires At(s, h, pc) && Holding(pc) && NoImposter(h')
    requires Act(h, s.goal, pc, choice) == (h', pc')
    ensures At(s, h', pc')
  {
    hide NoImposter, Act, Gets;
    var v := Standing(s, h, pc);
    assert v.cmds[s.c := Cmd(s.goal, pc')] == Standing(s, h', pc').cmds;
    assert Step(v, Advance(s.c, choice)) == Standing(s, h', pc');
    GetsNext(s, v, Advance(s.c, choice));
  }

  /** A signalled group exits while the command waits. */
  lemma Exit(s: Script, h: Host, pc: Pc, gone: set<int>)
    requires At(s, h, pc) && CanExit(h, gone) && NoImposter(h.(procs := h.procs - gone))
    requires forall p :: p in gone && p in h.procs ==> Signalled(h, |s.w.host.signals|, h.procs[p].pgid)
    ensures At(s, h.(procs := h.procs - gone), pc)
  {
    hide NoImposter, CanExit, Gets, Signalled;
    var v := Standing(s, h, pc);
    assert Step(v, Environment(Exits(gone))) == Standing(s, h.(procs := h.procs - gone), pc);
    GetsNext(s, v, Environment(Exits(gone)));
  }

  /** Wherever a script leads from a sound world, the invariant holds. */
  lemma GetsIsSound(s: Script, v: World)
    requires WorldInv(s.w) && Gets(s, v)
    ensures WorldInv(v)
  {
    hide WorldInv, RunAll;
    var events :| Ends(s, events, v);
    RunKeeps(s.w, events);
  }

  lemma AtIsSound(s: Script, h: Host, pc: Pc)
    requires WorldInv(s.w) && At(s, h, pc)
    ensures Inv(h) && NoImposter(h) && PcInv(h, pc)
  {
    hide Gets, Inv, NoImposter, PcInv;
    GetsIsSound(s, Standing(s, h, pc));
    assert CmdInv(Standing(s, h, pc), s.c);
  }

  /** Going on from a reachable world stays among them. */
  lemma RunOnIsReachable(w: World, events: seq<Event>)
    requires Reachable(w)
    ensures Reachable(RunAll(w, events))
  {
    hide RunAll;
    var worlds, before :| IsRun(worlds, before) && w == worlds[|before|];
    hide IsRun;
    RunAllIsReachable(worlds, before, events);
  }

  lemma GetsIsReachable(s: Script, v: World)
    requires Reachable(s.w) && Gets(s, v)
    ensures Reachable(v)
  {
    hide Reachable, RunAll;
    var events :| Ends(s, events, v);
    RunOnIsReachable(s.w, events);
  }

  // ----- things that exist -----

  lemma {:induction false} Above(s: set<nat>) returns (m: nat)
    ensures forall k :: k in s ==> k < m
  {
    m := 0;
    if s != {} {
      var k :| k in s;
      var below := Above(s - {k});
      m := if k < below then below else k + 1;
      assert forall x :: x in s ==> x == k || x in s - {k};
    }
  }

  /** There is always a command that does not run yet. */
  lemma NewCommand(cmds: map<nat, Cmd>) returns (c: nat)
    ensures c !in cmds
  {
    c := Above(cmds.Keys);
  }

  /** A text that is not in use. */
  lemma NewText(used: set<string>) returns (text: string)
    ensures text !in used && text != ""
  {
    var lengths: set<nat> := set t | t in used :: |t|;
    var longest := Above(lengths);
    text := seq(longest + 1, _ => 'x');
    assert forall t :: t in used ==> |t| in lengths;
  }

  /** The rows of a table in some order. */
  lemma {:induction false} Enumerate(rows: Rows) returns (s: seq<Deployment>)
    requires forall id :: id in rows ==> rows[id].id == id
    ensures Enumerates(s, rows)
    decreases |rows|
  {
    s := [];
    if rows != map[] {
      var id :| id in rows;
      var rest := Enumerate(rows - {id});
      s := [rows[id]] + rest;
      AddToListing(rows, id, rest);
    }
  }

  lemma AddToListing(rows: Rows, id: string, rest: seq<Deployment>)
    requires id in rows && rows[id].id == id && Enumerates(rest, rows - {id})
    ensures Enumerates([rows[id]] + rest, rows)
  {
    var s := [rows[id]] + rest;
    forall i, j | 0 <= i < j < |s| ensures s[i].id != s[j].id {
      assert s[j] == rest[j - 1] && rest[j - 1] in rest;
      assert i > 0 ==> s[i] == rest[i - 1];
    }
    forall k | k in rows ensures rows[k] in s {
      assert k != id ==> k in rows - {id} && (rows - {id})[k] in rest;
    }
  }
}
