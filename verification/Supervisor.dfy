/** Runtime processes: recorded identity against the live process table, discovery by intent, and shutdown. */
module Supervisor {
  import opened Basics
  import opened Text
  import opened StatLine

  /** The recorded identity of a supervised process. */
  datatype Ident = Ident(pid: int, command: string, startedAt: int, token: string)

  /** One launch of a runtime: the leader's PID and start token. */
  datatype LaunchId = LaunchId(pid: int, token: string)

  /**
   * A live process as the kernel reports it. `origin` is history, not something a command can read: the launch the
   * process descends from, or None when IOLD did not start it.
   */
  datatype Proc = Proc(token: string, startedAt: int, command: string, pgid: int, origin: Option<LaunchId>)

  /** The process table, by PID. */
  type Procs = map<int, Proc>

  datatype Status = Running | Stale | Reused | Unknown

  /** Which of the two identity reads of a live process succeed. */
  datatype Reading = Readable | NoStat | NoCommand

  predicate Alive(procs: Procs, pid: int) {
    pid > 0 && pid in procs
  }

  predicate GroupAlive(procs: Procs, pgid: int) {
    pgid > 0 && exists p :: p in procs && procs[p].pgid == pgid
  }

  predicate SameStart(a: int, b: int) {
    -SECOND <= a - b <= SECOND
  }

  /** The live process at the recorded PID agrees with the record in token, start time and command. */
  predicate Identical(procs: Procs, p: Ident) {
    && Alive(procs, p.pid)
    && procs[p.pid].token == p.token
    && SameStart(procs[p.pid].startedAt, p.startedAt)
    && Normalize(procs[p.pid].command) == Normalize(p.command)
  }

  /** Nothing of the recorded identity is missing. */
  predicate Complete(p: Ident) {
    p.token != "" && p.startedAt != 0 && p.command != ""
  }

  /** verifyOwned: ownership, or None when it cannot be decided. */
  function VerifyOwned(procs: Procs, p: Ident, reading: Reading): Option<bool> {
    if !Alive(procs, p.pid) then Some(false)
    else if !Complete(p) then None
    else if reading == NoStat then None
    else if procs[p.pid].token != p.token || !SameStart(procs[p.pid].startedAt, p.startedAt) then Some(false)
    else if reading == NoCommand then None
    else Some(Normalize(procs[p.pid].command) == Normalize(p.command))
  }

  function Reconcile(procs: Procs, p: Ident, reading: Reading): Status {
    if !Alive(procs, p.pid) then Stale
    else
      match VerifyOwned(procs, p, reading)
      case None => Unknown
      case Some(false) => Reused
      case Some(true) => Running
  }

  /** Reconciliation is never wrong: Running means identical, Stale means gone, Reused means someone else. */
  lemma ReconcileIsSound(procs: Procs, p: Ident, reading: Reading)
    ensures Reconcile(procs, p, reading) == Running ==> Identical(procs, p)
    ensures Reconcile(procs, p, reading) == Stale <==> !Alive(procs, p.pid)
    ensures Reconcile(procs, p, reading) == Reused ==> Alive(procs, p.pid) && !Identical(procs, p)
    ensures reading == Readable && Complete(p) ==>
              (Reconcile(procs, p, reading) == Running <==> Identical(procs, p))
  {
  }

  /** The process has the recorded token, a start time at most one second from the recorded one, and the same words. */
  predicate SameProcess(q: Proc, p: Ident) {
    && q.token == p.token
    && -1_000_000_000 <= q.startedAt - p.startedAt <= 1_000_000_000
    && Fields(q.command) == Fields(p.command)
  }

  lemma IdenticalIsExact(procs: Procs, p: Ident)
    ensures Identical(procs, p) <==> p.pid > 0 && p.pid in procs && SameProcess(procs[p.pid], p)
  {
    if p.pid in procs {
      NormalizeIsCanonical(procs[p.pid].command, p.command);
    }
  }

  /**
   * The status in full. A process that is not there is STALE. One that is there is RUNNING exactly if the record is
   * complete, everything can be read, and it is the same process; REUSED exactly if the record is complete and what can
   * be read differs; and UNKNOWN otherwise.
   */
  lemma ReconcileIsExact(procs: Procs, p: Ident, reading: Reading)
    ensures Reconcile(procs, p, reading) == Stale <==> p.pid <= 0 || p.pid !in procs
    ensures p.pid > 0 && p.pid in procs ==>
              var q, status := procs[p.pid], Reconcile(procs, p, reading);
              var complete := p.token != "" && p.startedAt != 0 && p.command != "";
              var started := q.token == p.token && -1_000_000_000 <= q.startedAt - p.startedAt <= 1_000_000_000;
              && (status == Running <==> complete && reading == Readable && SameProcess(q, p))
              && (status == Reused <==>
                    && complete && reading != NoStat
                    && (!started || (reading == Readable && Fields(q.command) != Fields(p.command))))
  {
    if p.pid in procs {
      NormalizeIsCanonical(procs[p.pid].command, p.command);
    }
    hide Normalize;
  }

  /**
   * The same process read twice. An identity captured from a stat line reconciles as RUNNING with a later line exactly
   * if both print the same start ticks and the boot times they were read with are at most one second apart.
   */
  lemma ReadAgain(procs: Procs, p: Ident, pid: nat, name: string, fields: seq<string>, name': string,
                  fields': seq<string>, ticks: nat, ticks': nat, boot: int, boot': int, hz: int)
    requires KernelFields(fields) && |fields| > 19 && fields[19] == Decimal(ticks) && ticks < INT64_LIMIT
    requires KernelFields(fields') && |fields'| > 19 && fields'[19] == Decimal(ticks') && ticks' < INT64_LIMIT
    requires hz > 0 && pid > 0 && pid in procs && p.pid == pid
    requires ReadsAs(FormatStat(pid, name, fields), boot, hz, p.startedAt, p.token)
    requires ReadsAs(FormatStat(pid, name', fields'), boot', hz, procs[pid].startedAt, procs[pid].token)
    requires p.startedAt != 0 && p.command != "" && Fields(procs[pid].command) == Fields(p.command)
    ensures Reconcile(procs, p, Readable) == Running <==> ticks == ticks' && -1 <= boot - boot' <= 1
  {
    hide FormatStat, Decimal, KernelFields, Fields, Reconcile, ProcessStartInfo;
    StatRoundTrip(pid, name, fields, ticks, boot, hz);
    StatRoundTrip(pid, name', fields', ticks', boot', hz);
    TokenIdentifiesTicks(ticks, ticks');
    ReconcileIsExact(procs, p, Readable);
    assert p.token[0] == 'l';
  }

  /** Reading the stat line gives this start instant, in nanoseconds, and this token. */
  predicate ReadsAs(line: string, boot: int, hz: int, startedAt: int, token: string)
    requires hz > 0
  {
    match ProcessStartInfo(line, boot, hz)
    case Err(_) => false
    case Ok(info) => startedAt == info.seconds * 1_000_000_000 + info.nanos && token == info.token
  }

  /** Processes whose command line matches an intent and that are not older than it, with two seconds of slack. */
  function Candidates(procs: Procs, intent: string, notBefore: int): set<int> {
    set p | p in procs && p > 0 && MatchesCommandIntent(procs[p].command, intent)
            && procs[p].startedAt >= notBefore - 2 * SECOND
  }

  /** The process runs the program with these arguments, and started at most two seconds before the given time. */
  ghost predicate RunsSince(procs: Procs, name: string, args: seq<string>, notBefore: int, pid: int) {
    && pid > 0 && pid in procs
    && procs[pid].startedAt >= notBefore - 2_000_000_000
    && Runs(Fields(procs[pid].command), name, args)
  }

  /**
   * A process is a candidate exactly if it runs the intent's program, from whatever directory and possibly by a Python
   * interpreter, with the intent's arguments, and started no more than two seconds before the intent was written.
   */
  lemma CandidatesAreExact(procs: Procs, intent: string, notBefore: int, name: string, pid: int)
    requires name != "" && '/' !in name && Fields(intent) != [] && EndsIn(Fields(intent)[0], name)
    ensures pid in Candidates(procs, intent, notBefore) <==> RunsSince(procs, name, Fields(intent)[1..], notBefore, pid)
  {
    if pid in procs {
      MatchIsExact(procs[pid].command, intent, name);
    }
    hide MatchesCommandIntent, Runs, Fields, EndsIn;
  }

  /** The identity recorded for a process found alive. */
  function IdentOf(procs: Procs, pid: int): Ident
    requires pid in procs
  {
    Ident(pid, Normalize(procs[pid].command), procs[pid].startedAt, procs[pid].token)
  }

  /** A process adopted from the table reconciles as Running for as long as the table keeps that entry. */
  lemma AdoptedIsRunning(procs: Procs, pid: int, intent: string, notBefore: int)
    requires pid in Candidates(procs, intent, notBefore)
    requires procs[pid].token != "" && procs[pid].startedAt != 0
    ensures Reconcile(procs, IdentOf(procs, pid), Readable) == Running
  {
    var command := procs[pid].command;
    assert Normalize(Normalize(command)) == Normalize(command) by { NormalizeIsCanonical(command, command); }
    assert Fields(command) != [];
    assert Normalize(command) != "" by { NormalizeIsBlank(command); }
  }

  // ----- capturing the identity of a started process -----

  /** What processStartInfo reports; absent when it fails. */
  datatype StartRead = StartRead(startedAt: int, token: string)

  /** One look at the new process: its command line and start identity where readable, and whether it has exited. */
  datatype Glimpse = Glimpse(command: Option<string>, start: Option<StartRead>, exited: bool)

  const CAPTURE_ROUNDS := 20

  predicate SeesCommand(g: Glimpse) {
    g.command.Some? && g.start.Some? && Normalize(g.command.value) != ""
  }

  /** The look settles the identity: the command line is there, or the process is dead and will never have one. */
  predicate SettlesIdentity(g: Glimpse) {
    SeesCommand(g) || (g.start.Some? && g.exited)
  }

  function IdentFrom(pid: int, intent: string, g: Glimpse): Ident
    requires SettlesIdentity(g)
  {
    Ident(pid, if SeesCommand(g) then Normalize(g.command.value) else intent, g.start.value.startedAt,
        g.start.value.token)
  }

  /** Look `last` is the first that settles the identity. */
  predicate FirstSettled(looks: nat -> Glimpse, last: nat) {
    SettlesIdentity(looks(last)) && forall i :: 0 <= i < last ==> !SettlesIdentity(looks(i))
  }

  /** The capture loop of Start: the identity comes from one look, the first that settles it, or the start fails. */
  method CaptureIdentity(pid: int, intent: string, looks: nat -> Glimpse) returns (r: Option<Ident>)
    ensures r.Some? ==> r.value.token != "" && r.value.startedAt != 0
    ensures forall last: nat :: last < 20 && FirstSettled(looks, last) ==>
              var who := IdentFrom(pid, intent, looks(last));
              r == if who.token == "" || who.startedAt == 0 then None else Some(who)
    ensures r.Some? ==> exists last: nat :: last < 20 && FirstSettled(looks, last)
  {
    var who := Ident(pid, intent, 0, "");
    var i: nat := 0;
    while i < CAPTURE_ROUNDS
      invariant i <= CAPTURE_ROUNDS
      invariant forall j :: 0 <= j < i ==> !SettlesIdentity(looks(j))
      invariant who == Ident(pid, intent, 0, "")
    {
      var g := looks(i);
      if g.command.Some? && g.start.Some? && Normalize(g.command.value) != "" {
        who := Ident(pid, Normalize(g.command.value), g.start.value.startedAt, g.start.value.token);
        assert FirstSettled(looks, i);
        break;
      }
      if g.start.Some? && g.exited {
        who := Ident(pid, intent, g.start.value.startedAt, g.start.value.token);
        assert FirstSettled(looks, i);
        break;
      }
      i := i + 1;
    }
    if who.token == "" || who.startedAt == 0 {
      return None;
    }
    return Some(who);
  }

  /**
   * An identity captured from a live process reconciles as Running for as long as the process table keeps that entry.
   */
  lemma CapturedIsRunning(procs: Procs, pid: int, intent: string, g: Glimpse)
    requires Alive(procs, pid) && SeesCommand(g)
    requires g == Glimpse(Some(procs[pid].command), Some(StartRead(procs[pid].startedAt, procs[pid].token)), g.exited)
    requires procs[pid].token != "" && procs[pid].startedAt != 0
    ensures Reconcile(procs, IdentFrom(pid, intent, g), Readable) == Running
  {
    NormalizeIsCanonical(procs[pid].command, procs[pid].command);
  }

  // ----- FindByCommand -----

  function TrimLeft(s: string): string {
    if s != "" && IsSpace(s[0]) then TrimLeft(s[1..]) else s
  }

  function TrimRight(s: string): string {
    if s != "" && IsSpace(s[|s| - 1]) then TrimRight(s[..|s| - 1]) else s
  }

  function TrimSpace(s: string): string {
    TrimRight(TrimLeft(s))
  }

  /** The match that one line of the process listing contributes, if any. */
  function MatchOf(line: string, starts: map<int, StartRead>, want: string, notBefore: int, self: int): Option<Ident> {
    var fields := Fields(line);
    if |fields| < 2 then None
    else
      var pid := ParseInt(fields[0]);
      var current := Join(fields[1..]);
      if pid.None? || pid.value == self || pid.value !in starts then None
      else if !MatchesCommandIntent(current, want) then None
      else if starts[pid.value].startedAt < notBefore - 2 * SECOND then None
      else Some(Ident(pid.value, current, starts[pid.value].startedAt, starts[pid.value].token))
  }

  function MatchesOf(lines: seq<string>, starts: map<int, StartRead>, want: string, notBefore: int, self: int)
    : (ms: seq<Ident>)
    ensures |ms| <= |lines|
  {
    if lines == [] then []
    else
      var last := |lines| - 1;
      MatchesOf(lines[..last], starts, want, notBefore, self) +
      (match MatchOf(lines[last], starts, want, notBefore, self) case None => [] case Some(m) => [m])
  }

  lemma FirstWord(s: string)
    requires s != "" && !IsSpace(s[0])
    ensures IsWord(s[..WordLength(s)])
  {
    hide IsSpace;
    assert WordLength(s) == 1 + WordLength(s[1..]);
  }

  lemma {:induction false} TrailingSpaceKeepsFields(s: string)
    requires s != "" && IsSpace(s[|s| - 1])
    ensures Fields(s[..|s| - 1]) == Fields(s)
    decreases |s|
  {
    hide IsSpace;
    var short := s[..|s| - 1];
    if |s| == 1 {
      assert s[1..] == "" && short == "";
    } else if IsSpace(s[0]) {
      assert short[1..] == s[1..][..|s| - 2];
      TrailingSpaceKeepsFields(s[1..]);
    } else {
      AfterWord(s);
      TrailingSpaceKeepsFields(s[WordLength(s)..]);
    }
  }

  /** A trailing space after the first word is one of the rest. */
  lemma AfterWord(s: string)
    requires s != "" && !IsSpace(s[0]) && IsSpace(s[|s| - 1])
    ensures var rest := s[WordLength(s)..];
            && 0 < |rest| < |s| && rest[|rest| - 1] == s[|s| - 1]
            && Fields(s) == [s[..WordLength(s)]] + Fields(rest)
            && Fields(s[..|s| - 1]) == [s[..WordLength(s)]] + Fields(rest[..|rest| - 1])
  {
    hide IsSpace, Fields;
    var n := WordLength(s);
    FirstWord(s);
    var w, rest := s[..n], s[n..];
    assert n < |s| && rest[0] == s[n];
    assert s == w + rest;
    assert s[..|s| - 1] == w + rest[..|rest| - 1];
    FieldsOfWordThen(w, rest);
    FieldsOfWordThen(w, rest[..|rest| - 1]);
  }

  lemma {:induction false} TrimLeftKeepsFields(s: string)
    ensures Fields(TrimLeft(s)) == Fields(s)
    ensures TrimLeft(s) == "" || !IsSpace(TrimLeft(s)[0])
  {
    if s != "" && IsSpace(s[0]) {
      TrimLeftKeepsFields(s[1..]);
    }
  }

  lemma {:induction false} TrimRightKeepsFields(s: string)
    ensures Fields(TrimRight(s)) == Fields(s)
    ensures TrimRight(s) <= s
    ensures s != "" && !IsSpace(s[0]) ==> TrimRight(s) != ""
  {
    if s != "" && IsSpace(s[|s| - 1]) {
      TrailingSpaceKeepsFields(s);
      TrimRightKeepsFields(s[..|s| - 1]);
      if |s| > 1 {
        assert s[..|s| - 1][0] == s[0];
      }
    }
  }

  /** Trimming around the text never changes its fields. */
  lemma TrimKeepsFields(s: string)
    ensures Fields(TrimSpace(s)) == Fields(s)
    ensures TrimSpace(s) == "" || !IsSpace(TrimSpace(s)[0])
    ensures TrimSpace(s) == "" <==> Fields(s) == []
  {
    TrimLeftKeepsFields(s);
    TrimRightKeepsFields(TrimLeft(s));
  }

  lemma {:induction false} TrimmedLeft(left: string, text: string)
    requires AllSpaces(left) && (text == "" || !IsSpace(text[0]))
    ensures TrimLeft(left + text) == text
  {
    if left == "" {
      assert left + text == text;
    } else {
      assert (left + text)[1..] == left[1..] + text;
      TrimmedLeft(left[1..], text);
    }
  }

  lemma {:induction false} TrimmedRight(text: string, right: string)
    requires AllSpaces(right) && (text == "" || !IsSpace(text[|text| - 1]))
    ensures TrimRight(text + right) == text
  {
    if right == "" {
      assert text + right == text;
    } else {
      var short := right[..|right| - 1];
      assert (text + right)[..|text + right| - 1] == text + short;
      TrimmedRight(text, short);
    }
  }

  predicate AllSpaces(s: string) {
    forall i :: 0 <= i < |s| ==> IsSpace(s[i])
  }

  /** Trimming takes away the white space around a text, and nothing else. */
  lemma TrimIsExact(left: string, text: string, right: string)
    requires AllSpaces(left) && AllSpaces(right)
    requires text != "" ==> !IsSpace(text[0]) && !IsSpace(text[|text| - 1])
    ensures TrimSpace(left + text + right) == text
  {
    if text == "" {
      var s := left + text + right;
      assert AllSpaces(s);
      TrimmedLeft(s, "");
      assert s + "" == s;
    } else {
      assert (text + right)[0] == text[0];
      assert left + text + right == left + (text + right);
      TrimmedLeft(left, text + right);
      TrimmedRight(text, right);
    }
  }

  /** Cutting the first field off a trimmed line leaves the others. */
  lemma CutFirstField(line: string)
    requires line != "" && !IsSpace(line[0])
    ensures Fields(line) != [] && Fields(line)[0] <= line
    ensures Fields(line[|Fields(line)[0]|..]) == Fields(line)[1..]
  {
  }

  /** Scans a process listing for the processes that match a persisted intent, in listing order. */
  method FindByCommand(lines: seq<string>, starts: map<int, StartRead>, command: string, notBefore: int, self: int)
    returns (matches: seq<Ident>)
    ensures matches == MatchesOf(lines, starts, command, notBefore, self)
  {
    hide TrimSpace, IsSpace, MatchesArgv, ParseInt;
    var want := Normalize(command);
    matches := [];
    var i := 0;
    while i < |lines|
      invariant 0 <= i <= |lines|
      invariant matches == MatchesOf(lines[..i], starts, command, notBefore, self)
    {
      var line := TrimSpace(lines[i]);
      TrimKeepsFields(lines[i]);
      assert lines[..i + 1][..i] == lines[..i];
      i := i + 1;
      if line == "" {
        continue;
      }
      var fields := Fields(line);
      if |fields| < 2 {
        continue;
      }
      var pid := ParseInt(fields[0]);
      if pid.None? || pid.value == self {
        continue;
      }
      CutFirstField(line);
      var current := TrimSpace(line[|fields[0]|..]);
      TrimKeepsFields(line[|fields[0]|..]);
      MatchIgnoresNormalisation(current, command);
      MatchIgnoresNormalisation(Normalize(current), command);
      if !MatchesCommandIntent(Normalize(current), want) {
        continue;
      }
      if pid.value !in starts || starts[pid.value].startedAt < notBefore - 2 * SECOND {
        continue;
      }
      matches := matches + [Ident(pid.value, Normalize(current), starts[pid.value].startedAt, starts[pid.value].token)];
    }
    assert lines[..|lines|] == lines;
  }

  /** A listing of exactly the process table: one line each, the PID in decimal after padding, then the command line. */
  ghost predicate Lists(lines: seq<string>, pids: seq<int>, procs: Procs) {
    && |lines| == |pids|
    && (forall i :: 0 <= i < |pids| ==> ListedAt(lines, pids, procs, i))
    && (forall i, j :: 0 <= i < j < |pids| ==> pids[i] != pids[j])
    && (forall p :: p in procs ==> p in pids)
  }

  ghost predicate ListedAt(lines: seq<string>, pids: seq<int>, procs: Procs, i: int)
    requires 0 <= i < |lines| == |pids|
  {
    && pids[i] in procs
    && 0 < pids[i] < INT64_LIMIT
    && IsListing(lines[i], pids[i], procs[pids[i]].command)
  }

  ghost predicate IsListing(line: string, pid: int, command: string) {
    pid >= 0 && Fields(line) == [Decimal(pid)] + Fields(command)
  }

  function StartsOf(procs: Procs): map<int, StartRead> {
    map p | p in procs :: StartRead(procs[p].startedAt, procs[p].token)
  }

  lemma MatchOfListing(line: string, pid: int, procs: Procs, intent: string, notBefore: int, self: int)
    requires pid in procs && 0 < pid < INT64_LIMIT && pid != self
    requires IsListing(line, pid, procs[pid].command)
    ensures MatchOf(line, StartsOf(procs), intent, notBefore, self)
         == if pid in Candidates(procs, intent, notBefore) then Some(IdentOf(procs, pid)) else None
  {
    ParseIntOfDecimal(pid);
    var fields := Fields(line);
    assert fields[1..] == Fields(procs[pid].command);
    MatchIgnoresNormalisation(procs[pid].command, intent);
    assert |fields| < 2 ==> !MatchesCommandIntent(procs[pid].command, intent);
  }

  /** The identities of the listed processes that are among `found`, in listing order. */
  ghost function FoundAmong(pids: seq<int>, procs: Procs, found: set<int>): seq<Ident>
    requires forall i :: 0 <= i < |pids| ==> pids[i] in procs
  {
    if pids == [] then []
    else
      var last := |pids| - 1;
      FoundAmong(pids[..last], procs, found) + (if pids[last] in found then [IdentOf(procs, pids[last])] else [])
  }

  lemma {:induction false} ScanFindsListed(lines: seq<string>, pids: seq<int>, procs: Procs, intent: string,
                                           notBefore: int, self: int)
    requires |lines| == |pids|
    requires forall i :: 0 <= i < |pids| ==> pids[i] in procs && pids[i] != self
    requires forall i :: 0 <= i < |pids| ==> ListedAt(lines, pids, procs, i)
    ensures MatchesOf(lines, StartsOf(procs), intent, notBefore, self)
         == FoundAmong(pids, procs, Candidates(procs, intent, notBefore))
  {
    hide MatchOf, Candidates, IsListing, Decimal;
    if lines != [] {
      var last := |lines| - 1;
      assert forall i :: 0 <= i < last ==>
                           ListedAt(lines, pids, procs, i) ==> ListedAt(lines[..last], pids[..last], procs, i);
      ScanFindsListed(lines[..last], pids[..last], procs, intent, notBefore, self);
      assert ListedAt(lines, pids, procs, last);
      MatchOfListing(lines[last], pids[last], procs, intent, notBefore, self);
    }
  }

  lemma {:induction false} FoundAreListed(pids: seq<int>, procs: Procs, found: set<int>, m: Ident)
    requires forall i :: 0 <= i < |pids| ==> pids[i] in procs
    requires m in FoundAmong(pids, procs, found)
    ensures m.pid in pids && m.pid in found && m == IdentOf(procs, m.pid)
  {
    var last := |pids| - 1;
    if m in FoundAmong(pids[..last], procs, found) {
      FoundAreListed(pids[..last], procs, found, m);
    } else {
      assert pids[last] in found && m == IdentOf(procs, pids[last]);
    }
  }

  lemma {:induction false} ListedAreFound(pids: seq<int>, procs: Procs, found: set<int>, p: int)
    requires forall i :: 0 <= i < |pids| ==> pids[i] in procs
    requires p in pids && p in found
    ensures IdentOf(procs, p) in FoundAmong(pids, procs, found)
  {
    var last := |pids| - 1;
    if pids[last] != p {
      ListedAreFound(pids[..last], procs, found, p);
    }
  }

  ghost function Among(pids: seq<int>, found: set<int>): set<int> {
    set q | q in pids && q in found
  }

  lemma {:induction false} FoundAreCounted(pids: seq<int>, procs: Procs, found: set<int>)
    requires forall i :: 0 <= i < |pids| ==> pids[i] in procs
    requires forall i, j :: 0 <= i < j < |pids| ==> pids[i] != pids[j]
    ensures |FoundAmong(pids, procs, found)| == |Among(pids, found)|
  {
    if pids != [] {
      var last := |pids| - 1;
      FoundAreCounted(pids[..last], procs, found);
      AmongGrows(pids, found);
      hide Among;
    }
  }

  lemma AmongGrows(pids: seq<int>, found: set<int>)
    requires pids != [] && forall i, j :: 0 <= i < j < |pids| ==> pids[i] != pids[j]
    ensures var last := |pids| - 1;
            |Among(pids, found)| == |Among(pids[..last], found)| + (if pids[last] in found then 1 else 0)
  {
    var last := |pids| - 1;
    var before := Among(pids[..last], found);
    assert pids[last] !in before;
    assert pids == pids[..last] + [pids[last]];
    assert Among(pids, found) == if pids[last] in found then before + {pids[last]} else before;
  }

  /**
   * The scan is exact: over a listing of the whole table it finds one match per candidate process, with that process'
   * identity, so "exactly one match" holds just when there is exactly one candidate.
   */
  lemma FindByCommandIsExact(lines: seq<string>, pids: seq<int>, procs: Procs, intent: string, notBefore: int,
      self: int)
    requires Lists(lines, pids, procs) && self !in procs
    ensures var matches := MatchesOf(lines, StartsOf(procs), intent, notBefore, self);
            var found := Candidates(procs, intent, notBefore);
            && |matches| == |found|
            && (forall m :: m in matches ==> m.pid in found && m == IdentOf(procs, m.pid))
            && (forall p :: p in found ==> IdentOf(procs, p) in matches)
  {
    forall i | 0 <= i < |pids| ensures pids[i] in procs && pids[i] > 0 && pids[i] != self {
      assert ListedAt(lines, pids, procs, i);
    }
    var found := Candidates(procs, intent, notBefore);
    ScanFindsListed(lines, pids, procs, intent, notBefore, self);
    FoundAreCounted(pids, procs, found);
    assert Among(pids, found) == found;
    forall m | m in FoundAmong(pids, procs, found) ensures m.pid in found && m == IdentOf(procs, m.pid) {
      FoundAreListed(pids, procs, found, m);
    }
    forall p | p in found ensures IdentOf(procs, p) in FoundAmong(pids, procs, found) {
      ListedAreFound(pids, procs, found, p);
    }
    hide MatchesOf, FoundAmong;
  }

  // ----- Stop -----

  datatype Signal = Term | Kill

  /** What Stop decides before it signals anything. */
  datatype StopDecision = AlreadyGone | Refuse | SignalGroup

  function DecideStop(procs: Procs, p: Ident, reading: Reading): StopDecision {
    if !Alive(procs, p.pid) then (if GroupAlive(procs, p.pid) then Refuse else AlreadyGone)
    else
      match VerifyOwned(procs, p, reading)
      case None => Refuse
      case Some(false) => Refuse
      case Some(true) => if procs[p.pid].pgid == p.pid then SignalGroup else Refuse
  }

  /**
   * On a readable process table Stop signals exactly a recorded leader of its own group that is the same process, finds
   * nothing to do exactly if neither the PID nor a group of it is there, and refuses otherwise.
   */
  lemma StopDecisionIsExact(procs: Procs, p: Ident)
    ensures DecideStop(procs, p, Readable) == SignalGroup <==>
              && p.token != "" && p.startedAt != 0 && p.command != ""
              && p.pid > 0 && p.pid in procs && SameProcess(procs[p.pid], p) && procs[p.pid].pgid == p.pid
    ensures DecideStop(procs, p, Readable) == AlreadyGone <==>
              p.pid <= 0 || (p.pid !in procs && forall q :: q in procs ==> procs[q].pgid != p.pid)
  {
    ReconcileIsExact(procs, p, Readable);
    hide Fields, Normalize;
  }

  /** Wrong-target protection: Stop signals only a group whose live leader is identical to the record. */
  lemma SignalsOnlyTheRecordedGroup(procs: Procs, p: Ident, reading: Reading)
    ensures DecideStop(procs, p, reading) == SignalGroup ==> Identical(procs, p) && procs[p.pid].pgid == p.pid
    ensures DecideStop(procs, p, reading) == AlreadyGone <==> !Alive(procs, p.pid) && !GroupAlive(procs, p.pid)
    ensures (Identical(procs, p) && procs[p.pid].pgid == p.pid && reading == Readable && Complete(p)) ==>
              DecideStop(procs, p, reading) == SignalGroup
  {
  }

  /**
   * Stop refuses, on a readable process table, exactly when the recorded leader is gone while its group lives on, or
   * when the process at its PID is not, in all that is recorded, the leader of its own group.
   */
  lemma RefusalIsExact(procs: Procs, p: Ident)
    ensures DecideStop(procs, p, Readable) == Refuse
            <==> if Alive(procs, p.pid) then !(Complete(p) && Identical(procs, p) && procs[p.pid].pgid == p.pid)
                 else GroupAlive(procs, p.pid)
  {
    hide Normalize;
  }

  datatype StopError = NotOwned | SignalFailed | DidNotEmpty

  /**
   * Stops a runtime. `alive` answers the successive group observations, `gracePolls` is how many fit before the grace
   * deadline, and `delivers` says whether sending a signal succeeds. Success means the group was observed empty.
   */
  method Stop(procs: Procs, p: Ident, reading: Reading, delivers: Signal -> bool, alive: nat -> bool, gracePolls: nat)
    returns (err: Option<StopError>, sent: seq<Signal>, polls: nat)
    ensures DecideStop(procs, p, reading) != SignalGroup ==> sent == [] && polls == 0
    ensures DecideStop(procs, p, reading) == AlreadyGone <==> err == None && sent == []
    ensures DecideStop(procs, p, reading) == Refuse ==> err == Some(NotOwned)
    ensures sent in {[], [Term], [Term, Kill]}
    ensures sent == [Term, Kill] ==> forall i :: 0 <= i < gracePolls ==> alive(i)
    ensures err == None && sent != [] ==> polls > 0 && !alive(polls - 1)
    ensures DecideStop(procs, p, reading) == SignalGroup ==>
              (err == None <==> && delivers(Term)
                                && (|| (exists i :: 0 <= i < gracePolls && !alive(i))
                                    || (delivers(Kill) && exists i :: gracePolls <= i < gracePolls + 100 && !alive(i))))
  {
    sent, polls := [], 0;
    if !Alive(procs, p.pid) {
      if GroupAlive(procs, p.pid) {
        return Some(NotOwned), sent, polls;
      }
      return None, sent, polls;
    }
    var owned := VerifyOwned(procs, p, reading);
    if owned != Some(true) {
      return Some(NotOwned), sent, polls;
    }
    if procs[p.pid].pgid != p.pid {
      return Some(NotOwned), sent, polls;
    }
    sent := [Term];
    if !delivers(Term) {
      return Some(SignalFailed), sent, polls;
    }
    while polls < gracePolls
      invariant polls <= gracePolls
      invariant forall i :: 0 <= i < polls ==> alive(i)
    {
      polls := polls + 1;
      if !alive(polls - 1) {
        return None, sent, polls;
      }
    }
    sent := [Term, Kill];
    if !delivers(Kill) {
      return Some(SignalFailed), sent, polls;
    }
    while polls < gracePolls + 100
      invariant gracePolls <= polls <= gracePolls + 100
      invariant forall i :: 0 <= i < polls ==> alive(i)
    {
      polls := polls + 1;
      if !alive(polls - 1) {
        return None, sent, polls;
      }
    }
    return Some(DidNotEmpty), sent, polls;
  }
}
