/** Start identity of a process, read from its /proc stat line. */
module StatLine {
  import opened Basics
  import opened Text

  datatype StatError = Malformed | Short | BadTicks

  /** The start identity of a process: wall-clock seconds and nanoseconds, and the exact token. */
  datatype StartInfo = StartInfo(seconds: int, nanos: int, token: string)

  const INT64_LIMIT: int := 0x8000_0000_0000_0000

  predicate IsDigit(c: char) { '0' <= c <= '9' }

  predicate AllDigits(s: string) {
    forall i :: 0 <= i < |s| ==> IsDigit(s[i])
  }

  function DigitsValue(s: string): (n: nat)
    requires AllDigits(s)
  {
    if s == "" then 0 else 10 * DigitsValue(s[..|s| - 1]) + (s[|s| - 1] as int - '0' as int)
  }

  /** Decimal form of a natural number, as the kernel prints it. */
  function Decimal(n: nat): (s: string)
    ensures s != "" && AllDigits(s)
  {
    var digit := ['0' + (n % 10) as char];
    if n < 10 then digit else Decimal(n / 10) + digit
  }

  lemma {:induction false} DecimalRoundTrip(n: nat)
    ensures DigitsValue(Decimal(n)) == n
  {
    if n >= 10 {
      DecimalRoundTrip(n / 10);
      var s := Decimal(n);
      assert s[..|s| - 1] == Decimal(n / 10);
    } else {
      var s := Decimal(n);
      assert s[..|s| - 1] == "";
    }
  }

  /** strconv.ParseInt in base 10 and 64 bits: an optional sign, then at least one digit, in range. */
  function ParseInt(s: string): (r: Option<int>)
    ensures r.Some? ==> -INT64_LIMIT <= r.value < INT64_LIMIT
  {
    var negative := s != "" && s[0] == '-';
    var digits := if s != "" && (s[0] == '-' || s[0] == '+') then s[1..] else s;
    if digits == "" || !AllDigits(digits) then None
    else
      var v: int := DigitsValue(digits);
      if negative then (if v <= INT64_LIMIT then Some(-v) else None)
      else if v < INT64_LIMIT then Some(v) else None
  }

  /** Index of the last closing parenthesis of `s`, or -1. */
  function LastCloseParen(s: string): (i: int)
    ensures -1 <= i < |s|
    ensures i >= 0 ==> s[i] == ')'
    ensures forall j :: i < j < |s| ==> s[j] != ')'
  {
    if s == "" then -1 else if s[|s| - 1] == ')' then |s| - 1 else LastCloseParen(s[..|s| - 1])
  }

  /** The raw text of field 22, counted after the process name, which may itself hold spaces and parentheses. */
  function StartTicksField(line: string): Result<string, StatError> {
    var close := LastCloseParen(line);
    if close < 0 then Err(Malformed)
    else
      var fields := Fields(line[close + 1..]);
      if |fields| <= 19 then Err(Short) else Ok(fields[19])
  }

  /** processStartInfo: ticks since boot become a wall-clock instant; the tick text is the token. */
  function ProcessStartInfo(line: string, bootSeconds: int, hz: int): Result<StartInfo, StatError>
    requires hz > 0
  {
    match StartTicksField(line)
    case Err(e) => Err(e)
    case Ok(text) =>
      match ParseInt(text)
      case None => Err(BadTicks)
      case Some(ticks) =>
        if ticks < 0 then Err(BadTicks)
        else Ok(StartInfo(bootSeconds + ticks / hz, (ticks % hz) * SECOND / hz, "linux:" + text))
  }

  /** exited: whether the stat line, absent when the process is gone, shows a dead or unreaped process. */
  predicate Exited(stat: Option<string>) {
    match stat
    case None => true
    case Some(line) =>
      var close := LastCloseParen(line);
      close >= 0 &&
      var fields := Fields(line[close + 1..]);
      |fields| > 0 && fields[0] in {"Z", "X", "x"}
  }

  /** A stat line as the kernel writes it: pid, name in parentheses, then the fields from the state on. */
  function FormatStat(pid: nat, name: string, fields: seq<string>): string {
    Decimal(pid) + " (" + name + ") " + Join(fields)
  }

  /** What the kernel prints after the name: words, none with a closing parenthesis. */
  predicate KernelFields(fields: seq<string>) {
    AllWords(fields) && forall i :: 0 <= i < |fields| ==> ')' !in fields[i]
  }

  lemma {:induction false} JoinHasNoParen(fields: seq<string>)
    requires KernelFields(fields)
    ensures ')' !in Join(fields)
  {
    if |fields| > 1 {
      JoinHasNoParen(fields[1..]);
    }
  }

  /** The last parenthesis closes the name, whatever the name holds, so the fields after it are recovered exactly. */
  lemma TailOfFormatted(pid: nat, name: string, fields: seq<string>)
    requires KernelFields(fields)
    ensures var line := FormatStat(pid, name, fields);
            LastCloseParen(line) >= 0 && Fields(line[LastCloseParen(line) + 1..]) == fields
  {
    var line := FormatStat(pid, name, fields);
    var head := Decimal(pid) + " (" + name + ")";
    var tail := " " + Join(fields);
    JoinHasNoParen(fields);
    assert line == head + tail;
    assert line[|head| - 1] == ')';
    assert forall j :: |head| <= j < |line| ==> line[j] == tail[j - |head|];
    assert LastCloseParen(line) == |head| - 1;
    assert line[|head|..] == tail;
    assert tail[1..] == Join(fields);
    FieldsOfJoin(fields);
  }

  /** Whole and fractional seconds add up to the exact instant, rounded down to a nanosecond. */
  lemma TickArithmetic(ticks: nat, hz: int)
    requires hz > 0
    ensures var nanos := (ticks % hz) * SECOND / hz;
            0 <= nanos < SECOND && (ticks / hz) * SECOND + nanos == (ticks * SECOND) / hz
  {
    var q, r := ticks / hz, ticks % hz;
    var nanos := r * SECOND / hz;
    assert ticks == q * hz + r;
    assert nanos * hz <= r * SECOND < (nanos + 1) * hz by { DivBounds(r * SECOND, hz); }
    assert 0 <= r * SECOND <= (hz - 1) * SECOND;
    NanosBound(r, hz, nanos);
    var whole := q * SECOND + nanos;
    assert ticks * SECOND == q * hz * SECOND + r * SECOND;
    assert whole * hz == q * SECOND * hz + nanos * hz;
    assert whole * hz <= ticks * SECOND < (whole + 1) * hz;
    QuotientIs(ticks * SECOND, hz, whole);
  }

  lemma NanosBound(r: int, hz: int, nanos: int)
    requires 0 <= r < hz && nanos * hz <= r * SECOND < (nanos + 1) * hz
    ensures 0 <= nanos < SECOND
  {
    assert nanos >= SECOND ==> nanos * hz >= SECOND * hz;
    assert nanos < 0 ==> (nanos + 1) * hz <= 0;
  }

  /** Reading back a printed number gives that number. */
  lemma ParseIntOfDecimal(n: nat)
    requires n < INT64_LIMIT
    ensures ParseInt(Decimal(n)) == Some(n)
  {
    SignedDecimal(n);
  }

  /** With either sign or none, a printed number is read back exactly if it fits in 64 bits. */
  lemma SignedDecimal(n: int)
    requires n >= 0
    ensures ParseInt(Decimal(n)) == ParseInt("+" + Decimal(n)) == InRange(n)
    ensures ParseInt("-" + Decimal(n)) == InRange(-n)
  {
    var s := Decimal(n);
    DecimalRoundTrip(n);
    assert IsDigit(s[0]);
    hide Decimal, DigitsValue;
    assert ("+" + s)[1..] == s && ("-" + s)[1..] == s;
  }

  /** A number of 64 bits. */
  function InRange(n: int): Option<int> {
    if -9_223_372_036_854_775_808 <= n <= 9_223_372_036_854_775_807 then Some(n) else None
  }

  /** Nothing but digits after an optional sign is read as a number. */
  lemma OnlyDecimalsParse(s: string, i: nat)
    requires i < |s| && !('0' <= s[i] <= '9') && (i > 0 || s[0] !in {'+', '-'})
    ensures ParseInt(s) == None && ParseInt("") == None
  {
    if s[0] in {'+', '-'} {
      assert s[1..][i - 1] == s[i];
    }
    assert !IsDigit(s[i]);
  }

  /** The decimal form of a number: its digits, the last one worth one, each other ten times the next. */
  lemma DecimalDigits(n: nat, digit: nat)
    requires digit < 10
    ensures Decimal(digit) == ["0123456789"[digit]]
    ensures n > 0 ==> Decimal(10 * n + digit) == Decimal(n) + ["0123456789"[digit]]
  {
    assert '0' + digit as char == "0123456789"[digit];
  }

  /**
   * Round trip: for every process name, reading a formatted stat line gives back the start ticks printed in field 22 as
   * the token, and the instant they denote, to the nanosecond.
   */
  lemma StatRoundTrip(pid: nat, name: string, fields: seq<string>, ticks: nat, bootSeconds: int, hz: int)
    requires KernelFields(fields) && |fields| > 19 && fields[19] == Decimal(ticks)
    requires ticks < INT64_LIMIT && hz > 0
    ensures var r := ProcessStartInfo(FormatStat(pid, name, fields), bootSeconds, hz);
            && r.Ok?
            && r.value.token == "linux:" + Decimal(ticks)
            && 0 <= r.value.nanos < 1_000_000_000
            && (r.value.seconds - bootSeconds) * 1_000_000_000 + r.value.nanos == (ticks * 1_000_000_000) / hz
  {
    var line := FormatStat(pid, name, fields);
    assert StartTicksField(line) == Ok(Decimal(ticks)) by { TailOfFormatted(pid, name, fields); }
    ParseIntOfDecimal(ticks);
    TickArithmetic(ticks, hz);
    StartInfoOf(line, ticks, bootSeconds, hz);
  }

  /** processStartInfo once its tick field is known. */
  lemma StartInfoOf(line: string, ticks: nat, bootSeconds: int, hz: int)
    requires hz > 0 && StartTicksField(line) == Ok(Decimal(ticks)) && ParseInt(Decimal(ticks)) == Some(ticks)
    ensures ProcessStartInfo(line, bootSeconds, hz)
         == Ok(StartInfo(bootSeconds + ticks / hz, (ticks % hz) * SECOND / hz, "linux:" + Decimal(ticks)))
  {
  }

  /** Which stat lines give no identity: those without a name, without 22 fields, or with a start time out of range. */
  lemma StatIsRefused(pid: nat, name: string, fields: seq<string>, bootSeconds: int, hz: int, line: string)
    requires KernelFields(fields) && hz > 0 && ')' !in line
    ensures ProcessStartInfo(line, bootSeconds, hz) == Err(Malformed)
    ensures var r := ProcessStartInfo(FormatStat(pid, name, fields), bootSeconds, hz);
            && (r == Err(Short) <==> |fields| < 20)
            && (r == Err(BadTicks) <==>
                  |fields| >= 20 && (ParseInt(fields[19]) == None || ParseInt(fields[19]).value < 0))
            && r != Err(Malformed)
  {
    hide ProcessStartInfo, FormatStat, Fields, KernelFields, ParseInt;
    TailOfFormatted(pid, name, fields);
    WhyRefused(line, bootSeconds, hz);
    WhyRefused(FormatStat(pid, name, fields), bootSeconds, hz);
  }

  lemma WhyRefused(line: string, bootSeconds: int, hz: int)
    requires hz > 0
    ensures var r := ProcessStartInfo(line, bootSeconds, hz);
            match StartTicksField(line)
            case Err(e) => r == Err(e)
            case Ok(text) =>
              if ParseInt(text) == None || ParseInt(text).value < 0 then r == Err(BadTicks) else r.Ok?
  {
    hide StartTicksField, ParseInt;
  }

  /** The token is faithful: two formatted lines read as the same token exactly when their start ticks are equal. */
  lemma TokenIdentifiesTicks(a: nat, b: nat)
    ensures "linux:" + Decimal(a) == "linux:" + Decimal(b) <==> a == b
  {
    DecimalRoundTrip(a);
    DecimalRoundTrip(b);
    assert ("linux:" + Decimal(a))[6..] == Decimal(a);
    assert ("linux:" + Decimal(b))[6..] == Decimal(b);
  }

  /** Identity capture stops retrying exactly for processes whose printed state is dead or unreaped. */
  lemma ExitedReadsState(pid: nat, name: string, fields: seq<string>)
    requires KernelFields(fields) && |fields| > 0
    ensures Exited(Some(FormatStat(pid, name, fields))) <==> fields[0] in {"Z", "X", "x"}
  {
    TailOfFormatted(pid, name, fields);
  }
}
