/** Vocabulary shared by both generations of the compose test harness:
    the result of an external command, the outcome of one test run, the
    whitespace trimming applied to `docker-machine` output, the decimal
    rendering of the test sequence number and the log markers built from it,
    and the Docker host address resolution that both designs perform. */
module Harness {

  datatype Option<T> = None | Some(value: T)

  /** What an external command reported: its exit status (success or not)
      and the output it produced. */
  datatype Cmd = CmdOk(out: string) | CmdErr(out: string)

  /** How one test run ended: `t.Skip`, normal return, or the first `t.Fatal`. */
  datatype Outcome<R> = Skipped | Passed | Failed(reason: R)

  function OutcomeOf<R>(failure: Option<R>): (r: Outcome<R>)
    ensures r.Failed? <==> failure.Some?
    ensures failure.Some? ==> r.reason == failure.value
    ensures !r.Skipped?
  {
    match failure
    case None => Passed
    case Some(why) => Failed(why)
  }

  /** Of two `t.Fatal` calls, the first decides the outcome. */
  function FirstOf<R>(a: Option<R>, b: Option<R>): Option<R> {
    if a.Some? then a else b
  }

  // ---------------------------------------------------------------------
  // Whitespace trimming (bytes.TrimSpace restricted to ASCII white space)
  // ---------------------------------------------------------------------

  predicate IsSpace(ch: char) {
    ch == ' ' || ch == '\t' || ch == '\n' || ch == '\r' || ch == '\U{000B}' || ch == '\U{000C}'
  }

  /** Drops leading white space. */
  function TrimLeft(s: string): string {
    if s != [] && IsSpace(s[0]) then TrimLeft(s[1..]) else s
  }

  /** Drops trailing white space. */
  function TrimRight(s: string): string {
    if s != [] && IsSpace(s[|s| - 1]) then TrimRight(s[..|s| - 1]) else s
  }

  function Trim(s: string): string {
    TrimRight(TrimLeft(s))
  }

  /** What TrimLeft leaves is a suffix of `s`, all it cut was white space,
      and it does not start with white space. */
  lemma {:induction false} TrimLeftCutsSpace(s: string)
    ensures var r := TrimLeft(s);
      && |r| <= |s| && r == s[|s| - |r|..]
      && (forall k :: 0 <= k < |s| - |r| ==> IsSpace(s[k]))
      && (r == [] || !IsSpace(r[0]))
  {
    if s != [] && IsSpace(s[0]) {
      var t := s[1..];
      TrimLeftCutsSpace(t);
      var r := TrimLeft(t);
      assert TrimLeft(s) == r;
      assert t[|t| - |r|..] == s[|s| - |r|..];
      forall k | 0 < k < |s| - |r| ensures IsSpace(s[k]) {
        assert s[k] == t[k - 1];
      }
    }
  }

  /** What TrimRight leaves is a prefix of `s`, all it cut was white space,
      and it does not end with white space. */
  lemma {:induction false} TrimRightCutsSpace(s: string)
    ensures var r := TrimRight(s);
      && |r| <= |s| && r == s[..|r|]
      && (forall k :: |r| <= k < |s| ==> IsSpace(s[k]))
      && (r == [] || !IsSpace(r[|r| - 1]))
  {
    if s != [] && IsSpace(s[|s| - 1]) {
      TrimRightCutsSpace(s[..|s| - 1]);
    }
  }

  /** The trimmed text is a slice of the input with only white space cut
      away on either side, and it neither starts nor ends with white space. */
  lemma TrimIsSlice(s: string)
    ensures exists i, j ::
              && 0 <= i <= j <= |s| && Trim(s) == s[i..j]
              && (forall k :: 0 <= k < i ==> IsSpace(s[k]))
              && (forall k :: j <= k < |s| ==> IsSpace(s[k]))
    ensures Trim(s) == [] || (!IsSpace(Trim(s)[0]) && !IsSpace(Trim(s)[|Trim(s)| - 1]))
  {
    var l := TrimLeft(s);
    TrimLeftCutsSpace(s);
    TrimRightCutsSpace(l);
    var i := |s| - |l|;
    var j := i + |TrimRight(l)|;
    assert Trim(s) == s[i..j];
    forall k | j <= k < |s| ensures IsSpace(s[k]) {
      assert s[k] == l[k - i];
    }
  }

  /** Trimming twice is trimming once. */
  lemma TrimIdempotent(s: string)
    ensures Trim(Trim(s)) == Trim(s)
  {
    TrimIsSlice(s);
    var t := Trim(s);
    TrimLeftCutsSpace(t);
    TrimRightCutsSpace(t);
    if t != [] {
      assert TrimLeft(t) == t;
      assert TrimRight(t) == t;
    }
  }

  // ---------------------------------------------------------------------
  // Decimal rendering of the test sequence number (fmt's %v of an int)
  // ---------------------------------------------------------------------

  predicate IsDigit(ch: char) { '0' <= ch <= '9' }

  function DigitValue(ch: char): (d: nat)
    requires IsDigit(ch)
    ensures d < 10
  {
    ch as int - '0' as int
  }

  function DigitChar(d: nat): (ch: char)
    requires d < 10
    ensures IsDigit(ch) && ch as int - '0' as int == d
  {
    (d + '0' as int) as char
  }

  /** The decimal digits of `n`, most significant first, without leading zeros. */
  function Decimal(n: nat): (s: string)
    ensures |s| >= 1
  {
    if n < 10 then [DigitChar(n)] else Decimal(n / 10) + [DigitChar(n % 10)]
  }

  predicate AllDigits(s: string) {
    forall k :: 0 <= k < |s| ==> IsDigit(s[k])
  }

  /** The rendering uses digits only and has no leading zero. */
  lemma {:induction false} DecimalDigits(n: nat)
    ensures AllDigits(Decimal(n))
    ensures Decimal(n)[0] == '0' ==> n == 0
  {
    if n >= 10 {
      DecimalDigits(n / 10);
    }
  }

  /** Reads a string of decimal digits back as a number. */
  function DecimalValue(s: string): nat
    requires AllDigits(s)
  {
    if s == [] then 0
    else DecimalValue(s[..|s| - 1]) * 10 + DigitValue(s[|s| - 1])
  }

  lemma {:induction false} DecimalRoundTrip(n: nat)
    ensures AllDigits(Decimal(n)) && DecimalValue(Decimal(n)) == n
  {
    DecimalDigits(n);
    if n >= 10 {
      DecimalRoundTrip(n / 10);
      var s := Decimal(n);
      assert s[..|s| - 1] == Decimal(n / 10);
    }
  }

  /** Distinct sequence numbers are rendered differently. */
  lemma DecimalInjective(n: nat, m: nat)
    requires Decimal(n) == Decimal(m)
    ensures n == m
  {
    DecimalRoundTrip(n);
    DecimalRoundTrip(m);
  }

  // ---------------------------------------------------------------------
  // Log markers written around every run
  // ---------------------------------------------------------------------

  const StartPrefix: string := "--- test "
  const StartSuffix: string := " start\n"
  const EndSuffix: string := " end\n"

  function StartMarker(n: nat): string { StartPrefix + Decimal(n) + StartSuffix }

  function EndMarker(n: nat): string { StartPrefix + Decimal(n) + EndSuffix }

  /** A marker names the run it belongs to: equal markers carry equal
      numbers, and a start marker is never an end marker. */
  lemma MarkersIdentifyRun(n: nat, m: nat)
    ensures StartMarker(n) == StartMarker(m) <==> n == m
    ensures EndMarker(n) == EndMarker(m) <==> n == m
    ensures StartMarker(n) != EndMarker(m)
  {
    var dn, dm := Decimal(n), Decimal(m);
    if StartMarker(n) == StartMarker(m) {
      assert |dn| == |dm|;
      assert dn == StartMarker(n)[9..9 + |dn|];
      assert dm == StartMarker(m)[9..9 + |dm|];
      DecimalInjective(n, m);
    }
    if EndMarker(n) == EndMarker(m) {
      assert |dn| == |dm|;
      assert dn == EndMarker(n)[9..9 + |dn|];
      assert dm == EndMarker(m)[9..9 + |dm|];
      DecimalInjective(n, m);
    }
    var s, e := StartMarker(n), EndMarker(m);
    if |s| == |e| {
      // the character before the trailing newline differs: 't' against 'd'
      assert s[|s| - 2] == 't' && e[|e| - 2] == 'd';
    }
  }

  // ---------------------------------------------------------------------
  // Docker host address
  // ---------------------------------------------------------------------

  /** Address used when no Docker Machine is active (Docker runs natively). */
  const Loopback: string := "127.0.0.1"

  /** The machine name passed to `docker-machine ip`: the trimmed output of
      `docker-machine active`. */
  function MachineName(active: Cmd): string {
    Trim(active.out)
  }

  /** The address the harness caches, given the outcome of
      `docker-machine active` and of `docker-machine ip <name>`;
      `None` when the address query fails (a fatal error). */
  function ResolvedIp(active: Cmd, query: Cmd): (r: Option<string>)
    ensures active.CmdErr? ==> r == Some(Loopback)
    ensures active.CmdOk? ==> (r.None? <==> query.CmdErr?)
    ensures active.CmdOk? && r.Some? ==> r.value == Trim(query.out)
  {
    match active
    case CmdErr(_) => Some(Loopback)
    case CmdOk(_) =>
      match query
      case CmdErr(_) => None
      case CmdOk(addr) => Some(Trim(addr))
  }

  /** Whatever the queries return, the cached address never carries
      surrounding white space, and the fallback is never empty. */
  lemma ResolvedIpIsTrimmed(active: Cmd, query: Cmd)
    requires ResolvedIp(active, query).Some?
    ensures var ip := ResolvedIp(active, query).value;
      Trim(ip) == ip && (active.CmdErr? ==> |ip| > 0)
  {
    match active
    case CmdErr(_) =>
      assert TrimLeft(Loopback) == Loopback;
      assert TrimRight(Loopback) == Loopback;
    case CmdOk(_) =>
      TrimIdempotent(query.out);
  }
}
