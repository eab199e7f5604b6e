/**
 * Input validation for a scan request (masscan_web/utils/validators.py):
 * the IP-range check, the port check, the rate check, and the ordered
 * guard chain that reports the first failing check.
 *
 * The IP check is the regular expression `^(\d{1,3}\.){3}\d{1,3}(/\d{1,2})?$`
 * and nothing more: octets above 255 and prefixes above 32 pass.
 */
module Validators {
  import opened Wrappers
  import opened Text

  // ---------------------------------------------------------------------
  // validate_ip_range

  /** The number of ASCII digits at the start of `s`. */
  function DigitRun(s: string): (n: nat)
    ensures n <= |s|
    ensures forall i :: 0 <= i < n ==> IsDigit(s[i])
    ensures n < |s| ==> !IsDigit(s[n])
  {
    if |s| > 0 && IsDigit(s[0]) then 1 + DigitRun(s[1..]) else 0
  }

  /**
   * `\d{1,3}\.` at the start of `s`, returning what follows the dot. A
   * longer digit run cannot match however the engine backtracks, because a
   * digit is never a dot.
   */
  function OctetDot(s: string): Option<string> {
    var k := DigitRun(s);
    if 1 <= k <= 3 && k < |s| && s[k] == '.' then Some(s[k + 1..]) else None
  }

  /** `\d{1,3}(/\d{1,2})?$`: the last octet and an optional prefix length, up to the end. */
  predicate LastOctet(s: string) {
    var k := DigitRun(s);
    1 <= k <= 3 &&
    (k == |s| || (s[k] == '/' && 1 <= |s| - k - 1 <= 2 && DigitRun(s[k + 1..]) == |s| - k - 1))
  }

  /** Anchored match of the whole IP-element pattern. */
  predicate MatchesIpPattern(s: string) {
    match OctetDot(s)
    case None => false
    case Some(s1) =>
      match OctetDot(s1)
      case None => false
      case Some(s2) =>
        match OctetDot(s2)
        case None => false
        case Some(s3) => LastOctet(s3)
  }

  /**
   * `validate_ip_range`: with a comma, every stripped comma-separated piece
   * must match; without one, the string itself must match, unstripped.
   */
  predicate ValidateIpRange(ipRange: string) {
    if ',' in ipRange then
      var pieces := Split(ipRange, ',');
      forall i :: 0 <= i < |pieces| ==> MatchesIpPattern(Strip(pieces[i]))
    else
      MatchesIpPattern(ipRange)
  }

  /** One to `n` ASCII digits. */
  predicate DigitGroup(s: string, n: nat) {
    1 <= |s| <= n && AllDigits(s)
  }

  /**
   * The same language described by pieces instead of by a left-to-right
   * scan: four dot-separated groups of one to three digits, the last of
   * which may carry `/` and one or two digits.
   */
  predicate DottedQuadShape(s: string) {
    var groups := Split(s, '.');
    |groups| == 4 && DigitGroup(groups[0], 3) && DigitGroup(groups[1], 3) && DigitGroup(groups[2], 3)
    && TailShape(Split(groups[3], '/'))
  }

  /** The digit run of a digit group followed by a non-digit is the whole group. */
  lemma {:induction false} DigitRunOfGroup(a: string, rest: string)
    requires AllDigits(a)
    requires rest == [] || !IsDigit(rest[0])
    ensures DigitRun(a + rest) == |a|
  {
    if a != [] {
      assert (a + rest)[1..] == a[1..] + rest;
      DigitRunOfGroup(a[1..], rest);
    }
  }

  /** The digit run covers the whole string exactly when it is all digits. */
  lemma DigitRunFull(s: string)
    ensures DigitRun(s) == |s| <==> AllDigits(s)
  {
    if AllDigits(s) {
      DigitRunOfGroup(s, []);
      assert s + [] == s;
    }
  }

  /** The first piece of a split is the prefix before the first separator. */
  lemma {:induction false} SplitHead(s: string, sep: char)
    requires sep in s
    ensures |Split(s, sep)[0]| < |s|
    ensures s[|Split(s, sep)[0]|] == sep
    ensures Split(s, sep)[0] == s[..|Split(s, sep)[0]|]
  {
    if s[0] != sep {
      SplitHead(s[1..], sep);
    }
  }

  /** Splitting at the first separator: the head piece, then the pieces of the rest. */
  lemma SplitAtFirst(s: string, sep: char)
    requires sep in s
    ensures var g := Split(s, sep)[0];
      |g| < |s| && s == g + [sep] + s[|g| + 1..]
      && Split(s, sep) == [g] + Split(s[|g| + 1..], sep)
  {
    SplitHead(s, sep);
    var g := Split(s, sep)[0];
    assert s == g + [sep] + s[|g| + 1..];
    SplitPrefix(g, sep, s[|g| + 1..]);
  }

  /** A string of digits holds no non-digit separator. */
  lemma DigitsHaveNoSep(g: string, sep: char)
    requires AllDigits(g) && !IsDigit(sep)
    ensures sep !in g
  {
  }

  /** The digits before the first non-digit. */
  lemma DigitRunPrefix(s: string)
    ensures AllDigits(s[..DigitRun(s)])
  {
  }

  /** `OctetDot` consumes exactly the first dot-separated group, which must be one to three digits. */
  lemma OctetDotSplit(s: string)
    ensures OctetDot(s).Some? <==> '.' in s && DigitGroup(Split(s, '.')[0], 3)
    ensures OctetDot(s).Some? ==> Split(OctetDot(s).value, '.') == Split(s, '.')[1..]
  {
    if OctetDot(s).Some? {
      OctetDotMatched(s);
    } else if '.' in s {
      OctetDotUnmatched(s);
    }
  }

  lemma OctetDotUnmatched(s: string)
    requires OctetDot(s).None? && '.' in s
    ensures !DigitGroup(Split(s, '.')[0], 3)
  {
    SplitAtFirst(s, '.');
    var g := Split(s, '.')[0];
    if AllDigits(g) {
      DigitRunOfGroup(g, s[|g|..]);
      assert s == g + s[|g|..];
    }
  }

  lemma OctetDotMatched(s: string)
    requires OctetDot(s).Some?
    ensures '.' in s && Split(s, '.')[0] == s[..DigitRun(s)]
    ensures Split(OctetDot(s).value, '.') == Split(s, '.')[1..]
  {
    var k := DigitRun(s);
    var g, rest := s[..k], s[k + 1..];
    assert s == g + ['.'] + rest;
    DigitRunPrefix(s);
    DigitsHaveNoSep(g, '.');
    SplitPrefix(g, '.', rest);
  }

  /** A string `LastOctet` accepts holds only digits and at most one slash, so no dot. */
  lemma LastOctetNoDot(s: string)
    requires LastOctet(s)
    ensures '.' !in s
  {
    var k := DigitRun(s);
    if k < |s| {
      var d := s[k + 1..];
      DigitRunFull(d);
      assert forall i :: k < i < |s| ==> s[i] == d[i - k - 1];
    }
  }

  /** Without a slash, `LastOctet` accepts exactly a group of one to three digits. */
  lemma LastOctetNoSlash(s: string)
    requires '/' !in s
    ensures LastOctet(s) <==> DigitGroup(s, 3)
  {
    DigitRunFull(s);
  }

  /** With a slash, `LastOctet` accepts a digit group, the slash, and one or two digits. */
  lemma LastOctetWithSlash(s: string)
    requires '/' in s
    ensures var g := Split(s, '/')[0];
      |g| < |s| && (LastOctet(s) <==> DigitGroup(g, 3) && DigitGroup(s[|g| + 1..], 2))
  {
    SplitHead(s, '/');
    var g := Split(s, '/')[0];
    var rest := s[|g| + 1..];
    if AllDigits(g) {
      DigitRunOfGroup(g, s[|g|..]);
      assert s == g + s[|g|..];
      DigitRunFull(rest);
    } else {
      var i :| 0 <= i < |g| && !IsDigit(g[i]);
      assert s[i] == g[i];
    }
  }

  /** The slash-separated pieces of the last group as `DottedQuadShape` reads them. */
  predicate TailShape(tail: seq<string>) {
    (|tail| == 1 && DigitGroup(tail[0], 3)) || (|tail| == 2 && DigitGroup(tail[0], 3) && DigitGroup(tail[1], 2))
  }

  /** `LastOctet` is the last group of `DottedQuadShape`. */
  lemma LastOctetSplit(s: string)
    ensures LastOctet(s) <==> TailShape(Split(s, '/'))
  {
    if '/' !in s {
      SplitNoSep(s, '/');
      LastOctetNoSlash(s);
    } else {
      LastOctetSplitSlash(s);
    }
  }

  lemma LastOctetSplitSlash(s: string)
    requires '/' in s
    ensures LastOctet(s) <==> TailShape(Split(s, '/'))
  {
    SplitAtFirst(s, '/');
    LastOctetWithSlash(s);
    var g := Split(s, '/')[0];
    var rest := s[|g| + 1..];
    assert Split(s, '/') == [g] + Split(rest, '/');
    if '/' !in rest {
      SplitNoSep(rest, '/');
      assert Split(s, '/') == [g, rest];
    } else {
      assert |Split(rest, '/')| > 1;
      DigitsHaveNoSepContra(rest);
    }
  }

  lemma DigitsHaveNoSepContra(rest: string)
    requires '/' in rest
    ensures !DigitGroup(rest, 2)
  {
  }

  /**
   * The scanning matcher and the piece-wise description accept the same
   * strings.
   */
  lemma MatchesIpPatternIffShape(s: string)
    ensures MatchesIpPattern(s) <==> DottedQuadShape(s)
  {
    var groups := Split(s, '.');
    OctetDotSplit(s);
    if OctetDot(s).Some? {
      var s1 := OctetDot(s).value;
      OctetDotSplit(s1);
      if OctetDot(s1).Some? {
        var s2 := OctetDot(s1).value;
        OctetDotSplit(s2);
        if OctetDot(s2).Some? {
          var s3 := OctetDot(s2).value;
          assert Split(s3, '.') == groups[3..];
          if '.' in s3 {
            if LastOctet(s3) {
              LastOctetNoDot(s3);
            }
          } else {
            SplitNoSep(s3, '.');
            LastOctetSplit(s3);
          }
        }
      }
    }
  }

  /** `a.b.c.d` with an optional `/p`, each number written in decimal. */
  function DottedQuad(a: nat, b: nat, c: nat, d: nat, prefix: Option<nat>): string {
    NatToString(a) + "." + NatToString(b) + "." + NatToString(c) + "." + NatToString(d)
    + (match prefix case None => "" case Some(p) => "/" + NatToString(p))
  }

  lemma OctetDotOf(n: nat, rest: string)
    requires n < 1000
    ensures OctetDot(NatToString(n) + "." + rest) == Some(rest)
  {
    var g := NatToString(n);
    DigitRunOfGroup(g, "." + rest);
    assert g + "." + rest == g + ("." + rest);
    assert (g + "." + rest)[|g| + 1..] == rest;
  }

  lemma LastOctetOf(d: nat, prefix: Option<nat>)
    requires d < 1000
    requires prefix.Some? ==> prefix.value < 100
    ensures LastOctet(NatToString(d) + (match prefix case None => "" case Some(p) => "/" + NatToString(p)))
  {
    var g := NatToString(d);
    match prefix
    case None =>
      DigitRunOfGroup(g, "");
      assert g + "" == g;
    case Some(p) =>
      var q := NatToString(p);
      DigitRunOfGroup(g, "/" + q);
      assert (g + ("/" + q))[|g| + 1..] == q;
      DigitRunFull(q);
  }

  /**
   * Every dotted quad whose numbers have at most three digits, with a
   * prefix of at most two, is accepted: the pattern checks digit counts,
   * not octet or prefix ranges (so `999.1.1.1` and `1.2.3.4/99` pass).
   */
  lemma DottedQuadAccepted(a: nat, b: nat, c: nat, d: nat, prefix: Option<nat>)
    requires a < 1000 && b < 1000 && c < 1000 && d < 1000
    requires prefix.Some? ==> prefix.value < 100
    ensures MatchesIpPattern(DottedQuad(a, b, c, d, prefix))
    ensures ValidateIpRange(DottedQuad(a, b, c, d, prefix))
  {
    var tail := match prefix case None => "" case Some(p) => "/" + NatToString(p);
    var last := NatToString(d) + tail;
    var s3 := last;
    var s2 := NatToString(c) + "." + s3;
    var s1 := NatToString(b) + "." + s2;
    var s := NatToString(a) + "." + s1;
    assert s == DottedQuad(a, b, c, d, prefix);
    OctetDotOf(a, s1);
    OctetDotOf(b, s2);
    OctetDotOf(c, s3);
    LastOctetOf(d, prefix);
    assert ',' !in s by {
      MatchedHasNoComma(s);
    }
  }

  /** Only digits, dots and slashes, starting and ending with a digit. */
  predicate IpCharsOnly(s: string) {
    |s| > 0 && IsDigit(s[0]) && IsDigit(s[|s| - 1])
    && forall i :: 0 <= i < |s| ==> IsDigit(s[i]) || s[i] == '.' || s[i] == '/'
  }

  lemma LastOctetChars(s: string)
    requires LastOctet(s)
    ensures IpCharsOnly(s)
  {
    var k := DigitRun(s);
    if k < |s| {
      var d := s[k + 1..];
      DigitRunFull(d);
      assert forall i :: k < i < |s| ==> s[i] == d[i - k - 1];
    }
  }

  lemma OctetDotChars(s: string)
    requires OctetDot(s).Some? && IpCharsOnly(OctetDot(s).value)
    ensures IpCharsOnly(s)
  {
    var k := DigitRun(s);
    var r := s[k + 1..];
    assert forall i :: k < i < |s| ==> s[i] == r[i - k - 1];
  }

  /** A matched element holds only digits, dots and a slash, and begins and ends with a digit. */
  lemma MatchedHasNoComma(s: string)
    requires MatchesIpPattern(s)
    ensures ',' !in s && ' ' !in s
    ensures IsDigit(s[0]) && IsDigit(s[|s| - 1])
  {
    var s1 := OctetDot(s).value;
    var s2 := OctetDot(s1).value;
    var s3 := OctetDot(s2).value;
    LastOctetChars(s3);
    OctetDotChars(s2);
    OctetDotChars(s1);
    OctetDotChars(s);
  }

  /** A matched element has no surrounding whitespace, so stripping leaves it alone. */
  lemma MatchedIsStripped(s: string)
    requires MatchesIpPattern(s)
    ensures Strip(s) == s
  {
    MatchedHasNoComma(s);
    StripNoop(s);
  }

  /**
   * A comma-joined list of two or more elements is accepted exactly when
   * every element, once stripped, matches the pattern.
   */
  lemma IpListAcceptedIff(elements: seq<string>)
    requires |elements| >= 2
    requires forall i :: 0 <= i < |elements| ==> ',' !in elements[i]
    ensures ValidateIpRange(Join(elements, ',')) <==>
      forall i :: 0 <= i < |elements| ==> MatchesIpPattern(Strip(elements[i]))
  {
    SplitJoin(elements, ',');
    assert ',' in Join(elements, ',') by {
      var j := Join(elements, ',');
      assert j == elements[0] + [','] + Join(elements[1..], ',');
      assert j[|elements[0]|] == ',';
    }
  }

  /** A trailing comma leaves an empty last piece, which never matches: the whole spec is rejected. */
  lemma IpRangeTrailingCommaRejected(s: string)
    ensures !ValidateIpRange(s + ",")
  {
    SplitTrailingSep(s, ',');
    var pieces := Split(s + ",", ',');
    assert pieces[|pieces| - 1] == [];
    StripNoop([]);
    assert (s + ",")[|s|] == ',';
  }

  /** Without a comma the spec is matched as given, so a leading or trailing space rejects it. */
  lemma IpRangeUnstrippedRejected(s: string)
    requires ',' !in s
    ensures !ValidateIpRange(" " + s)
    ensures !ValidateIpRange(s + " ")
  {
    if MatchesIpPattern(" " + s) {
      MatchedHasNoComma(" " + s);
    }
    if MatchesIpPattern(s + " ") {
      MatchedHasNoComma(s + " ");
    }
    assert ',' !in " " + s && ',' !in s + " " by {
      assert forall i :: 0 <= i < |s| ==> (" " + s)[i + 1] == s[i] && (s + " ")[i] == s[i];
    }
  }

  // ---------------------------------------------------------------------
  // validate_ports

  predicate InPortRange(n: int) { 0 <= n <= 65535 }

  /**
   * One stripped piece of a port list: a single port, or `start-end` with
   * exactly one dash. A piece with more dashes fails to unpack into two
   * values and `int()` of a malformed half raises; both are `ValueError`
   * and read as invalid.
   */
  predicate PortPieceOk(piece: string) {
    if '-' in piece then
      var halves := Split(piece, '-');
      |halves| == 2
      && match (ParseInt(halves[0]), ParseInt(halves[1]))
         case (Some(start), Some(end)) => InPortRange(start) && InPortRange(end) && start <= end
         case _ => false
    else
      match ParseInt(piece)
      case Some(port) => InPortRange(port)
      case None => false
  }

  /**
   * `validate_ports`: every stripped comma-separated piece is a valid port
   * or port range. The loop in the source returns False at the first bad
   * piece and never accumulates anything, so it is this conjunction.
   */
  predicate ValidatePorts(ports: string) {
    var pieces := Split(ports, ',');
    forall i :: 0 <= i < |pieces| ==> PortPieceOk(Strip(pieces[i]))
  }

  /** A decimal number without a dash is accepted as a single port exactly when it is at most 65535. */
  lemma SinglePortIff(n: nat)
    ensures PortPieceOk(NatToString(n)) <==> n <= 65535
  {
    var t := NatToString(n);
    DigitsHaveNoSep(t, '-');
    ParseIntToString(n);
  }

  /**
   * `a-b` in decimal is accepted exactly when `a <= b <= 65535`: an inverted
   * range such as `80-70` is rejected, and so is an end beyond 65535.
   */
  lemma PortRangeIff(a: nat, b: nat)
    ensures PortPieceOk(NatToString(a) + ['-'] + NatToString(b)) <==> a <= b <= 65535
  {
    var x, y := NatToString(a), NatToString(b);
    var piece := x + ['-'] + y;
    DigitsHaveNoSep(x, '-');
    DigitsHaveNoSep(y, '-');
    assert piece == x + ['-'] + y;
    SplitPrefix(x, '-', y);
    SplitNoSep(y, '-');
    var halves := Split(piece, '-');
    assert halves == [x, y];
    assert piece[|x|] == '-';
    ParseIntToString(a);
    ParseIntToString(b);
    assert ParseInt(halves[0]) == Some(a as int) && ParseInt(halves[1]) == Some(b as int);
  }

  /** A negative number such as `-5` splits at its sign into an empty start, which `int()` rejects. */
  lemma NegativePortRejected(n: nat)
    ensures !PortPieceOk(['-'] + NatToString(n))
  {
    var y := NatToString(n);
    DigitsHaveNoSep(y, '-');
    SplitPrefix([], '-', y);
    assert [] + ['-'] + y == ['-'] + y;
    assert (['-'] + y)[0] == '-';
  }

  /** A piece with two dashes does not unpack into a start and an end. */
  lemma TwoDashesRejected(x: string, y: string, z: string)
    requires '-' !in x && '-' !in y && '-' !in z
    ensures !PortPieceOk(x + ['-'] + y + ['-'] + z)
  {
    SplitPrefix(y, '-', z);
    SplitPrefix(x, '-', y + ['-'] + z);
    SplitNoSep(z, '-');
    assert x + ['-'] + y + ['-'] + z == x + ['-'] + (y + ['-'] + z);
    assert (x + ['-'] + y + ['-'] + z)[|x|] == '-';
  }

  /**
   * A comma-joined list of pieces is accepted exactly when every piece,
   * once stripped, is a valid port or port range.
   */
  lemma PortListAcceptedIff(pieces: seq<string>)
    requires |pieces| >= 1
    requires forall i :: 0 <= i < |pieces| ==> ',' !in pieces[i]
    ensures ValidatePorts(Join(pieces, ',')) <==> forall i :: 0 <= i < |pieces| ==> PortPieceOk(Strip(pieces[i]))
  {
    SplitJoin(pieces, ',');
  }

  /** `int('')` raises, so an empty piece is never a port. */
  lemma EmptyPieceRejected()
    ensures !PortPieceOk("")
  {
    StripNoop("");
  }

  /** A trailing comma (`80,`) leaves an empty last piece: the whole list is rejected. */
  lemma PortsTrailingCommaRejected(s: string)
    ensures !ValidatePorts(s + ",")
  {
    SplitTrailingSep(s, ',');
    var pieces := Split(s + ",", ',');
    assert pieces[|pieces| - 1] == [];
    StripNoop([]);
    EmptyPieceRejected();
  }

  /** The empty string is one empty piece, and is rejected. */
  lemma EmptyPortsRejected()
    ensures !ValidatePorts("")
  {
    var pieces := Split("", ',');
    assert pieces == [[]];
    assert pieces[0] == "";
    StripNoop("");
    EmptyPieceRejected();
  }

  // ---------------------------------------------------------------------
  // validate_scan_rate

  /** The rate argument: the route passes an `int`, the signature also admits `str`. */
  datatype RateArg = IntRate(n: int) | TextRate(text: string)

  const MinRate: int := 100
  const MaxRate: int := 100000

  /** `validate_scan_rate`: `int(rate)` lies in 100..100000; a failing `int()` is False. */
  predicate ValidateScanRate(rate: RateArg) {
    match rate
    case IntRate(n) => MinRate <= n <= MaxRate
    case TextRate(t) =>
      match ParseInt(t)
      case Some(n) => MinRate <= n <= MaxRate
      case None => false
  }

  /** A rate given as text is judged like the integer it spells. */
  lemma RateTextAgreesWithInt(n: int)
    ensures ValidateScanRate(TextRate(IntToString(n))) == ValidateScanRate(IntRate(n))
  {
    ParseIntToString(n);
  }

  // ---------------------------------------------------------------------
  // validate_scan_input

  const RequiredMessage: string := "IP range and ports are required"
  const BadIpMessage: string := "Invalid IP range format"
  const BadPortsMessage: string := "Invalid ports format"
  const BadRateMessage: string := "Rate must be between 100 and 100000"

  /**
   * `validate_scan_input`: the checks run in a fixed order and the first
   * one that fails decides the `ValidationError` message; `None` means the
   * function returned normally.
   */
  function ValidateScanInput(ipRange: string, ports: string, rate: RateArg): (failure: Option<string>)
    ensures failure == None <==>
      ipRange != "" && ports != "" && ValidateIpRange(ipRange) && ValidatePorts(ports) && ValidateScanRate(rate)
    ensures failure == Some(RequiredMessage) <==> ipRange == "" || ports == ""
    ensures failure == Some(BadIpMessage) <==>
      ipRange != "" && ports != "" && !ValidateIpRange(ipRange)
    ensures failure == Some(BadPortsMessage) <==>
      ipRange != "" && ports != "" && ValidateIpRange(ipRange) && !ValidatePorts(ports)
    ensures failure == Some(BadRateMessage) <==>
      ipRange != "" && ports != "" && ValidateIpRange(ipRange) && ValidatePorts(ports) && !ValidateScanRate(rate)
  {
    if ipRange == "" || ports == "" then Some(RequiredMessage)
    else if !ValidateIpRange(ipRange) then Some(BadIpMessage)
    else if !ValidatePorts(ports) then Some(BadPortsMessage)
    else if !ValidateScanRate(rate) then Some(BadRateMessage)
    else None
  }

  /** `a-b` in decimal is one comma-free, already stripped piece. */
  lemma RangeTextIsOnePiece(a: nat, b: nat)
    ensures var p := NatToString(a) + ['-'] + NatToString(b);
      ValidatePorts(p) == PortPieceOk(p)
  {
    var x, y := NatToString(a), NatToString(b);
    var p := x + ['-'] + y;
    assert p == x + (['-'] + y);
    assert ',' !in p by {
      DigitsHaveNoSep(x, ',');
      DigitsHaveNoSep(y, ',');
    }
    assert p[0] == x[0] && p[|p| - 1] == y[|y| - 1];
    StripNoop(p);
    SinglePieceList(p);
  }

  /**
   * An inverted range such as `80-70` is reported as a port error once the
   * IP range has passed, whatever the rate.
   */
  lemma InvertedRangeReported(ipRange: string, a: nat, b: nat, rate: RateArg)
    requires ipRange != "" && ValidateIpRange(ipRange)
    requires a > b
    ensures ValidateScanInput(ipRange, NatToString(a) + ['-'] + NatToString(b), rate) == Some(BadPortsMessage)
  {
    PortRangeIff(a, b);
    RangeTextIsOnePiece(a, b);
  }

  /** A list without commas is one piece. */
  lemma SinglePieceList(p: string)
    requires ',' !in p && Strip(p) == p
    ensures ValidatePorts(p) == PortPieceOk(p)
  {
    var pieces := Split(p, ',');
    SplitNoSep(p, ',');
    assert pieces == [p];
    assert Strip(pieces[0]) == p;
    if PortPieceOk(p) {
      forall i | 0 <= i < |pieces| ensures PortPieceOk(Strip(pieces[i])) {
        assert i == 0;
      }
    }
  }
}
