/**
 * Byte ranges as in sections 2.1, 4.2 and 4.4 of RFC 7233: the server's header parser
 * and forwarding policy (src/utils/range.ts, src/services/youtube/streamProxy.ts) and
 * the client's Content-Range parsers (src/frontend/js/services/offlineService.js).
 */
module Ranges {
  import opened Common
  import opened Text

  datatype RangeSpec =
    | From(start: nat)
    | Interval(start: nat, end: nat)
    | Suffix(suffixLength: nat)

  datatype Reason =
    | UnsupportedUnit
    | EmptyRangeSet
    | MultipleRanges
    | MalformedRange
    | MissingBounds
    | BadSuffixLength
    | NotANumber
    | NotSafe
    | EndBeforeStart

  datatype RangeParse = Absent | Valid(spec: RangeSpec) | Invalid(reason: Reason)

  // ---------------------------------------------------------------------------
  // Parsing a Range header
  // ---------------------------------------------------------------------------

  function ParseNumber(s: string): Result<nat, Reason> {
    if s == [] then Ok(0)
    else if !(1 <= |s| <= 16 && AllDigits(s)) then Err(NotANumber)
    else if ParseDigits(s) > MAX_SAFE_INTEGER then Err(NotSafe)
    else Ok(ParseDigits(s))
  }

  predicate SameLetter(c: char, lower: char)
    requires 'a' <= lower <= 'z'
  {
    c == lower || c as int + 32 == lower as int
  }

  /** Case-insensitive `bytes` at the front. */
  predicate StartsWithBytes(s: string) {
    && |s| >= 5
    && SameLetter(s[0], 'b') && SameLetter(s[1], 'y') && SameLetter(s[2], 't')
    && SameLetter(s[3], 'e') && SameLetter(s[4], 's')
  }

  /** The part after `bytes =`, trimmed; `None` when the unit expression does not match. */
  function UnitMatch(raw: string): Option<string> {
    var t := TrimLeft(raw);
    if !StartsWithBytes(t) then None
    else
      var u := TrimLeft(t[5..]);
      if u == [] || u[0] != '=' then None
      else
        var spec := Trim(u[1..]);
        if exists i :: 0 <= i < |spec| && IsLineEnd(spec[i]) then None else Some(spec)
  }

  function ParseBounds(left: string, right: string): RangeParse {
    if left == [] && right == [] then Invalid(MissingBounds)
    else if left == [] then
      if right == "0" then Invalid(BadSuffixLength)
      else
        match ParseNumber(right)
        case Err(e) => Invalid(e)
        case Ok(n) => Valid(Suffix(n))
    else if right == [] then
      match ParseNumber(left)
      case Err(e) => Invalid(e)
      case Ok(n) => Valid(From(n))
    else
      match (ParseNumber(left), ParseNumber(right))
      case (Err(e), _) => Invalid(e)
      case (Ok(_), Err(e)) => Invalid(e)
      case (Ok(a), Ok(b)) => if b < a then Invalid(EndBeforeStart) else Valid(Interval(a, b))
  }

  function ParseSpec(spec: string): RangeParse {
    if spec == [] then Invalid(EmptyRangeSet)
    else if ',' in spec then Invalid(MultipleRanges)
    else
      var dash := IndexOf(spec, '-');
      if dash == |spec| || !AllDigits(spec[..dash]) || !AllDigits(spec[dash + 1..]) then Invalid(MalformedRange)
      else ParseBounds(spec[..dash], spec[dash + 1..])
  }

  function ParseRangeHeader(raw: Option<string>): RangeParse {
    if raw.None? || raw.value == [] then Absent
    else
      match UnitMatch(raw.value)
      case None => Invalid(UnsupportedUnit)
      case Some(spec) => ParseSpec(spec)
  }

  // ---------------------------------------------------------------------------
  // Resolving and forwarding
  // ---------------------------------------------------------------------------

  datatype Resolved = Satisfiable(start: int, end: int) | Unsatisfiable

  function Min(a: int, b: int): int { if a < b then a else b }

  function ResolveRange(spec: RangeSpec, total: Option<int>): Resolved {
    match spec
    case Suffix(n) =>
      if total.None? then Satisfiable(-(n as int), -1)
      else if total.value <= 0 then Unsatisfiable
      else Satisfiable(total.value - Min(n, total.value), total.value - 1)
    case From(start) =>
      if total.Some? && start >= total.value then Unsatisfiable
      else if total.Some? && total.value > 0 then Satisfiable(start, total.value - 1)
      else Satisfiable(start, -1)
    case Interval(start, end) =>
      if start > MAX_SAFE_INTEGER - 1 then Unsatisfiable
      else if total.Some? && start >= total.value then Unsatisfiable
      else if total.Some? then Satisfiable(start, Min(end, total.value - 1))
      else Satisfiable(start, end)
  }

  function BytesHeader(left: string, right: string): string {
    "bytes=" + left + "-" + right
  }

  function ForwardRangeHeader(parse: RangeParse, total: Option<int>): Option<string> {
    match parse
    case Absent => None
    case Invalid(_) => None
    case Valid(Suffix(n)) =>
      if total.Some? && total.value > 0 then
        var resolved := ResolveRange(Suffix(n), total);
        if resolved.Satisfiable? && resolved.end >= resolved.start && resolved.start >= 0
        then Some(BytesHeader(Print(resolved.start), Print(resolved.end)))
        else None
      else Some(BytesHeader("", Print(n)))
    case Valid(From(start)) => Some(BytesHeader(Print(start), ""))
    case Valid(Interval(start, end)) => Some(BytesHeader(Print(start), Print(end)))
  }

  function FormatContentRange(start: nat, end: nat, total: Option<nat>): string {
    "bytes " + Print(start) + "-" + Print(end) + "/" + if total.Some? then Print(total.value) else "*"
  }

  function ContentRangeForUnsatisfiable(total: Option<nat>): string {
    "bytes */" + if total.Some? then Print(total.value) else "*"
  }

  function PositiveTotal(knownTotal: Option<int>): Option<nat> {
    if knownTotal.Some? && knownTotal.value > 0 then Some(knownTotal.value) else None
  }

  /** The 416 for a header that is not a usable range at all, or `None` to go on. */
  function RejectMalformedRangeEarly(raw: Option<string>, knownTotal: Option<int>): Option<string> {
    if ParseRangeHeader(raw).Invalid? then Some(ContentRangeForUnsatisfiable(PositiveTotal(knownTotal))) else None
  }

  datatype Decision = Forward(header: Option<string>) | Reject416(contentRange: string)

  function DecideClientRange(parse: RangeParse, knownTotal: Option<int>): Decision {
    match parse
    case Absent => Forward(None)
    case Invalid(_) => Reject416(ContentRangeForUnsatisfiable(PositiveTotal(knownTotal)))
    case Valid(spec) =>
      if knownTotal.Some? && knownTotal.value > 0 && ResolveRange(spec, knownTotal).Unsatisfiable?
      then Reject416(ContentRangeForUnsatisfiable(Some(knownTotal.value)))
      else Forward(ForwardRangeHeader(parse, knownTotal))
  }

  predicate Upstream200IsUsable(parse: RangeParse, forwarded: Option<string>) {
    || forwarded.None? || forwarded.value == [] || !parse.Valid?
    || (parse.spec.Interval? && parse.spec.start == 0)
    || (parse.spec.From? && parse.spec.start == 0)
  }

  // ---------------------------------------------------------------------------
  // What a range means
  // ---------------------------------------------------------------------------

  /** Is byte `i` of an object of `total` bytes part of the range? */
  predicate Selects(spec: RangeSpec, total: int, i: int) {
    0 <= i < total &&
    match spec
    case From(start) => start <= i
    case Interval(start, end) => start <= i <= end
    case Suffix(n) => total - n <= i
  }

  ghost predicate SelectsNothing(spec: RangeSpec, total: int) {
    forall i :: !Selects(spec, total, i)
  }

  predicate SafeSpec(spec: RangeSpec) {
    match spec
    case From(start) => start <= MAX_SAFE_INTEGER
    case Interval(start, end) => start <= end <= MAX_SAFE_INTEGER
    case Suffix(n) => n <= MAX_SAFE_INTEGER
  }

  /** Accepted headers name safe, ordered bounds. */
  lemma AcceptedIsSafe(raw: Option<string>)
    requires ParseRangeHeader(raw).Valid?
    ensures SafeSpec(ParseRangeHeader(raw).spec)
  {
  }

  /** A plain header with digits on either side parses to its bounds. */
  lemma ParsePlainHeader(left: string, right: string)
    requires AllDigits(left) && AllDigits(right)
    ensures ParseRangeHeader(Some(BytesHeader(left, right))) == ParseBounds(left, right)
  {
    var header, spec := BytesHeader(left, right), left + "-" + right;
    assert header[0] == 'b';
    assert TrimLeft(header) == header;
    assert header[5..] == "=" + spec;
    assert TrimLeft(header[5..]) == header[5..];
    assert header[5..][1..] == spec;
    forall i | 0 <= i < |spec| ensures !IsLineEnd(spec[i]) && spec[i] != ',' && !IsSpace(spec[i]) {
      assert i < |left| ==> spec[i] == left[i];
      assert i > |left| ==> spec[i] == right[i - |left| - 1];
    }
    TrimNothing(spec);
    assert UnitMatch(header) == Some(spec);
    forall j | 0 <= j < |left| ensures left[j] != '-' {
    }
    IndexOfAfter(left, '-', right);
    assert left + ['-'] + right == spec;
    assert spec[..|left|] == left && spec[|left| + 1..] == right;
  }

  lemma ParsePrinted(n: nat)
    requires n <= MAX_SAFE_INTEGER
    ensures ParseNumber(Print(n)) == Ok(n)
  {
    ParsePrint(n);
    SafePrintsShort(n);
  }

  /** The decision for a valid range of an object of known size. */
  ghost predicate DecidedWell(spec: RangeSpec, total: int) {
    var d := DecideClientRange(Valid(spec), Some(total));
    && (d.Reject416? <==> SelectsNothing(spec, total) && spec != Suffix(0))
    && (d == Forward(None) <==> spec == Suffix(0))
    && (d.Forward? && d.header.Some? ==>
          var again := ParseRangeHeader(d.header);
          again.Valid? && SameSelection(again.spec, spec, total))
  }

  ghost predicate SameSelection(a: RangeSpec, b: RangeSpec, total: int) {
    forall i :: Selects(a, total, i) <==> Selects(b, total, i)
  }

  lemma DecideFrom(start: nat, total: int)
    requires SafeSpec(From(start)) && 0 < total <= MAX_SAFE_INTEGER
    ensures DecidedWell(From(start), total)
  {
    assert start < total ==> Selects(From(start), total, start);
    ParsePlainHeader(Print(start), "");
    ParsePrinted(start);
  }

  lemma DecideInterval(start: nat, end: nat, total: int)
    requires SafeSpec(Interval(start, end)) && 0 < total <= MAX_SAFE_INTEGER
    ensures DecidedWell(Interval(start, end), total)
  {
    assert start < total ==> Selects(Interval(start, end), total, start);
    ParsePlainHeader(Print(start), Print(end));
    ParsePrinted(start);
    ParsePrinted(end);
  }

  lemma DecideSuffix(n: nat, total: int)
    requires SafeSpec(Suffix(n)) && 0 < total <= MAX_SAFE_INTEGER
    ensures DecidedWell(Suffix(n), total)
  {
    if n > 0 {
      var start := total - Min(n, total);
      assert Selects(Suffix(n), total, total - 1);
      SuffixAsInterval(n, total);
      var header := BytesHeader(Print(start), Print(total - 1));
      assert DecideClientRange(Valid(Suffix(n)), Some(total)) == Forward(Some(header));
      assert ParseRangeHeader(Some(header)) == Valid(Interval(start, total - 1)) by {
        ParsePlainHeader(Print(start), Print(total - 1));
        ParsePrinted(start);
        ParsePrinted(total - 1);
      }
    }
  }

  lemma SuffixAsInterval(n: nat, total: int)
    requires n > 0 && 0 < total
    ensures 0 <= total - Min(n, total) && SameSelection(Interval(total - Min(n, total), total - 1), Suffix(n), total)
  {
  }

  /**
   * With a known size: 416 is answered exactly for ranges that select no byte, and what
   * is forwarded is accepted again and selects the same bytes.  A suffix of length zero
   * is the one exception, and there no header is forwarded at all.
   */
  lemma ForwardingPreservesMeaning(raw: Option<string>, total: int)
    requires ParseRangeHeader(raw).Valid? && 0 < total <= MAX_SAFE_INTEGER
    ensures
      var spec := ParseRangeHeader(raw).spec;
      var d := DecideClientRange(ParseRangeHeader(raw), Some(total));
      && (d.Reject416? <==> SelectsNothing(spec, total) && spec != Suffix(0))
      && (d == Forward(None) <==> spec == Suffix(0))
      && (d.Forward? && d.header.Some? ==>
            var again := ParseRangeHeader(d.header);
            again.Valid? && forall i :: Selects(again.spec, total, i) <==> Selects(spec, total, i))
  {
    AcceptedIsSafe(raw);
    var spec := ParseRangeHeader(raw).spec;
    assert DecidedWell(spec, total) by {
      match spec
      case From(start) => DecideFrom(start, total);
      case Interval(start, end) => DecideInterval(start, end, total);
      case Suffix(n) => DecideSuffix(n, total);
    }
  }

  /** With no known size the forwarded header parses back to the same range, but for a zero suffix. */
  lemma ForwardingUnknownTotal(raw: Option<string>, total: Option<int>)
    requires ParseRangeHeader(raw).Valid? && (total.Some? ==> total.value <= 0)
    ensures
      var parse := ParseRangeHeader(raw);
      var d := DecideClientRange(parse, total);
      && d.Forward? && d.header.Some?
      && (ParseRangeHeader(d.header) == parse <==> parse.spec != Suffix(0))
  {
    var spec := ParseRangeHeader(raw).spec;
    AcceptedIsSafe(raw);
    match spec
    case From(start) =>
      ParsePlainHeader(Print(start), "");
      ParsePrinted(start);
    case Interval(start, end) =>
      ParsePlainHeader(Print(start), Print(end));
      ParsePrinted(start);
      ParsePrinted(end);
    case Suffix(n) =>
      ParsePlainHeader("", Print(n));
      ParsePrinted(n);
      ParsePrint(n);
      assert ParseDigits("0") == 0 by { assert "0"[..0] == []; }
      if n == 0 {
        assert Print(0) == "0";
      }
  }

  /** `bytes=-00` is accepted, selects nothing, and is forwarded as a request for everything. */
  lemma ZeroSuffixSlipsThrough(total: int)
    requires 0 < total <= MAX_SAFE_INTEGER
    ensures
      var parse := ParseRangeHeader(Some("bytes=-00"));
      && parse == Valid(Suffix(0)) && SelectsNothing(Suffix(0), total)
      && DecideClientRange(parse, Some(total)) == Forward(None)
  {
    assert "bytes=-00" == BytesHeader("", "00");
    ParsePlainHeader("", "00");
    assert ParseNumber("00") == Ok(0) by {
      assert "00"[..1] == "0" && "0"[..0] == [];
      assert ParseDigits("0") == 0;
    }
    DecideSuffix(0, total);
  }

  /**
   * A full-body answer to a range of an object of known size is let through exactly for a range
   * from byte 0 on that is not given as a suffix, and for a suffix of length zero, for which no
   * range was sent; not even for a suffix that covers the whole object.
   */
  lemma FullBodyOnlyFromByteZero(raw: Option<string>, total: int)
    requires ParseRangeHeader(raw).Valid? && 0 < total
    ensures var parse := ParseRangeHeader(raw);
      Upstream200IsUsable(parse, ForwardRangeHeader(parse, Some(total))) <==>
        if parse.spec.Suffix? then parse.spec.suffixLength == 0 else Selects(parse.spec, total, 0)
  {
  }

  // ---------------------------------------------------------------------------
  // The client's parsers
  // ---------------------------------------------------------------------------

  datatype ContentRange = ContentRange(start: nat, end: nat, total: nat)

  /** The text after `bytes` and at least one space. */
  function AfterBytes(value: string): Option<string> {
    if |value| >= 6 && value[..5] == "bytes" && IsSpace(value[5]) then Some(TrimLeft(value[5..])) else None
  }

  function CheckContentRange(start: nat, end: nat, total: nat): Option<ContentRange> {
    if start > MAX_SAFE_INTEGER || end > MAX_SAFE_INTEGER || total > MAX_SAFE_INTEGER then None
    else if end < start || total <= end then None
    else Some(ContentRange(start, end, total))
  }

  /** `START-END/TOTAL`, split at the first dash and the first slash after it. */
  function ParseNumbers(r: string): Option<ContentRange> {
    var dash := IndexOf(r, '-');
    if dash == |r| then None
    else
      var tail := r[dash + 1..];
      var slash := IndexOf(tail, '/');
      if slash == |tail| then None
      else
        var a, b, c := r[..dash], tail[..slash], tail[slash + 1..];
        if a == [] || b == [] || c == [] || !AllDigits(a) || !AllDigits(b) || !AllDigits(c) then None
        else CheckContentRange(ParseDigits(a), ParseDigits(b), ParseDigits(c))
  }

  /** `bytes START-END/TOTAL`, all safe and in order. */
  function ParseContentRangeValue(value: string): Option<ContentRange> {
    var rest := AfterBytes(value);
    if rest.None? then None else ParseNumbers(rest.value)
  }

  /** The total of a `bytes asterisk/TOTAL` value. */
  function ParseUnsatisfiedTotal(value: string): Option<nat> {
    var rest := AfterBytes(value);
    if rest.None? || |rest.value| < 2 || rest.value[..2] != "*/" then None
    else
      var digits := TrimLeft(rest.value[2..]);
      if digits == [] || !AllDigits(digits) || ParseDigits(digits) > MAX_SAFE_INTEGER then None
      else Some(ParseDigits(digits))
  }

  lemma AfterBytesPlain(rest: string)
    requires rest != [] && !IsSpace(rest[0])
    ensures AfterBytes("bytes " + rest) == Some(rest)
  {
    var value := "bytes " + rest;
    assert value[..5] == "bytes" && value[5..] == " " + rest;
    assert value[5..][1..] == rest;
    assert TrimLeft(value[5..]) == TrimLeft(rest) == rest;
  }

  /** Splitting `a-b/c` at its first dash and first slash. */
  lemma SplitNumbers(a: string, b: string, c: string)
    requires AllDigits(a) && AllDigits(b)
    ensures
      var r := a + "-" + (b + "/" + c);
      && IndexOf(r, '-') == |a| < |r| && r[..|a|] == a && r[|a| + 1..] == b + "/" + c
      && IndexOf(b + "/" + c, '/') == |b| < |b + "/" + c| && (b + "/" + c)[..|b|] == b && (b + "/" + c)[|b| + 1..] == c
  {
    IndexOfAfter(a, '-', b + "/" + c);
    assert a + ['-'] + (b + "/" + c) == a + "-" + (b + "/" + c);
    IndexOfAfter(b, '/', c);
    assert b + ['/'] + c == b + "/" + c;
  }

  lemma ParseThreeNumbers(a: string, b: string, c: string)
    requires a != [] && b != [] && AllDigits(a) && AllDigits(b)
    ensures
      ParseContentRangeValue("bytes " + a + "-" + b + "/" + c) ==
        if c == [] || !AllDigits(c) then None else CheckContentRange(ParseDigits(a), ParseDigits(b), ParseDigits(c))
  {
    var rest := a + "-" + (b + "/" + c);
    assert "bytes " + a + "-" + b + "/" + c == "bytes " + rest;
    assert AfterBytes("bytes " + rest) == Some(rest) by {
      assert rest[0] == a[0];
      AfterBytesPlain(rest);
    }
    assert ParseNumbers(rest) ==
      if c == [] || !AllDigits(c) then None else CheckContentRange(ParseDigits(a), ParseDigits(b), ParseDigits(c)) by {
      SplitNumbers(a, b, c);
    }
  }

  /** The client reads back what the server prints: exactly the well-formed ranges survive. */
  lemma ContentRangeRoundTrip(start: nat, end: nat, total: nat)
    ensures
      ParseContentRangeValue(FormatContentRange(start, end, Some(total))) ==
        if start <= end < total <= MAX_SAFE_INTEGER then Some(ContentRange(start, end, total)) else None
    ensures ParseContentRangeValue(FormatContentRange(start, end, None)) == None
  {
    ParseThreeNumbers(Print(start), Print(end), Print(total));
    ParseThreeNumbers(Print(start), Print(end), "*");
    ParsePrint(start);
    ParsePrint(end);
    ParsePrint(total);
  }

  lemma ParseStarSlash(tail: string)
    requires tail != [] && !IsSpace(tail[0])
    ensures ParseUnsatisfiedTotal("bytes */" + tail) ==
      if !AllDigits(tail) || ParseDigits(tail) > MAX_SAFE_INTEGER then None else Some(ParseDigits(tail))
  {
    var rest := "*/" + tail;
    assert "bytes */" + tail == "bytes " + rest;
    AfterBytesPlain(rest);
    assert rest[..2] == "*/" && rest[2..] == tail;
  }

  lemma UnsatisfiedRoundTrip(total: nat)
    ensures ParseUnsatisfiedTotal(ContentRangeForUnsatisfiable(Some(total))) ==
      if total <= MAX_SAFE_INTEGER then Some(total) else None
    ensures ParseUnsatisfiedTotal(ContentRangeForUnsatisfiable(None)) == None
  {
    ParseStarSlash(Print(total));
    ParsePrint(total);
    ParseStarSlash("*");
  }

  /** A 416 for a malformed header tells the client the known size, and only malformed headers get it. */
  lemma EarlyRejection(raw: Option<string>, knownTotal: Option<int>)
    ensures RejectMalformedRangeEarly(raw, knownTotal).Some? <==> ParseRangeHeader(raw).Invalid?
    ensures
      (RejectMalformedRangeEarly(raw, knownTotal).Some? &&
       (knownTotal.Some? ==> knownTotal.value <= MAX_SAFE_INTEGER)) ==>
      ParseUnsatisfiedTotal(RejectMalformedRangeEarly(raw, knownTotal).value) == PositiveTotal(knownTotal)
  {
    if knownTotal.Some? && knownTotal.value > 0 {
      UnsatisfiedRoundTrip(knownTotal.value);
    } else {
      UnsatisfiedRoundTrip(0);
    }
  }
}
