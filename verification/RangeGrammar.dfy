/** Exactly which headers the range parsers accept, and what a resolved range is. */
module RangeGrammar {
  import opened Common
  import opened Text
  import opened Ranges

  // ---------------------------------------------------------------------------
  // White space
  // ---------------------------------------------------------------------------

  predicate Blank(s: string) {
    forall i :: 0 <= i < |s| ==> IsSpace(s[i])
  }

  /** No white space at either end. */
  predicate Tight(s: string) {
    s != [] && !IsSpace(s[0]) && !IsSpace(s[|s| - 1])
  }

  lemma {:induction false} LeftBlank(s: string) returns (w: string)
    ensures Blank(w) && s == w + TrimLeft(s)
    ensures TrimLeft(s) != [] ==> !IsSpace(TrimLeft(s)[0])
  {
    if s != [] && IsSpace(s[0]) {
      w := LeftBlank(s[1..]);
      w := [s[0]] + w;
    } else {
      w := [];
    }
  }

  lemma {:induction false} RightBlank(s: string) returns (w: string)
    ensures Blank(w) && s == TrimRight(s) + w
    ensures TrimRight(s) != [] ==> !IsSpace(TrimRight(s)[|TrimRight(s)| - 1])
  {
    if s != [] && IsSpace(s[|s| - 1]) {
      w := RightBlank(s[..|s| - 1]);
      w := w + [s[|s| - 1]];
    } else {
      w := [];
    }
  }

  lemma {:induction false} TrimsLeft(w: string, rest: string)
    requires Blank(w) && (rest != [] ==> !IsSpace(rest[0]))
    ensures TrimLeft(w + rest) == rest
  {
    if w == [] {
      assert w + rest == rest;
    } else {
      assert (w + rest)[0] == w[0] && (w + rest)[1..] == w[1..] + rest;
      TrimsLeft(w[1..], rest);
    }
  }

  lemma {:induction false} TrimsRight(rest: string, w: string)
    requires Blank(w) && (rest != [] ==> !IsSpace(rest[|rest| - 1]))
    ensures TrimRight(rest + w) == rest
    decreases |w|
  {
    if w == [] {
      assert rest + w == rest;
    } else {
      var n := |w| - 1;
      assert (rest + w)[..|rest + w| - 1] == rest + w[..n];
      assert (rest + w)[|rest + w| - 1] == w[n];
      TrimsRight(rest, w[..n]);
    }
  }

  // ---------------------------------------------------------------------------
  // The Range header
  // ---------------------------------------------------------------------------

  /** `bytes` in any letter case. */
  predicate IsUnit(unit: string) {
    |unit| == 5 && StartsWithBytes(unit)
  }

  /** One to sixteen digits that name a safe integer. */
  predicate Names(s: string, n: nat) {
    1 <= |s| <= 16 && AllDigits(s) && ParseDigits(s) == n && n <= 9007199254740991
  }

  /** The two sides of the dash, and the range they mean. */
  predicate Means(left: string, right: string, spec: RangeSpec) {
    match spec
    case From(start) => Names(left, start) && right == ""
    case Interval(start, end) => Names(left, start) && Names(right, end) && start <= end
    case Suffix(n) => left == "" && right != "0" && Names(right, n)
  }

  lemma BoundsIff(left: string, right: string, spec: RangeSpec)
    requires AllDigits(left) && AllDigits(right)
    ensures ParseBounds(left, right) == Valid(spec) <==> Means(left, right, spec)
  {
  }

  /** The pieces of a header: the unit, the two sides of the dash, and the white space between. */
  datatype Pieces = Pieces(w0: string, unit: string, w1: string, w2: string, left: string, right: string, w3: string)

  ghost predicate Composes(p: Pieces, raw: string) {
    && Blank(p.w0) && Blank(p.w1) && Blank(p.w2) && Blank(p.w3) && IsUnit(p.unit)
    && AllDigits(p.left) && AllDigits(p.right)
    && raw == p.w0 + (p.unit + (p.w1 + ("=" + (p.w2 + (p.left + "-" + p.right + p.w3)))))
  }

  lemma DigitIsPlain(c: char)
    requires IsDigit(c) || c == '-'
    ensures !IsSpace(c) && !IsLineEnd(c) && c != ','
  {
  }

  /** Digits, a dash and digits. */
  lemma SpecIsPlain(left: string, right: string)
    requires AllDigits(left) && AllDigits(right)
    ensures var spec := left + "-" + right;
      && Tight(spec) && ',' !in spec && (forall i :: 0 <= i < |spec| ==> !IsLineEnd(spec[i]))
      && IndexOf(spec, '-') == |left| && spec[..|left|] == left && spec[|left| + 1..] == right
  {
    var spec := left + "-" + right;
    forall i | 0 <= i < |spec| ensures !IsSpace(spec[i]) && !IsLineEnd(spec[i]) && spec[i] != ',' {
      assert i < |left| ==> spec[i] == left[i];
      assert i > |left| ==> spec[i] == right[i - |left| - 1];
      DigitIsPlain(spec[i]);
    }
    IndexOfAfter(left, '-', right);
    assert left + ['-'] + right == spec;
  }

  lemma ComposedUnit(p: Pieces, raw: string)
    requires Composes(p, raw)
    ensures raw != [] && UnitMatch(raw) == Some(p.left + "-" + p.right)
  {
    var spec := p.left + "-" + p.right;
    SpecIsPlain(p.left, p.right);
    var u := "=" + (p.w2 + (spec + p.w3));
    var t := p.unit + (p.w1 + u);
    TrimsLeft(p.w0, t);
    assert t[5..] == p.w1 + u;
    TrimsLeft(p.w1, u);
    assert u[1..] == p.w2 + (spec + p.w3);
    assert (spec + p.w3)[0] == spec[0];
    TrimsLeft(p.w2, spec + p.w3);
    TrimsRight(spec, p.w3);
    assert Trim(u[1..]) == spec;
  }

  /** What the unit expression takes a header apart into. */
  lemma UnitDecomposes(raw: string, left: string, right: string) returns (p: Pieces)
    requires UnitMatch(raw) == Some(left + "-" + right) && AllDigits(left) && AllDigits(right)
    ensures Composes(p, raw) && p.left == left && p.right == right
  {
    var w0 := LeftBlank(raw);
    var t := TrimLeft(raw);
    var w1 := LeftBlank(t[5..]);
    var u := TrimLeft(t[5..]);
    var w2 := LeftBlank(u[1..]);
    var v := TrimLeft(u[1..]);
    var w3 := RightBlank(v);
    p := Pieces(w0, t[..5], w1, w2, left, right, w3);
    FirstAndRest(t, 5);
    FirstAndRest(u, 1);
    assert u[..1] == "=";
  }

  lemma FirstAndRest(s: string, n: nat)
    requires n <= |s|
    ensures s == s[..n] + s[n..]
  {
  }

  lemma SpecIff(spec: string, range: RangeSpec)
    ensures ParseSpec(spec) == Valid(range) <==>
      exists left, right ::
        AllDigits(left) && AllDigits(right) && spec == left + "-" + right && Means(left, right, range)
  {
    if ParseSpec(spec) == Valid(range) {
      var dash := IndexOf(spec, '-');
      var left, right := spec[..dash], spec[dash + 1..];
      assert spec == left + "-" + right;
      BoundsIff(left, right, range);
    }
    forall left, right |
      AllDigits(left) && AllDigits(right) && spec == left + "-" + right && Means(left, right, range)
      ensures ParseSpec(spec) == Valid(range)
    {
      SpecIsPlain(left, right);
      BoundsIff(left, right, range);
    }
  }

  /**
   * A Range header is accepted as a range exactly when it is `bytes` in any case, an equals sign
   * and two runs of digits around a dash, with white space anywhere but within the last part, and
   * the digits mean that range.
   */
  lemma AcceptedHeaderIff(raw: string, range: RangeSpec)
    ensures ParseRangeHeader(Some(raw)) == Valid(range) <==>
      exists p :: Composes(p, raw) && Means(p.left, p.right, range)
  {
    if ParseRangeHeader(Some(raw)) == Valid(range) {
      var spec := UnitMatch(raw).value;
      SpecIff(spec, range);
      var left, right :|
        AllDigits(left) && AllDigits(right) && spec == left + "-" + right && Means(left, right, range);
      var p := UnitDecomposes(raw, left, right);
    }
    forall p | Composes(p, raw) && Means(p.left, p.right, range)
      ensures ParseRangeHeader(Some(raw)) == Valid(range)
    {
      ComposedUnit(p, raw);
      SpecIff(p.left + "-" + p.right, range);
    }
  }

  /** Only a missing or empty header counts as none. */
  lemma AbsentIff(raw: Option<string>)
    ensures ParseRangeHeader(raw).Absent? <==> raw.None? || raw.value == []
  {
  }

  // ---------------------------------------------------------------------------
  // What is resolved
  // ---------------------------------------------------------------------------

  /** A range of an object of known size resolves to exactly the bytes it selects; to none only if it selects none. */
  lemma ResolvesToSelection(spec: RangeSpec, total: int)
    requires SafeSpec(spec) && 0 < total <= MAX_SAFE_INTEGER
    ensures ResolveRange(spec, Some(total)).Unsatisfiable? ==> SelectsNothing(spec, total)
    ensures ResolveRange(spec, Some(total)).Satisfiable? ==>
      forall i :: Selects(spec, total, i) <==>
        ResolveRange(spec, Some(total)).start <= i <= ResolveRange(spec, Some(total)).end
  {
  }

  /** Without a header nothing is forwarded and a full body is what was asked for. */
  lemma NoHeaderNoRange(total: Option<int>)
    ensures DecideClientRange(ParseRangeHeader(None), total) == Forward(None)
    ensures Upstream200IsUsable(ParseRangeHeader(None), None)
  {
  }

  // ---------------------------------------------------------------------------
  // The client's parsers
  // ---------------------------------------------------------------------------

  /** `bytes`, white space, and the rest. */
  ghost predicate AfterUnit(value: string, rest: string) {
    exists w :: w != [] && Blank(w) && value == "bytes" + (w + rest)
  }

  lemma AfterBytesIff(value: string, rest: string)
    requires rest != [] && !IsSpace(rest[0])
    ensures AfterBytes(value) == Some(rest) <==> AfterUnit(value, rest)
  {
    if AfterBytes(value) == Some(rest) {
      var w := LeftBlank(value[5..]);
      assert value == value[..5] + value[5..];
      assert (w + rest)[0] == value[5];
      assert w != [];
    }
    forall w | w != [] && Blank(w) && value == "bytes" + (w + rest) ensures AfterBytes(value) == Some(rest) {
      assert value[..5] == "bytes" && value[5..] == w + rest && value[5] == w[0];
      TrimsLeft(w, rest);
    }
  }

  /** Three runs of digits in `a-b/c`. */
  predicate ThreeRuns(rest: string, a: string, b: string, c: string) {
    && a != [] && b != [] && c != [] && AllDigits(a) && AllDigits(b) && AllDigits(c)
    && rest == a + "-" + (b + "/" + c)
  }

  lemma RunsOf(rest: string) returns (a: string, b: string, c: string)
    requires ParseNumbers(rest).Some?
    ensures ThreeRuns(rest, a, b, c)
    ensures ParseNumbers(rest) == CheckContentRange(ParseDigits(a), ParseDigits(b), ParseDigits(c))
  {
    var dash := IndexOf(rest, '-');
    var tail := rest[dash + 1..];
    var slash := IndexOf(tail, '/');
    a, b, c := rest[..dash], tail[..slash], tail[slash + 1..];
    assert tail == b + "/" + c;
    assert rest == a + "-" + tail;
  }

  lemma RunsAreRead(rest: string, a: string, b: string, c: string)
    requires ThreeRuns(rest, a, b, c)
    ensures ParseNumbers(rest) == CheckContentRange(ParseDigits(a), ParseDigits(b), ParseDigits(c))
  {
    SplitNumbers(a, b, c);
  }

  /** The Content-Range value `bytes a-b/c`, and the range its numbers name. */
  ghost predicate NamesRange(value: string, range: ContentRange) {
    && range.start <= range.end < range.total <= 9007199254740991
    && exists rest, a, b, c :: AfterUnit(value, rest) && ThreeRuns(rest, a, b, c) &&
         ParseDigits(a) == range.start && ParseDigits(b) == range.end && ParseDigits(c) == range.total
  }

  lemma RunsStart(rest: string, a: string, b: string, c: string)
    requires ThreeRuns(rest, a, b, c)
    ensures rest != [] && !IsSpace(rest[0])
  {
    assert rest[0] == a[0];
    DigitIsPlain(a[0]);
  }

  /** The client reads exactly such values, and reads the range they name. */
  lemma ContentRangeIff(value: string, range: ContentRange)
    ensures ParseContentRangeValue(value) == Some(range) <==> NamesRange(value, range)
  {
    if ParseContentRangeValue(value) == Some(range) {
      ReadRangeIsNamed(value, range);
    }
    if NamesRange(value, range) {
      NamedRangeIsRead(value, range);
    }
  }

  lemma ReadRangeIsNamed(value: string, range: ContentRange)
    requires ParseContentRangeValue(value) == Some(range)
    ensures NamesRange(value, range)
  {
    var rest := AfterBytes(value).value;
    var a, b, c := RunsOf(rest);
    RunsStart(rest, a, b, c);
    AfterBytesIff(value, rest);
  }

  lemma NamedRangeIsRead(value: string, range: ContentRange)
    requires NamesRange(value, range)
    ensures ParseContentRangeValue(value) == Some(range)
  {
    var rest, a, b, c :| AfterUnit(value, rest) && ThreeRuns(rest, a, b, c) &&
      ParseDigits(a) == range.start && ParseDigits(b) == range.end && ParseDigits(c) == range.total;
    RunsStart(rest, a, b, c);
    AfterBytesIff(value, rest);
    RunsAreRead(rest, a, b, c);
  }

  /** The Content-Range value of a 416 that tells the length `total`. */
  ghost predicate TellsTotal(value: string, total: nat) {
    && total <= 9007199254740991
    && exists w, digits :: AfterUnit(value, "*/" + (w + digits)) && Blank(w) &&
         digits != [] && AllDigits(digits) && ParseDigits(digits) == total
  }

  /** And of a 416 exactly such values. */
  lemma TotalIff(value: string, total: nat)
    ensures ParseUnsatisfiedTotal(value) == Some(total) <==> TellsTotal(value, total)
  {
    if ParseUnsatisfiedTotal(value) == Some(total) {
      var rest := AfterBytes(value).value;
      var w := LeftBlank(rest[2..]);
      assert rest == rest[..2] + rest[2..];
      assert rest[0] == '*';
      AfterBytesIff(value, rest);
      assert rest == "*/" + (w + TrimLeft(rest[2..]));
    }
    if TellsTotal(value, total) {
      var w, digits :| AfterUnit(value, "*/" + (w + digits)) && Blank(w) &&
        digits != [] && AllDigits(digits) && ParseDigits(digits) == total;
      var rest := "*/" + (w + digits);
      assert rest[0] == '*';
      AfterBytesIff(value, rest);
      assert rest[..2] == "*/" && rest[2..] == w + digits;
      DigitIsPlain(digits[0]);
      TrimsLeft(w, digits);
    }
  }
}
