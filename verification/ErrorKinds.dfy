/** What a chunk operation reports for each kind of answer that brings no chunk. */
module ErrorKinds {
  import opened Common
  import opened Text
  import opened Ranges
  import opened RangeGrammar
  import opened RangeBody
  import opened ChunkRequest

  function KindOf(r: Response, start: nat, end: nat): Option<ErrorKind> {
    var c := FetchSingleRange(Arrived(r, false), start, end);
    if c.Errored? then Some(c.error.kind) else None
  }

  /** A Content-Range that keeps the length to itself: `bytes a-b/` and a star, in any letter case. */
  ghost predicate KeepsTotal(value: string) {
    exists unit, w, a, b :: IsUnit(unit) && w != [] && Blank(w) && a != [] && b != [] && AllDigits(a) && AllDigits(b) &&
      value == unit + (w + (a + "-" + (b + "/*")))
  }

  lemma HiddenIsKept(value: string)
    requires HidesTotal(value)
    ensures KeepsTotal(value)
  {
    var w := LeftBlank(value[5..]);
    var rest := TrimLeft(value[5..]);
    var dash := IndexOf(rest, '-');
    var tail := rest[dash + 1..];
    var a, b := rest[..dash], tail[..|tail| - 2];
    assert tail == b + "/*";
    assert rest == a + "-" + (b + "/*");
    assert value == value[..5] + (w + rest);
    assert (w + rest)[0] == value[5];
    DigitIsPlain(a[0]);
    assert IsUnit(value[..5]);
  }

  lemma KeptIsHidden(value: string, unit: string, w: string, a: string, b: string)
    requires IsUnit(unit) && w != [] && Blank(w) && a != [] && b != [] && AllDigits(a) && AllDigits(b)
    requires value == unit + (w + (a + "-" + (b + "/*")))
    ensures HidesTotal(value)
  {
    var rest := a + "-" + (b + "/*");
    assert value[5..] == w + rest && value[5] == w[0];
    DigitIsPlain(a[0]);
    assert rest[0] == a[0];
    TrimsLeft(w, rest);
    IndexOfAfter(a, '-', b + "/*");
    assert a + ['-'] + (b + "/*") == rest;
    assert rest[|a| + 1..] == b + "/*";
  }

  lemma HidesTotalIff(value: string)
    ensures HidesTotal(value) <==> KeepsTotal(value)
  {
    if HidesTotal(value) {
      HiddenIsKept(value);
    }
    forall unit, w, a, b |
      IsUnit(unit) && w != [] && Blank(w) && a != [] && b != [] && AllDigits(a) && AllDigits(b) &&
      value == unit + (w + (a + "-" + (b + "/*")))
      ensures HidesTotal(value)
    {
      KeptIsHidden(value, unit, w, a, b);
    }
  }

  /** The kind of failure that each status other than 206 and 416 stands for. */
  lemma StatusDecides(r: Response, start: nat, end: nat)
    requires r.status != 206 && r.status != 416
    ensures var kind := KindOf(r, start, end);
      && (kind == Some(Unauthorized) <==> r.status == 401 && r.enforced)
      && (kind == Some(RangeUnsupported) <==> r.status == 200)
      && (kind == Some(NotFound) <==> r.status == 404)
      && (kind == Some(RateLimited) <==> r.status == 429)
      && (kind == Some(Permanent) <==>
            400 <= r.status < 500 && r.status != 404 && r.status != 429 && !(r.status == 401 && r.enforced))
      && (kind == Some(ServerUnavailable) <==> r.status != 200 && !(400 <= r.status < 500))
  {
  }

  /**
   * A 206 that brings no chunk: the length is kept back, or the time ran out, or the connection
   * was lost, or else something about the range is wrong.
   */
  lemma PartialFailures(r: Response, start: nat, end: nat)
    requires r.status == 206 && r.contentRange.Some?
    ensures var kind, range := KindOf(r, start, end), ParseContentRangeValue(r.contentRange.value);
      && (kind == Some(RangeTotalUnknown) <==> range.None? && KeepsTotal(r.contentRange.value))
      && (kind == Some(Timeout) || kind == Some(Offline) ==> BreaksOff(r, start, end))
      && (kind.Some? ==> kind == Some(RangeTotalUnknown) || kind == Some(Timeout) || kind == Some(Offline)
                         || kind == Some(RangeInvalid))
  {
    HidesTotalIff(r.contentRange.value);
    assert Classify(r, start, end) == Accept(r, start, end);
    AcceptPasses(r, start, end);
  }
}
