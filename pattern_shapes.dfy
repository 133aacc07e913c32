/**
 * What each matcher of module Patterns finds, stated without its greedy runs.
 *
 * For every pattern, a predicate `XxxShape` reads the regular expression of
 * ticket_parser.py piece by piece over explicit positions of s: where each
 * repeated class starts and stops, which literal character stands where, and
 * the condition under which a greedy quantifier stops. The lemma `XxxAtSpec`
 * then connects the matcher with its shape in both directions:
 *   - the matcher succeeds at p exactly when the pattern's shape stands at p;
 *   - for every position at which the shape stands, the matcher returns the
 *     match whose groups are the slices of s between those positions.
 * Together these pin the result down completely: each group is a slice of s,
 * and the greedy extents (the longest digit run, the largest identity width
 * that fits, at most six name characters) are part of the shape.
 */
module PatternShapes {
  import opened Text
  import opened Patterns

  // ---------------------------------------------------------------------
  // Pieces shared by several patterns
  // ---------------------------------------------------------------------

  /**
   * `\d{4}年\d{1,2}月\d{1,2}日` stands at p: 月 at m, 日 at e - 1, so that the
   * date text is s[p..e].
   */
  predicate DateStands(s: string, p: nat, m: nat, e: nat)
  {
    p + 6 <= m <= p + 7 && m + 3 <= e <= m + 4 && e <= |s|
    && AllIn(s, p, p + 4, Digit) && s[p + 4] == '年'
    && AllIn(s, p + 5, m, Digit) && s[m] == '月'
    && AllIn(s, m + 1, e - 1, Digit) && s[e - 1] == '日'
  }

  lemma DateAtStands(s: string, p: nat, m: nat, e: nat)
    requires DateStands(s, p, m, e)
    ensures DateAt(s, p) == Some(e)
  {
    assert Skip(s, p + 5, Digit) == m by {
      SkipStops(s, p + 5, m, Digit);
    }
    assert Skip(s, m + 1, Digit) == e - 1 by {
      SkipStops(s, m + 1, e - 1, Digit);
    }
  }

  lemma DateAtFound(s: string, p: nat)
    requires p <= |s| && DateAt(s, p).Some?
    ensures DateStands(s, p, Skip(s, p + 5, Digit), DateAt(s, p).value)
  {
  }

  lemma DateAtSpec(s: string, p: nat)
    requires p <= |s|
    ensures DateAt(s, p).Some? <==> exists m: nat, e: nat :: DateStands(s, p, m, e)
    ensures forall m: nat, e: nat :: DateStands(s, p, m, e) ==> DateAt(s, p) == Some(e)
  {
    forall m: nat, e: nat | DateStands(s, p, m, e) ensures DateAt(s, p) == Some(e) {
      DateAtStands(s, p, m, e);
    }
    if DateAt(s, p).Some? {
      DateAtFound(s, p);
    }
  }

  /** `\d{1,2}:\d{2}` stands at q and ends at t: the colon is at t - 3. */
  predicate ClockStands(s: string, q: nat, t: nat)
  {
    q + 4 <= t <= q + 5 && t <= |s|
    && AllIn(s, q, t - 3, Digit) && s[t - 3] == ':' && AllIn(s, t - 2, t, Digit)
  }

  lemma ClockAtStands(s: string, q: nat, t: nat)
    requires ClockStands(s, q, t)
    ensures ClockAt(s, q) == Some(t)
  {
    SkipStops(s, q, t - 3, Digit);
  }

  lemma ClockAtFound(s: string, q: nat)
    requires q <= |s| && ClockAt(s, q).Some?
    ensures ClockStands(s, q, ClockAt(s, q).value)
  {
  }

  lemma ClockAtSpec(s: string, q: nat)
    requires q <= |s|
    ensures ClockAt(s, q).Some? <==> exists t: nat :: ClockStands(s, q, t)
    ensures forall t: nat :: ClockStands(s, q, t) ==> ClockAt(s, q) == Some(t)
  {
    forall t: nat | ClockStands(s, q, t) ensures ClockAt(s, q) == Some(t) {
      ClockAtStands(s, q, t);
    }
    if ClockAt(s, q).Some? {
      assert ClockStands(s, q, ClockAt(s, q).value);
    }
  }

  /** `\d+[A-F]?号` stands at q with 号 at e: the seat text is s[q..e]. */
  predicate SeatStands(s: string, q: nat, e: nat)
  {
    q < e < |s| && s[e] == '号' && AllIn(s, q, e - 1, Digit)
    && (IsDigit(s[e - 1]) || (q < e - 1 && IsSeatLetter(s[e - 1])))
  }

  lemma SeatEndAtStands(s: string, q: nat, e: nat)
    requires SeatStands(s, q, e)
    ensures SeatEndAt(s, q) == Some(e + 1)
  {
    if IsDigit(s[e - 1]) {
      SkipStops(s, q, e, Digit);
    } else {
      SkipStops(s, q, e - 1, Digit);
    }
  }

  lemma SeatEndAtSpec(s: string, q: nat)
    requires q <= |s|
    ensures SeatEndAt(s, q).Some? <==> exists e: nat :: SeatStands(s, q, e)
    ensures forall e: nat :: SeatStands(s, q, e) ==> SeatEndAt(s, q) == Some(e + 1)
  {
    forall e: nat | SeatStands(s, q, e) ensures SeatEndAt(s, q) == Some(e + 1) {
      SeatEndAtStands(s, q, e);
    }
    if SeatEndAt(s, q).Some? {
      assert SeatStands(s, q, SeatEndAt(s, q).value - 1);
    }
  }

  // ---------------------------------------------------------------------
  // Date and time (block 3)
  // ---------------------------------------------------------------------

  /** The date standing at p and the blanks after it, up to a non-blank at q. */
  lemma DateThenSpaceAt(s: string, p: nat, m: nat, e: nat, q: nat)
    requires DateStands(s, p, m, e) && e <= q < |s| && AllIn(s, e, q, Space) && !IsSpace(s[q])
    ensures DateThenSpace(s, p) == Some((e, q))
  {
    assert DateAt(s, p) == Some(e) by {
      DateAtStands(s, p, m, e);
    }
    assert Skip(s, e, Space) == q by {
      SkipStops(s, e, q, Space);
    }
  }

  /** `(date)\s*(\d{1,2}:\d{2})`: the date ends at e, blanks run to q, the clock is s[q..t]. */
  predicate DateTimeColonShape(s: string, p: nat, m: nat, e: nat, q: nat, t: nat)
  {
    DateStands(s, p, m, e) && e <= q && ClockStands(s, q, t) && AllIn(s, e, q, Space)
  }

  lemma DateTimeColonAtStands(s: string, p: nat, m: nat, e: nat, q: nat, t: nat)
    requires DateTimeColonShape(s, p, m, e, q, t)
    ensures DateTimeColonAt(s, p) == Some(Match(p, t, [s[p..t], s[p..e], s[q..t]]))
  {
    assert IsDigit(s[q]);
    assert DateThenSpace(s, p) == Some((e, q)) by {
      DateThenSpaceAt(s, p, m, e, q);
    }
    assert ClockAt(s, q) == Some(t) by {
      ClockAtStands(s, q, t);
    }
    DateTimeColonAtWith(s, p, e, q, t);
  }

  lemma DateTimeColonAtWith(s: string, p: nat, e: nat, q: nat, t: nat)
    requires p <= e <= q <= t <= |s|
    requires DateThenSpace(s, p) == Some((e, q)) && ClockAt(s, q) == Some(t)
    ensures DateTimeColonAt(s, p) == Some(Match(p, t, [s[p..t], s[p..e], s[q..t]]))
  {
  }

  lemma DateTimeColonAtFound(s: string, p: nat)
    requires p <= |s| && DateTimeColonAt(s, p).Some?
    ensures DateThenSpace(s, p).Some?
    ensures DateTimeColonShape(s, p, Skip(s, p + 5, Digit), DateThenSpace(s, p).value.0,
      DateThenSpace(s, p).value.1, DateTimeColonAt(s, p).value.end)
  {
    var (e, q) := DateThenSpace(s, p).value;
    assert DateStands(s, p, Skip(s, p + 5, Digit), e) by {
      DateAtFound(s, p);
    }
    assert ClockStands(s, q, ClockAt(s, q).value) by {
      ClockAtFound(s, q);
    }
  }

  lemma DateTimeColonAtSpec(s: string, p: nat)
    requires p <= |s|
    ensures DateTimeColonAt(s, p).Some? <==>
      exists m: nat, e: nat, q: nat, t: nat :: DateTimeColonShape(s, p, m, e, q, t)
    ensures forall m: nat, e: nat, q: nat, t: nat :: DateTimeColonShape(s, p, m, e, q, t) ==>
      DateTimeColonAt(s, p) == Some(Match(p, t, [s[p..t], s[p..e], s[q..t]]))
  {
    forall m: nat, e: nat, q: nat, t: nat | DateTimeColonShape(s, p, m, e, q, t)
      ensures DateTimeColonAt(s, p) == Some(Match(p, t, [s[p..t], s[p..e], s[q..t]]))
    {
      DateTimeColonAtStands(s, p, m, e, q, t);
    }
    if DateTimeColonAt(s, p).Some? {
      DateTimeColonAtFound(s, p);
    }
  }

  /** `(date)\s*(\d{1,2}:\d{2})开`: the same, with 开 right after the clock. */
  predicate DateTimeOpenShape(s: string, p: nat, m: nat, e: nat, q: nat, t: nat)
  {
    DateTimeColonShape(s, p, m, e, q, t) && t < |s| && s[t] == '开'
  }

  lemma DateTimeOpenAtStands(s: string, p: nat, m: nat, e: nat, q: nat, t: nat)
    requires DateTimeOpenShape(s, p, m, e, q, t)
    ensures DateTimeOpenAt(s, p) == Some(Match(p, t + 1, [s[p..t + 1], s[p..e], s[q..t]]))
  {
    assert DateThenSpace(s, p) == Some((e, q)) by {
      assert IsDigit(s[q]);
      DateThenSpaceAt(s, p, m, e, q);
    }
    assert ClockAt(s, q) == Some(t) by {
      ClockAtStands(s, q, t);
    }
    DateTimeOpenAtWith(s, p, e, q, t);
  }

  lemma DateTimeOpenAtWith(s: string, p: nat, e: nat, q: nat, t: nat)
    requires p <= e <= q <= t < |s| && s[t] == '开'
    requires DateThenSpace(s, p) == Some((e, q)) && ClockAt(s, q) == Some(t)
    ensures DateTimeOpenAt(s, p) == Some(Match(p, t + 1, [s[p..t + 1], s[p..e], s[q..t]]))
  {
    var r := DateThenSpace(s, p).value;
    assert r.0 == e && r.1 == q;
  }

  lemma DateTimeOpenAtFound(s: string, p: nat)
    requires p <= |s| && DateTimeOpenAt(s, p).Some?
    ensures DateThenSpace(s, p).Some? && ClockAt(s, DateThenSpace(s, p).value.1).Some?
    ensures DateTimeOpenShape(s, p, Skip(s, p + 5, Digit), DateThenSpace(s, p).value.0,
      DateThenSpace(s, p).value.1, ClockAt(s, DateThenSpace(s, p).value.1).value)
  {
    var (e, q) := DateThenSpace(s, p).value;
    assert DateStands(s, p, Skip(s, p + 5, Digit), e) by {
      DateAtFound(s, p);
    }
    assert ClockStands(s, q, ClockAt(s, q).value) by {
      ClockAtFound(s, q);
    }
  }

  lemma DateTimeOpenAtSpec(s: string, p: nat)
    requires p <= |s|
    ensures DateTimeOpenAt(s, p).Some? <==>
      exists m: nat, e: nat, q: nat, t: nat :: DateTimeOpenShape(s, p, m, e, q, t)
    ensures forall m: nat, e: nat, q: nat, t: nat :: DateTimeOpenShape(s, p, m, e, q, t) ==>
      DateTimeOpenAt(s, p) == Some(Match(p, t + 1, [s[p..t + 1], s[p..e], s[q..t]]))
  {
    forall m: nat, e: nat, q: nat, t: nat | DateTimeOpenShape(s, p, m, e, q, t)
      ensures DateTimeOpenAt(s, p) == Some(Match(p, t + 1, [s[p..t + 1], s[p..e], s[q..t]]))
    {
      DateTimeOpenAtStands(s, p, m, e, q, t);
    }
    if DateTimeOpenAt(s, p).Some? {
      DateTimeOpenAtFound(s, p);
    }
  }

  /** `(date)\s*(\d{2})(\d{2})`: blanks run from e to q, then four digits. */
  predicate DateTimeBareShape(s: string, p: nat, m: nat, e: nat, q: nat)
  {
    DateStands(s, p, m, e) && e <= q && q + 4 <= |s| && AllIn(s, e, q, Space) && AllIn(s, q, q + 4, Digit)
  }

  lemma DateTimeBareAtStands(s: string, p: nat, m: nat, e: nat, q: nat)
    requires DateTimeBareShape(s, p, m, e, q)
    ensures DateTimeBareAt(s, p) == Some(Match(p, q + 4, [s[p..q + 4], s[p..e], s[q..q + 2], s[q + 2..q + 4]]))
  {
    assert IsDigit(s[q]);
    assert DateThenSpace(s, p) == Some((e, q)) by {
      DateThenSpaceAt(s, p, m, e, q);
    }
    DateTimeBareAtWith(s, p, e, q);
  }

  lemma DateTimeBareAtWith(s: string, p: nat, e: nat, q: nat)
    requires p <= e <= q && q + 4 <= |s| && DateThenSpace(s, p) == Some((e, q)) && AllIn(s, q, q + 4, Digit)
    ensures DateTimeBareAt(s, p) == Some(Match(p, q + 4, [s[p..q + 4], s[p..e], s[q..q + 2], s[q + 2..q + 4]]))
  {
  }

  lemma DateTimeBareAtFound(s: string, p: nat)
    requires p <= |s| && DateTimeBareAt(s, p).Some?
    ensures DateThenSpace(s, p).Some?
    ensures DateTimeBareShape(s, p, Skip(s, p + 5, Digit), DateThenSpace(s, p).value.0, DateThenSpace(s, p).value.1)
  {
    assert DateStands(s, p, Skip(s, p + 5, Digit), DateThenSpace(s, p).value.0) by {
      DateAtFound(s, p);
    }
  }

  lemma DateTimeBareAtSpec(s: string, p: nat)
    requires p <= |s|
    ensures DateTimeBareAt(s, p).Some? <==>
      exists m: nat, e: nat, q: nat :: DateTimeBareShape(s, p, m, e, q)
    ensures forall m: nat, e: nat, q: nat :: DateTimeBareShape(s, p, m, e, q) ==>
      DateTimeBareAt(s, p) == Some(Match(p, q + 4, [s[p..q + 4], s[p..e], s[q..q + 2], s[q + 2..q + 4]]))
  {
    forall m: nat, e: nat, q: nat | DateTimeBareShape(s, p, m, e, q)
      ensures DateTimeBareAt(s, p) == Some(Match(p, q + 4, [s[p..q + 4], s[p..e], s[q..q + 2], s[q + 2..q + 4]]))
    {
      DateTimeBareAtStands(s, p, m, e, q);
    }
    if DateTimeBareAt(s, p).Some? {
      DateTimeBareAtFound(s, p);
    }
  }

  // ---------------------------------------------------------------------
  // Carriage, seat and berth (blocks 4-6)
  // ---------------------------------------------------------------------

  /** `(\d+)车`: digits from p to c, 车 at c. */
  predicate CarriageShape(s: string, p: nat, c: nat)
  {
    p < c < |s| && AllIn(s, p, c, Digit) && s[c] == '车'
  }

  lemma CarriageAtSpec(s: string, p: nat)
    requires p <= |s|
    ensures CarriageAt(s, p).Some? <==> exists c: nat :: CarriageShape(s, p, c)
    ensures forall c: nat :: CarriageShape(s, p, c) ==> CarriageAt(s, p) == Some(Match(p, c + 1, [s[p..c + 1], s[p..c]]))
  {
    forall c: nat | CarriageShape(s, p, c) ensures CarriageAt(s, p) == Some(Match(p, c + 1, [s[p..c + 1], s[p..c]])) {
      SkipStops(s, p, c, Digit);
    }
    if CarriageAt(s, p).Some? {
      assert CarriageShape(s, p, Skip(s, p, Digit));
    }
  }

  /** `(\d+[A-F]?)号`: the seat text s[p..e], 号 at e. */
  lemma SeatAtSpec(s: string, p: nat)
    requires p <= |s|
    ensures SeatAt(s, p).Some? <==> exists e: nat :: SeatStands(s, p, e)
    ensures forall e: nat :: SeatStands(s, p, e) ==> SeatAt(s, p) == Some(Match(p, e + 1, [s[p..e + 1], s[p..e]]))
  {
    SeatEndAtSpec(s, p);
  }

  /** `(\d+)车(\d+[A-F]?)号`: carriage digits up to 车 at c, seat text up to 号 at e. */
  predicate ComboShape(s: string, p: nat, c: nat, e: nat)
  {
    CarriageShape(s, p, c) && SeatStands(s, c + 1, e)
  }

  lemma ComboAtStands(s: string, p: nat, c: nat, e: nat)
    requires ComboShape(s, p, c, e)
    ensures ComboAt(s, p) == Some(ComboMatch(s, p, c, e + 1))
  {
    assert Skip(s, p, Digit) == c by {
      SkipStops(s, p, c, Digit);
    }
    var f := e + 1;
    assert SeatEndAt(s, c + 1) == Some(f) by {
      SeatEndAtStands(s, c + 1, e);
    }
    ComboAtWith(s, p, c, f);
  }

  lemma ComboAtWith(s: string, p: nat, c: nat, f: nat)
    requires p < c < |s| && s[c] == '车' && Skip(s, p, Digit) == c && SeatEndAt(s, c + 1) == Some(f)
    ensures ComboAt(s, p) == Some(ComboMatch(s, p, c, f))
  {
    assert ComboEnds(s, p) == Some((c, f));
  }

  lemma ComboAtFound(s: string, p: nat)
    requires p <= |s| && ComboAt(s, p).Some?
    ensures Skip(s, p, Digit) < |s| && SeatEndAt(s, Skip(s, p, Digit) + 1).Some?
    ensures ComboShape(s, p, Skip(s, p, Digit), SeatEndAt(s, Skip(s, p, Digit) + 1).value - 1)
  {
    var q := Skip(s, p, Digit) + 1;
    assert SeatStands(s, q, SeatEndAt(s, q).value - 1);
  }

  lemma ComboAtSpec(s: string, p: nat)
    requires p <= |s|
    ensures ComboAt(s, p).Some? <==> exists c: nat, e: nat :: ComboShape(s, p, c, e)
    ensures forall c: nat, e: nat :: ComboShape(s, p, c, e) ==> ComboAt(s, p) == Some(ComboMatch(s, p, c, e + 1))
  {
    forall c: nat, e: nat | ComboShape(s, p, c, e) ensures ComboAt(s, p) == Some(ComboMatch(s, p, c, e + 1)) {
      ComboAtStands(s, p, c, e);
    }
    if ComboAt(s, p).Some? {
      ComboAtFound(s, p);
    }
  }

  // ---------------------------------------------------------------------
  // Price (block 8)
  // ---------------------------------------------------------------------

  /**
   * `(\d+\.?\d*)` stands at q and ends at e: its integer digits run from q to d
   * and stop before a non-digit; a '.' at d is taken together with the digits
   * after it, which stop at e before a non-digit; any other character at d
   * ends the group there.
   */
  predicate PriceGroupShape(s: string, q: nat, d: nat, e: nat)
  {
    q < d <= e <= |s| && AllIn(s, q, d, Digit) && (d == |s| || !IsDigit(s[d]))
    && (if d < |s| && s[d] == '.' then d < e && AllIn(s, d + 1, e, Digit) && (e == |s| || !IsDigit(s[e]))
        else e == d)
  }

  lemma PriceGroupEndStands(s: string, q: nat, d: nat, e: nat)
    requires PriceGroupShape(s, q, d, e)
    ensures PriceGroupEnd(s, q) == e
  {
    SkipStops(s, q, d, Digit);
    if d < |s| && s[d] == '.' {
      SkipStops(s, d + 1, e, Digit);
    }
  }

  lemma PriceGroupEndFound(s: string, q: nat)
    requires q < |s| && IsDigit(s[q])
    ensures PriceGroupShape(s, q, Skip(s, q, Digit), PriceGroupEnd(s, q))
  {
  }

  /** Where the price group starts: after the ￥ when there is one. */
  function PriceStart(s: string, p: nat): (q: nat)
    requires p < |s|
    ensures q == p + 1 <==> s[p] == '￥'
    ensures q == p <==> s[p] != '￥'
  {
    if s[p] == '￥' then p + 1 else p
  }

  /** `￥?(\d+\.?\d*)元?` at p: the group s[q..e] after an optional ￥. */
  predicate PriceShape(s: string, p: nat, q: nat, d: nat, e: nat)
  {
    p < |s| && q == PriceStart(s, p) && PriceGroupShape(s, q, d, e)
  }

  /** Where the match ends: after the price group, and after 元 when 元 follows it. */
  function YuanEnd(s: string, e: nat): (r: nat)
    requires e <= |s|
    ensures e <= r <= |s|
    ensures r == e + 1 <==> e < |s| && s[e] == '元'
  {
    if e < |s| && s[e] == '元' then e + 1 else e
  }

  lemma PriceAtWith(s: string, p: nat, e: nat)
    requires p < |s| && PriceStart(s, p) < |s| && IsDigit(s[PriceStart(s, p)])
    requires PriceGroupEnd(s, PriceStart(s, p)) == e
    ensures PriceAt(s, p) == Some(Match(p, YuanEnd(s, e), [s[p..YuanEnd(s, e)], s[PriceStart(s, p)..e]]))
  {
  }

  lemma PriceAtStands(s: string, p: nat, q: nat, d: nat, e: nat)
    requires PriceShape(s, p, q, d, e)
    ensures PriceAt(s, p) == Some(Match(p, YuanEnd(s, e), [s[p..YuanEnd(s, e)], s[q..e]]))
  {
    assert PriceGroupEnd(s, q) == e by {
      PriceGroupEndStands(s, q, d, e);
    }
    PriceAtWith(s, p, e);
  }

  lemma PriceAtFound(s: string, p: nat)
    requires p <= |s| && PriceAt(s, p).Some?
    ensures p < |s| && PriceStart(s, p) < |s| && IsDigit(s[PriceStart(s, p)])
    ensures PriceShape(s, p, PriceStart(s, p), Skip(s, PriceStart(s, p), Digit),
      PriceGroupEnd(s, PriceStart(s, p)))
  {
    PriceGroupEndFound(s, PriceStart(s, p));
  }

  lemma PriceAtSpec(s: string, p: nat)
    requires p <= |s|
    ensures PriceAt(s, p).Some? <==> exists q: nat, d: nat, e: nat :: PriceShape(s, p, q, d, e)
    ensures forall q: nat, d: nat, e: nat :: PriceShape(s, p, q, d, e) ==>
      PriceAt(s, p) == Some(Match(p, YuanEnd(s, e), [s[p..YuanEnd(s, e)], s[q..e]]))
  {
    forall q: nat, d: nat, e: nat | PriceShape(s, p, q, d, e)
      ensures PriceAt(s, p) == Some(Match(p, YuanEnd(s, e), [s[p..YuanEnd(s, e)], s[q..e]]))
    {
      PriceAtStands(s, p, q, d, e);
    }
    if PriceAt(s, p).Some? {
      PriceAtFound(s, p);
    }
  }

  // ---------------------------------------------------------------------
  // Passenger name (block 11)
  // ---------------------------------------------------------------------

  /** `[\d\*]{w}[\dXx]{tail}` at q, followed by a CJK character. */
  predicate IdFits(s: string, q: nat, w: nat, tail: nat)
  {
    q + w + tail < |s| && AllIn(s, q, q + w, DigitOrStar) && AllIn(s, q + w, q + w + tail, DigitOrX)
    && IsCjk(s[q + w + tail])
  }

  /** w is the largest width from lo to lo + 2 that fits: the one a greedy `{lo,lo+2}` settles on. */
  predicate LargestFit(s: string, q: nat, lo: nat, tail: nat, w: nat)
  {
    lo <= w <= lo + 2 && IdFits(s, q, w, tail) && forall v: nat :: w < v <= lo + 2 ==> !IdFits(s, q, v, tail)
  }

  /** Trying the widths lo + 2, lo + 1, lo in turn: the first that fits is found. */
  lemma IdWidthTries(s: string, q: nat, lo: nat, tail: nat)
    requires q <= |s|
    ensures IdWidth(s, q, [lo + 2, lo + 1, lo], tail) ==
      if IdFits(s, q, lo + 2, tail) then Some(lo + 2)
      else if IdFits(s, q, lo + 1, tail) then Some(lo + 1)
      else if IdFits(s, q, lo, tail) then Some(lo)
      else None
  {
    var ws: seq<nat> := [lo + 2, lo + 1, lo];
    assert ws[1..] == [lo + 1, lo] && ws[1..][1..] == [lo] && [lo][1..] == [];
    IdWidthStep(s, q, [lo], tail);
    IdWidthStep(s, q, [lo + 1, lo], tail);
    IdWidthStep(s, q, ws, tail);
  }

  /** One try: the first width is taken when it fits, and the rest are tried otherwise. */
  lemma IdWidthStep(s: string, q: nat, ws: seq<nat>, tail: nat)
    requires q <= |s| && ws != []
    ensures IdWidth(s, q, ws, tail) == if IdFits(s, q, ws[0], tail) then Some(ws[0]) else IdWidth(s, q, ws[1..], tail)
  {}

  /** So the width found is the largest that fits, and none is found when no width fits. */
  lemma IdWidthCases(s: string, q: nat, lo: nat, tail: nat)
    requires q <= |s|
    ensures IdWidth(s, q, [lo + 2, lo + 1, lo], tail).Some? ==>
      LargestFit(s, q, lo, tail, IdWidth(s, q, [lo + 2, lo + 1, lo], tail).value)
    ensures IdWidth(s, q, [lo + 2, lo + 1, lo], tail).None? ==>
      !IdFits(s, q, lo + 2, tail) && !IdFits(s, q, lo + 1, tail) && !IdFits(s, q, lo, tail)
  {
    IdWidthTries(s, q, lo, tail);
  }

  /** The largest width that fits is the one found. */
  lemma IdWidthLargest(s: string, q: nat, lo: nat, tail: nat, w: nat)
    requires q <= |s| && LargestFit(s, q, lo, tail, w)
    ensures IdWidth(s, q, [lo + 2, lo + 1, lo], tail) == Some(w)
  {
    IdWidthCases(s, q, lo, tail);
  }

  lemma IdWidthSpec(s: string, q: nat, lo: nat, tail: nat)
    requires q <= |s|
    ensures IdWidth(s, q, [lo + 2, lo + 1, lo], tail).Some? <==> exists w: nat :: LargestFit(s, q, lo, tail, w)
    ensures forall w: nat :: LargestFit(s, q, lo, tail, w) ==> IdWidth(s, q, [lo + 2, lo + 1, lo], tail) == Some(w)
  {
    forall w: nat | LargestFit(s, q, lo, tail, w) ensures IdWidth(s, q, [lo + 2, lo + 1, lo], tail) == Some(w) {
      IdWidthLargest(s, q, lo, tail, w);
    }
    IdWidthCases(s, q, lo, tail);
  }

  /** `(\d{6})([\d\*]{8,10})([\dXx]{4})([CJK]+)`: the largest middle width w that fits, the name up to e. */
  predicate IdNameShape(s: string, p: nat, w: nat, e: nat)
  {
    p + 6 <= |s| && AllIn(s, p, p + 6, Digit) && LargestFit(s, p + 6, 8, 4, w)
    && p + 10 + w < e <= |s| && AllIn(s, p + 10 + w, e, Cjk) && (e == |s| || !IsCjk(s[e]))
  }

  lemma IdNameAtWidth(s: string, p: nat, w: nat, e: nat)
    requires p + 6 <= |s| && AllIn(s, p, p + 6, Digit) && IdWidth(s, p + 6, [10, 9, 8], 4) == Some(w)
    requires p + 10 + w <= e <= |s| && Skip(s, p + 10 + w, Cjk) == e
    ensures IdNameAt(s, p) == Some(IdNameMatch(s, p, w, e))
  {
  }

  lemma IdNameAtStands(s: string, p: nat, w: nat, e: nat)
    requires IdNameShape(s, p, w, e)
    ensures IdNameAt(s, p) == Some(Match(p, e, [s[p..e], s[p..p + 6], s[p + 6..p + 6 + w], s[p + 6 + w..p + 10 + w], s[p + 10 + w..e]]))
  {
    assert IdWidth(s, p + 6, [10, 9, 8], 4) == Some(w) by {
      IdWidthLargest(s, p + 6, 8, 4, w);
    }
    assert Skip(s, p + 10 + w, Cjk) == e by {
      SkipStops(s, p + 10 + w, e, Cjk);
    }
    assert IdNameAt(s, p) == Some(IdNameMatch(s, p, w, e)) by {
      IdNameAtWidth(s, p, w, e);
    }
  }

  lemma IdNameAtFound(s: string, p: nat)
    requires p <= |s| && IdNameAt(s, p).Some?
    ensures p + 6 <= |s| && IdWidth(s, p + 6, [10, 9, 8], 4).Some?
    ensures IdNameShape(s, p, IdWidth(s, p + 6, [10, 9, 8], 4).value, IdNameAt(s, p).value.end)
  {
    IdWidthCases(s, p + 6, 8, 4);
  }

  lemma IdNameAtSpec(s: string, p: nat)
    requires p <= |s|
    ensures IdNameAt(s, p).Some? <==> exists w: nat, e: nat :: IdNameShape(s, p, w, e)
    ensures forall w: nat, e: nat :: IdNameShape(s, p, w, e) ==>
      IdNameAt(s, p) == Some(Match(p, e, [s[p..e], s[p..p + 6], s[p + 6..p + 6 + w], s[p + 6 + w..p + 10 + w], s[p + 10 + w..e]]))
  {
    forall w: nat, e: nat | IdNameShape(s, p, w, e)
      ensures IdNameAt(s, p) == Some(Match(p, e, [s[p..e], s[p..p + 6], s[p + 6..p + 6 + w], s[p + 6 + w..p + 10 + w], s[p + 10 + w..e]]))
    {
      IdNameAtStands(s, p, w, e);
    }
    if IdNameAt(s, p).Some? {
      IdNameAtFound(s, p);
    }
  }

  /** `[\d\*]{15,17}[\dXx]([CJK]+)`: the largest width k that fits, the name from p + k + 1 up to e. */
  predicate LooseIdNameShape(s: string, p: nat, k: nat, e: nat)
  {
    LargestFit(s, p, 15, 1, k) && p + k + 1 < e <= |s| && AllIn(s, p + k + 1, e, Cjk) && (e == |s| || !IsCjk(s[e]))
  }

  lemma LooseIdNameAtStands(s: string, p: nat, k: nat, e: nat)
    requires p <= |s| && LooseIdNameShape(s, p, k, e)
    ensures LooseIdNameAt(s, p) == Some(Match(p, e, [s[p..e], s[p + k + 1..e]]))
  {
    assert IdWidth(s, p, [17, 16, 15], 1) == Some(k) by {
      IdWidthLargest(s, p, 15, 1, k);
    }
    assert Skip(s, p + k + 1, Cjk) == e by {
      SkipStops(s, p + k + 1, e, Cjk);
    }
  }

  lemma LooseIdNameAtFound(s: string, p: nat)
    requires p <= |s| && LooseIdNameAt(s, p).Some?
    ensures IdWidth(s, p, [17, 16, 15], 1).Some?
    ensures LooseIdNameShape(s, p, IdWidth(s, p, [17, 16, 15], 1).value, LooseIdNameAt(s, p).value.end)
  {
    IdWidthCases(s, p, 15, 1);
  }

  lemma LooseIdNameAtSpec(s: string, p: nat)
    requires p <= |s|
    ensures LooseIdNameAt(s, p).Some? <==> exists k: nat, e: nat :: LooseIdNameShape(s, p, k, e)
    ensures forall k: nat, e: nat :: LooseIdNameShape(s, p, k, e) ==>
      LooseIdNameAt(s, p) == Some(Match(p, e, [s[p..e], s[p + k + 1..e]]))
  {
    forall k: nat, e: nat | LooseIdNameShape(s, p, k, e)
      ensures LooseIdNameAt(s, p) == Some(Match(p, e, [s[p..e], s[p + k + 1..e]]))
    {
      LooseIdNameAtStands(s, p, k, e);
    }
    if LooseIdNameAt(s, p).Some? {
      LooseIdNameAtFound(s, p);
    }
  }

  /**
   * `\d+\s+([CJK]{2,6})`: digits from p to a, blanks from a to b, and the
   * name s[b..n] of two to six CJK characters, which stops at six or where the
   * CJK characters end.
   */
  predicate NumberNameShape(s: string, p: nat, a: nat, b: nat, n: nat)
  {
    p < a < b && b + 2 <= n <= b + 6 && n <= |s|
    && AllIn(s, p, a, Digit) && AllIn(s, a, b, Space) && AllIn(s, b, n, Cjk)
    && (n == b + 6 || n == |s| || !IsCjk(s[n]))
  }

  lemma NumberNameAtStands(s: string, p: nat, a: nat, b: nat, n: nat)
    requires NumberNameShape(s, p, a, b, n)
    ensures NumberNameAt(s, p) == Some(Match(p, n, [s[p..n], s[b..n]]))
  {
    assert Skip(s, p, Digit) == a by {
      assert IsSpace(s[a]);
      SkipStops(s, p, a, Digit);
    }
    assert Skip(s, a, Space) == b by {
      assert IsCjk(s[b]);
      SkipStops(s, a, b, Space);
    }
    assert Min(b + 6, Skip(s, b, Cjk)) == n by {
      SkipCovers(s, b, n, Cjk);
      if n < b + 6 {
        SkipStops(s, b, n, Cjk);
      }
    }
    NumberNameAtWith(s, p, a, b, n);
  }

  lemma NumberNameAtWith(s: string, p: nat, a: nat, b: nat, n: nat)
    requires p < a < b < n <= |s| && b + 2 <= n
    requires Skip(s, p, Digit) == a && Skip(s, a, Space) == b && Min(b + 6, Skip(s, b, Cjk)) == n
    ensures NumberNameAt(s, p) == Some(Match(p, n, [s[p..n], s[b..n]]))
  {
  }

  lemma NumberNameAtFound(s: string, p: nat)
    requires p <= |s| && NumberNameAt(s, p).Some?
    ensures NumberNameShape(s, p, Skip(s, p, Digit), Skip(s, Skip(s, p, Digit), Space),
      NumberNameAt(s, p).value.end)
  {
  }

  lemma NumberNameAtSpec(s: string, p: nat)
    requires p <= |s|
    ensures NumberNameAt(s, p).Some? <==> exists a: nat, b: nat, n: nat :: NumberNameShape(s, p, a, b, n)
    ensures forall a: nat, b: nat, n: nat :: NumberNameShape(s, p, a, b, n) ==>
      NumberNameAt(s, p) == Some(Match(p, n, [s[p..n], s[b..n]]))
  {
    forall a: nat, b: nat, n: nat | NumberNameShape(s, p, a, b, n)
      ensures NumberNameAt(s, p) == Some(Match(p, n, [s[p..n], s[b..n]]))
    {
      NumberNameAtStands(s, p, a, b, n);
    }
    if NumberNameAt(s, p).Some? {
      NumberNameAtFound(s, p);
    }
  }
}
