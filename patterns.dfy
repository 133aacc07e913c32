/**
 * The regular expressions of parse_ticket_info (ticket_parser.py:51-214),
 * each as a hand-written matcher over strings instead of a regex engine.
 *
 * `XxxAt(s, p)` says whether the pattern matches starting at position p and,
 * if so, what the match is. Python's `re` tries the alternatives of a greedy
 * quantifier longest first and backtracks on failure. Each matcher builds in
 * the choice that search ends with. A repeated class takes its longest run,
 * and `{2,6}` stops at six: what follows such a run either cannot start with a
 * character of the run's class or can match the empty text, so backtracking
 * into the run never helps. The two identity-number patterns, where it does,
 * try their widths in the greedy order (10, 9, 8 and 17, 16, 15), and the
 * station pattern's full match is decided by its length and its last
 * character. Module PatternShapes states, position by
 * position, the text each pattern describes and proves that the matcher
 * returns exactly that match. `Search` then takes the leftmost position that
 * matches, as `re.search` does, for whichever matcher it is given.
 *
 * A match carries its groups as Python numbers them: groups[0] is the whole
 * match, groups[k] is group k, and an optional group that did not take part
 * is "" (Python's None, which the source only tests for truth).
 */
module Patterns {
  import opened Text

  datatype Match = Match(start: nat, end: nat, groups: seq<string>)

  /** m is a match found at p in s: groups[0] is the text s[p..end]. */
  predicate MatchedAt(s: string, p: nat, m: Match)
  {
    m.start == p && p < m.end <= |s| && |m.groups| > 0 && m.groups[0] == s[p..m.end]
  }

  // ---------------------------------------------------------------------
  // Shapes of the captured texts
  // ---------------------------------------------------------------------

  predicate IsTrainLetter(c: char)
  {
    c == 'G' || c == 'D' || c == 'C' || c == 'K' || c == 'T' || c == 'Z'
  }

  predicate IsSeatLetter(c: char)
  {
    'A' <= c <= 'F'
  }

  predicate IsBerth(t: string)
  {
    t == "上铺" || t == "中铺" || t == "下铺"
  }

  /** One of G/D/C/K/T/Z followed by one to four digits. */
  predicate IsTrainCodeText(t: string)
  {
    2 <= |t| <= 5 && IsTrainLetter(t[0]) && forall i :: 1 <= i < |t| ==> IsDigit(t[i])
  }

  /** `\d+[A-F]?`: digits, then at most one letter A..F at the end. */
  predicate IsSeatText(t: string)
  {
    |t| > 0 && IsDigit(t[0])
    && (forall i :: 0 <= i < |t| - 1 ==> IsDigit(t[i]))
    && (IsDigit(t[|t| - 1]) || IsSeatLetter(t[|t| - 1]))
  }

  /** `\d{4}年\d{1,2}月\d{1,2}日`, with i the position of 月. */
  predicate IsDateTextWith(x: string, i: int)
  {
    6 <= i <= 7 && i + 2 < |x| <= i + 4 && |x| >= 9
    && IsDigitsText(x[..4]) && x[4] == '年'
    && IsDigitsText(x[5..i]) && x[i] == '月'
    && IsDigitsText(x[i + 1..|x| - 1]) && x[|x| - 1] == '日'
  }

  predicate IsDateText(x: string)
  {
    exists i :: 6 <= i <= 7 && IsDateTextWith(x, i)
  }

  /** `\d{1,2}:\d{2}`. */
  predicate IsClockText(t: string)
  {
    (|t| == 4 || |t| == 5) && t[|t| - 3] == ':'
    && forall i :: 0 <= i < |t| && i != |t| - 3 ==> IsDigit(t[i])
  }

  /** `\d+\.?\d*`: starts with a digit, otherwise digits and at most one '.'. */
  predicate IsPriceText(t: string)
  {
    |t| > 0 && IsDigit(t[0])
    && (forall i :: 0 <= i < |t| ==> IsDigit(t[i]) || t[i] == '.')
    && (forall i, j :: 0 <= i < j < |t| && t[i] == '.' ==> t[j] != '.')
  }

  // ---------------------------------------------------------------------
  // Building blocks
  // ---------------------------------------------------------------------

  /** `\d{4}年\d{1,2}月\d{1,2}日` at p: the position just after 日. */
  function DateAt(s: string, p: nat): (r: Option<nat>)
    requires p <= |s|
    ensures r.Some? ==> p + 9 <= r.value <= |s| && IsDateText(s[p..r.value])
  {
    if p + 5 <= |s| && AllIn(s, p, p + 4, Digit) && s[p + 4] == '年' then
      var m := Skip(s, p + 5, Digit);
      if p + 6 <= m <= p + 7 && m < |s| && s[m] == '月' then
        var d := Skip(s, m + 1, Digit);
        if m + 2 <= d <= m + 3 && d < |s| && s[d] == '日' then
          DateTextShape(s, p, m, d);
          Some(d + 1)
        else None
      else None
    else None
  }

  /** The four year digits, 年, the month digits up to 月 at m and the day digits up to 日 at d form a date text. */
  lemma DateTextShape(s: string, p: nat, m: nat, d: nat)
    requires p + 6 <= m <= p + 7 && m + 2 <= d <= m + 3 && d < |s|
    requires AllIn(s, p, p + 4, Digit) && s[p + 4] == '年'
    requires AllIn(s, p + 5, m, Digit) && s[m] == '月'
    requires AllIn(s, m + 1, d, Digit) && s[d] == '日'
    ensures IsDateText(s[p..d + 1])
  {
    var x := s[p..d + 1];
    assert forall k :: 0 <= k < |x| ==> x[k] == s[p + k];
    assert IsDigitsText(x[..4]);
    var month, day := x[5..m - p], x[m - p + 1..|x| - 1];
    assert forall k :: 0 <= k < |month| ==> month[k] == s[p + 5 + k];
    assert forall k :: 0 <= k < |day| ==> day[k] == s[m + 1 + k];
    assert IsDateTextWith(x, m - p);
  }

  /** `\d{1,2}:\d{2}` at q: the position just after the minutes. */
  function ClockAt(s: string, q: nat): (r: Option<nat>)
    requires q <= |s|
    ensures r.Some? ==> q + 4 <= r.value <= |s| && r.value <= q + 5 && IsClockText(s[q..r.value])
  {
    var h := Skip(s, q, Digit);
    if q + 1 <= h <= q + 2 && h + 2 < |s| && s[h] == ':' && IsDigit(s[h + 1]) && IsDigit(s[h + 2]) then
      Some(h + 3)
    else None
  }

  /** `\d+[A-F]?号` at q: the position just after 号. */
  function SeatEndAt(s: string, q: nat): (r: Option<nat>)
    requires q <= |s|
    ensures r.Some? ==> q + 2 <= r.value <= |s| && s[r.value - 1] == '号' && IsSeatText(s[q..r.value - 1])
  {
    var d := Skip(s, q, Digit);
    if d == q then None
    else if d < |s| && s[d] == '号' then Some(d + 1)
    else if d + 1 < |s| && IsSeatLetter(s[d]) && s[d + 1] == '号' then Some(d + 2)
    else None
  }

  // ---------------------------------------------------------------------
  // The patterns
  // ---------------------------------------------------------------------

  /** `[GDCKTZ]\d{1,4}`: a train letter, then as many digits as there are, at most four. */
  function TrainCodeAt(s: string, p: nat): (r: Option<Match>)
    requires p <= |s|
    ensures r.Some? <==> p + 1 < |s| && IsTrainLetter(s[p]) && IsDigit(s[p + 1])
    ensures r.Some? ==> MatchedAt(s, p, r.value)
    ensures r.Some? ==> |r.value.groups| == 1 && IsTrainCodeText(r.value.groups[0])
    ensures r.Some? ==> r.value.end == p + 5 || r.value.end == |s| || !IsDigit(s[r.value.end])
  {
    if p + 1 < |s| && IsTrainLetter(s[p]) && IsDigit(s[p + 1]) then
      var n := Min(4, Run(s, p + 1, Digit));
      Some(Match(p, p + 1 + n, [s[p..p + 1 + n]]))
    else None
  }

  /** The date, the whitespace after it and its end, shared by the three datetime patterns. */
  function DateThenSpace(s: string, p: nat): (r: Option<(nat, nat)>)
    requires p <= |s|
    ensures r.Some? ==> p + 9 <= r.value.0 <= r.value.1 <= |s| && IsDateText(s[p..r.value.0])
    ensures r.Some? ==> AllIn(s, r.value.0, r.value.1, Space) && (r.value.1 == |s| || !IsSpace(s[r.value.1]))
  {
    match DateAt(s, p)
    case None => None
    case Some(e) => Some((e, Skip(s, e, Space)))
  }

  /** `(date)\s*(\d{1,2}:\d{2})`. */
  function DateTimeColonAt(s: string, p: nat): (r: Option<Match>)
    requires p <= |s|
    ensures r.Some? ==> MatchedAt(s, p, r.value)
    ensures r.Some? ==> |r.value.groups| == 3 && IsDateText(r.value.groups[1]) && IsClockText(r.value.groups[2])
  {
    match DateThenSpace(s, p)
    case None => None
    case Some((e, q)) =>
      match ClockAt(s, q)
      case None => None
      case Some(t) => Some(Match(p, t, [s[p..t], s[p..e], s[q..t]]))
  }

  /** `(date)\s*(\d{1,2}:\d{2})开`: the same pieces, with 开 right after the clock. */
  function DateTimeOpenAt(s: string, p: nat): (r: Option<Match>)
    requires p <= |s|
    ensures r.Some? ==> MatchedAt(s, p, r.value)
    ensures r.Some? ==> |r.value.groups| == 3 && IsDateText(r.value.groups[1]) && IsClockText(r.value.groups[2])
    ensures r.Some? ==> s[r.value.end - 1] == '开'
  {
    match DateThenSpace(s, p)
    case None => None
    case Some((e, q)) =>
      match ClockAt(s, q)
      case None => None
      case Some(t) => OpenAfterClock(s, p, e, q, t)
  }

  /** The date s[p..e] and the clock s[q..t] make a match when 开 follows the clock. */
  function OpenAfterClock(s: string, p: nat, e: nat, q: nat, t: nat): (r: Option<Match>)
    requires p < e <= q <= t <= |s| && IsDateText(s[p..e]) && IsClockText(s[q..t])
    ensures r.Some? ==> MatchedAt(s, p, r.value)
    ensures r.Some? ==> |r.value.groups| == 3 && IsDateText(r.value.groups[1]) && IsClockText(r.value.groups[2])
    ensures r.Some? ==> s[r.value.end - 1] == '开'
  {
    if t < |s| && s[t] == '开' then Some(Match(p, t + 1, [s[p..t + 1], s[p..e], s[q..t]])) else None
  }

  /** `(date)\s*(\d{2})(\d{2})`. */
  function DateTimeBareAt(s: string, p: nat): (r: Option<Match>)
    requires p <= |s|
    ensures r.Some? ==> MatchedAt(s, p, r.value)
    ensures r.Some? ==> (|r.value.groups| == 4 && IsDateText(r.value.groups[1])
      && |r.value.groups[2]| == 2 && IsDigitsText(r.value.groups[2]) && |r.value.groups[3]| == 2 && IsDigitsText(r.value.groups[3]))
  {
    match DateThenSpace(s, p)
    case None => None
    case Some((e, q)) =>
      if q + 4 <= |s| && AllIn(s, q, q + 4, Digit) then
        Some(Match(p, q + 4, [s[p..q + 4], s[p..e], s[q..q + 2], s[q + 2..q + 4]]))
      else None
  }

  /** `(\d+)车(\d+[A-F]?)号(上铺|中铺|下铺)?`; the berth group is "" when absent. */
  function ComboAt(s: string, p: nat): (r: Option<Match>)
    requires p <= |s|
    ensures r.Some? ==> MatchedAt(s, p, r.value)
    ensures r.Some? ==> (|r.value.groups| == 4 && IsDigitsText(r.value.groups[1]) && IsSeatText(r.value.groups[2])
      && (r.value.groups[3] == "" || IsBerth(r.value.groups[3])))
  {
    match ComboEnds(s, p)
    case None => None
    case Some((c, f)) => Some(ComboMatch(s, p, c, f))
  }

  /** Where `(\d+)车(\d+[A-F]?)号` at p puts 车 (at c) and where it ends (f, just after 号). */
  function ComboEnds(s: string, p: nat): (r: Option<(nat, nat)>)
    requires p <= |s|
    ensures r.Some? ==> p < r.value.0 && r.value.0 + 3 <= r.value.1 <= |s| && AllIn(s, p, r.value.0, Digit)
    ensures r.Some? ==> s[r.value.0] == '车' && IsSeatText(s[r.value.0 + 1..r.value.1 - 1])
  {
    var c := Skip(s, p, Digit);
    if p < c < |s| && s[c] == '车' then
      match SeatEndAt(s, c + 1)
      case None => None
      case Some(f) => Some((c, f))
    else None
  }

  /**
   * The match for carriage digits s[p..c] and a seat ending just before f: the
   * optional berth group is taken whenever a berth word follows 号, and is ""
   * otherwise.
   */
  function ComboMatch(s: string, p: nat, c: nat, f: nat): Match
    requires p <= c && c + 2 <= f <= |s|
  {
    if f + 2 <= |s| && IsBerth(s[f..f + 2]) then Match(p, f + 2, [s[p..f + 2], s[p..c], s[c + 1..f - 1], s[f..f + 2]])
    else Match(p, f, [s[p..f], s[p..c], s[c + 1..f - 1], ""])
  }

  /** `(\d+)车`. */
  function CarriageAt(s: string, p: nat): (r: Option<Match>)
    requires p <= |s|
    ensures r.Some? ==> MatchedAt(s, p, r.value)
    ensures r.Some? ==> |r.value.groups| == 2 && IsDigitsText(r.value.groups[1])
    ensures r.Some? ==> s[r.value.end - 1] == '车'
  {
    var c := Skip(s, p, Digit);
    if p < c < |s| && s[c] == '车' then
      Some(Match(p, c + 1, [s[p..c + 1], s[p..c]]))
    else None
  }

  /** `(\d+[A-F]?)号`. */
  function SeatAt(s: string, p: nat): (r: Option<Match>)
    requires p <= |s|
    ensures r.Some? ==> MatchedAt(s, p, r.value)
    ensures r.Some? ==> |r.value.groups| == 2 && IsSeatText(r.value.groups[1])
    ensures r.Some? ==> s[r.value.end - 1] == '号'
  {
    match SeatEndAt(s, p)
    case None => None
    case Some(e) => Some(Match(p, e, [s[p..e], s[p..e - 1]]))
  }

  /**
   * `￥?(\d+\.?\d*)元?`. The optional ￥ is taken when a digit follows it;
   * when it is not followed by a digit there is no match at p at all.
   */
  function PriceAt(s: string, p: nat): (r: Option<Match>)
    requires p <= |s|
    ensures r.Some? <==> p < |s| && (IsDigit(s[p]) || (s[p] == '￥' && p + 1 < |s| && IsDigit(s[p + 1])))
    ensures r.Some? ==> MatchedAt(s, p, r.value)
    ensures r.Some? ==> |r.value.groups| == 2 && IsPriceText(r.value.groups[1])
  {
    var q := if p < |s| && s[p] == '￥' then p + 1 else p;
    if q < |s| && IsDigit(s[q]) then
      var e := PriceGroupEnd(s, q);
      PriceGroupText(s, q);
      var end := if e < |s| && s[e] == '元' then e + 1 else e;
      Some(Match(p, end, [s[p..end], s[q..e]]))
    else None
  }

  /** Where the group `(\d+\.?\d*)` that starts with the digit s[q] ends. */
  function PriceGroupEnd(s: string, q: nat): (e: nat)
    requires q < |s| && IsDigit(s[q])
    ensures q < e <= |s|
  {
    var d := Skip(s, q, Digit);
    if d < |s| && s[d] == '.' then Skip(s, d + 1, Digit) else d
  }

  /** The text of the group is a price text: digits with at most one '.', starting with a digit. */
  lemma PriceGroupText(s: string, q: nat)
    requires q < |s| && IsDigit(s[q])
    ensures IsPriceText(s[q..PriceGroupEnd(s, q)])
  {
    PriceTextShape(s, q, Skip(s, q, Digit), PriceGroupEnd(s, q));
  }

  /** Digits from q to d, then either nothing more or a '.' at d and digits up to e. */
  lemma PriceTextShape(s: string, q: nat, d: nat, e: nat)
    requires q < d <= e <= |s|
    requires AllIn(s, q, d, Digit)
    requires e == d || (s[d] == '.' && AllIn(s, d + 1, e, Digit))
    ensures IsPriceText(s[q..e])
  {
  }

  /** The first width in `widths` for which `[\d\*]{w}[\dXx]{tail}` followed by a CJK character matches at q. */
  function IdWidth(s: string, q: nat, widths: seq<nat>, tail: nat): (r: Option<nat>)
    requires q <= |s|
    ensures r.Some? ==> r.value in widths && q + r.value + tail < |s|
    ensures r.Some? ==> AllIn(s, q, q + r.value, DigitOrStar) && AllIn(s, q + r.value, q + r.value + tail, DigitOrX)
    ensures r.Some? ==> IsCjk(s[q + r.value + tail])
  {
    if widths == [] then None
    else
      var w := widths[0];
      if q + w + tail < |s| && AllIn(s, q, q + w, DigitOrStar) && AllIn(s, q + w, q + w + tail, DigitOrX)
        && IsCjk(s[q + w + tail])
      then Some(w)
      else IdWidth(s, q, widths[1..], tail)
  }

  /** `(\d{6})([\d\*]{8,10})([\dXx]{4})([CJK]+)`: a masked identity number and the name after it. */
  function IdNameAt(s: string, p: nat): (r: Option<Match>)
    requires p <= |s|
    ensures r.Some? ==> MatchedAt(s, p, r.value)
    ensures r.Some? ==> (|r.value.groups| == 5 && |r.value.groups[1]| == 6 && IsDigitsText(r.value.groups[1])
      && 8 <= |r.value.groups[2]| <= 10 && |r.value.groups[3]| == 4 && IsCjkText(r.value.groups[4]))
    ensures r.Some? ==> r.value.end == |s| || !IsCjk(s[r.value.end])
  {
    if p + 6 <= |s| && AllIn(s, p, p + 6, Digit) then
      match IdWidth(s, p + 6, [10, 9, 8], 4)
      case None => None
      case Some(m) =>
        Some(IdNameMatch(s, p, m, Skip(s, p + 10 + m, Cjk)))
    else None
  }

  /** The match for a middle part of width w and a name that ends at e: the four groups are consecutive slices of s. */
  function IdNameMatch(s: string, p: nat, w: nat, e: nat): Match
    requires p + 10 + w <= e <= |s|
  {
    Match(p, e, [s[p..e], s[p..p + 6], s[p + 6..p + 6 + w], s[p + 6 + w..p + 10 + w], s[p + 10 + w..e]])
  }

  /** `[\d\*]{15,17}[\dXx]([CJK]+)`. */
  function LooseIdNameAt(s: string, p: nat): (r: Option<Match>)
    requires p <= |s|
    ensures r.Some? ==> MatchedAt(s, p, r.value)
    ensures r.Some? ==> |r.value.groups| == 2 && IsCjkText(r.value.groups[1])
    ensures r.Some? ==> r.value.end == |s| || !IsCjk(s[r.value.end])
  {
    match IdWidth(s, p, [17, 16, 15], 1)
    case None => None
    case Some(k) =>
      var c := p + k + 1;
      var e := Skip(s, c, Cjk);
      Some(Match(p, e, [s[p..e], s[c..e]]))
  }

  /** `\d+\s+([CJK]{2,6})`. */
  function NumberNameAt(s: string, p: nat): (r: Option<Match>)
    requires p <= |s|
    ensures r.Some? ==> MatchedAt(s, p, r.value)
    ensures r.Some? ==> |r.value.groups| == 2 && 2 <= |r.value.groups[1]| <= 6 && IsCjkText(r.value.groups[1])
  {
    var a := Skip(s, p, Digit);
    var b := Skip(s, a, Space);
    var c := Skip(s, b, Cjk);
    if p < a && a < b && b + 2 <= c then
      var n := Min(b + 6, c);
      Some(Match(p, n, [s[p..n], s[b..n]]))
    else None
  }

  /** A pattern as a matcher: `XxxAt(s, p)` is the match of that pattern starting at p, if any. */
  type Matcher = (string, nat) --> Option<Match>

  /** Every position from p to |s| is one `at` can be asked about, and a match found at q starts at q. */
  ghost predicate Anchored(at: Matcher, s: string, p: nat)
  {
    forall q :: p <= q <= |s| ==> at.requires(s, q) && (at(s, q).Some? ==> at(s, q).value.start == q)
  }

  /**
   * `re.search` from position p (`Search(XxxAt, s, 0)` is `re.search(xxx, s)`):
   * the match at the leftmost position that has one. Its contract only bounds
   * the position; `SearchFound` and `SearchLeftmost` state what the match is.
   */
  function Search(at: Matcher, s: string, p: nat): (r: Option<Match>)
    requires p <= |s| && Anchored(at, s, p)
    ensures r.Some? ==> p <= r.value.start < |s|
    decreases |s| - p, 1
  {
    if p == |s| then None else SearchAt(at, s, p)
  }

  /** The search at a position p inside s: the match at p if there is one, otherwise the search from p + 1. */
  function SearchAt(at: Matcher, s: string, p: nat): (r: Option<Match>)
    requires p < |s| && Anchored(at, s, p)
    ensures r.Some? ==> p <= r.value.start < |s|
    decreases |s| - p, 0
  {
    match at(s, p)
    case Some(m) => Some(m)
    case None => Search(at, s, p + 1)
  }

  /** What a search finds is a match of `at` at the position it reports. */
  lemma {:induction false} SearchFound(at: Matcher, s: string, p: nat)
    requires p <= |s| && Anchored(at, s, p)
    ensures Search(at, s, p).Some? ==> at(s, Search(at, s, p).value.start) == Search(at, s, p)
    decreases |s| - p
  {
    if p < |s| {
      assert Search(at, s, p) == SearchAt(at, s, p);
      if at(s, p).None? {
        SearchFound(at, s, p + 1);
      }
    }
  }

  /** A search finds the leftmost position that has a match, and finds nothing exactly when no position has one. */
  lemma {:induction false} SearchLeftmost(at: Matcher, s: string, p: nat)
    requires p <= |s| && Anchored(at, s, p)
    ensures Search(at, s, p).Some? ==> forall q :: p <= q < Search(at, s, p).value.start ==> at(s, q).None?
    ensures Search(at, s, p).None? <==> forall q :: p <= q < |s| ==> at(s, q).None?
    decreases |s| - p
  {
    if p < |s| {
      assert Search(at, s, p) == SearchAt(at, s, p);
      if at(s, p).None? {
        SearchLeftmost(at, s, p + 1);
      }
    }
  }

  // ---------------------------------------------------------------------
  // Whole-fragment patterns (re.fullmatch)
  // ---------------------------------------------------------------------

  /** `re.fullmatch(r'[CJK]{2,6}(站)?', s)`. */
  predicate StationFullMatch(s: string)
  {
    (2 <= |s| <= 6 && IsCjkText(s))
    || (3 <= |s| <= 7 && s[|s| - 1] == '站' && IsCjkText(s[..|s| - 1]))
  }

  /** `re.fullmatch(r'[CJK]{2,6}', s)`. */
  predicate NameFullMatch(s: string)
  {
    2 <= |s| <= 6 && IsCjkText(s)
  }

  /** `re.search(r'[a-zA-Z]', s)`. */
  predicate HasLatin(s: string)
  {
    exists i :: 0 <= i < |s| && IsLatin(s[i])
  }

  /** 站 is itself a CJK character, so the station pattern accepts exactly the all-CJK texts of 2..6 characters and those of 7 ending in 站. */
  lemma StationFullMatchIff(s: string)
    ensures StationFullMatch(s) <==> IsCjkText(s) && (2 <= |s| <= 6 || (|s| == 7 && s[6] == '站'))
  {
    if 3 <= |s| <= 7 && s[|s| - 1] == '站' && IsCjkText(s[..|s| - 1]) {
      assert forall i :: 0 <= i < |s| - 1 ==> s[i] == s[..|s| - 1][i];
    }
    if IsCjkText(s) && |s| == 7 && s[6] == '站' {
      assert IsCjkText(s[..6]);
    }
  }

  /** A fragment the station pattern accepts has no Latin letter, so the `[a-zA-Z]` test after it never rejects anything. */
  lemma StationFragmentHasNoLatin(s: string)
    requires StationFullMatch(s)
    ensures !HasLatin(s)
  {
    StationFullMatchIff(s);
  }
}
