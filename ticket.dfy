/**
 * The ticket record and the rule chain of parse_ticket_info
 * (ticket_parser.py:25-218), written as functions.
 *
 * Each numbered block of the source's loop body is one `XxxRule` function:
 * it returns `Some(updated record)` when the block ends in `continue` (the
 * fragment is consumed) and `None` when control falls through to the next
 * block. `Step` applies the first rule that fires, and `Parsed` folds `Step`
 * over the fragments in order. The method in parser.dfy is proved to compute
 * exactly `Parsed`.
 */
module TicketSpec {
  import opened Text
  import opened Patterns
  import Loader

  /** The dictionary `ticket_info`, one field per key, in the source's key order. */
  datatype TicketInfo = TicketInfo(
    trainCode: string,
    departureStation: string,
    arrivalStation: string,
    datetime: string,
    carriage: string,
    seatNum: string,
    berthType: string,
    price: string,
    seatType: string,
    name: string,
    discountType: string,
    detectionId: int)

  /** The record every parse starts from (ticket_parser.py:29-42). */
  const EmptyTicket := TicketInfo("", "", "", "", "", "", "", "", "", "", "", 0)

  const Interference: seq<string> := ["上铺", "中铺", "下铺", "限乘", "当日", "当次", "车", "号", "开", "元"]
  const BerthTypes: seq<string> := ["上铺", "中铺", "下铺"]
  const SeatTypes: seq<string> := ["一等座", "二等座", "商务座", "特等座", "硬座", "软座", "硬卧", "软卧"]
  const DiscountTypes: seq<string> := ["学生票", "儿童票", "优惠票", "残疾军人票", "学惠"]
  const NonNameWords: seq<string> := ["学惠", "报销", "凭证", "遗失", "不补", "退票", "改签", "车站", "检票", "仅供报销使用"]

  /** The first index of x in xs: Python's `list.index`. */
  function FirstIndex(xs: seq<string>, x: string): (i: nat)
    requires x in xs
    ensures i < |xs| && xs[i] == x
    ensures forall j :: 0 <= j < i ==> xs[j] != x
  {
    if xs[0] == x then 0 else 1 + FirstIndex(xs[1..], x)
  }

  // ---------------------------------------------------------------------
  // Shapes of stored values
  // ---------------------------------------------------------------------

  /** `"<date> <time>"` as the datetime rule writes it. */
  predicate IsDatetimeValue(v: string)
  {
    exists k :: 0 <= k < |v| && v[k] == ' ' && IsDateText(v[..k]) && IsClockText(v[k + 1..])
  }

  lemma DatetimeValueShape(date: string, clock: string)
    requires IsDateText(date) && IsClockText(clock)
    ensures IsDatetimeValue(date + " " + clock)
  {
    var v := date + " " + clock;
    assert v[..|date|] == date;
    assert v[|date| + 1..] == clock;
  }

  lemma BareClockShape(hour: string, minute: string)
    requires |hour| == 2 && IsDigitsText(hour) && |minute| == 2 && IsDigitsText(minute)
    ensures IsClockText(hour + ":" + minute)
  {
    var t := hour + ":" + minute;
    assert t[0] == hour[0] && t[1] == hour[1] && t[3] == minute[0] && t[4] == minute[1];
  }

  /** What the station rule stores: CJK text without 站 and without an interference word. */
  predicate IsStationName(n: string)
  {
    '站' !in n && !ContainsAny(n, Interference) && forall i :: 0 <= i < |n| ==> IsCjk(n[i])
  }

  // ---------------------------------------------------------------------
  // Blocks 1 and 2: train code, stations
  // ---------------------------------------------------------------------

  /** Block 1 (ticket_parser.py:50-54). */
  function TrainRule(txt: string, info: TicketInfo): Option<TicketInfo>
  {
    if info.trainCode == "" then
      SearchFound(TrainCodeAt, txt, 0);
      match Search(TrainCodeAt, txt, 0)
      case Some(m) => Some(info.(trainCode := m.groups[0]))
      case None => None
    else None
  }

  /** Station name of a fragment: `group().replace("站", "")`. */
  function StationNameOf(txt: string): string
  {
    RemoveChar(txt, '站')
  }

  predicate StationAccepted(txt: string)
  {
    !ContainsAny(StationNameOf(txt), Interference) && !HasLatin(txt)
  }

  /** Block 2 (ticket_parser.py:57-69): consumes the fragment whether or not the name is accepted. */
  function StationRule(txt: string, info: TicketInfo): Option<TicketInfo>
  {
    if !(info.departureStation != "" && info.arrivalStation != "") && StationFullMatch(txt) then
      if StationAccepted(txt) then
        if info.departureStation == "" then Some(info.(departureStation := StationNameOf(txt)))
        else if info.arrivalStation == "" then Some(info.(arrivalStation := StationNameOf(txt)))
        else Some(info)
      else Some(info)
    else None
  }

  // ---------------------------------------------------------------------
  // Block 3: datetime
  // ---------------------------------------------------------------------

  predicate TimeRelated(txt: string)
  {
    '年' in txt || '月' in txt || '日' in txt || '开' in txt || ':' in txt
  }

  /**
   * The lookahead loop of ticket_parser.py:80-87: append texts[j], texts[j+1],
   * ... (up to but excluding `stop`) to `combined` one at a time and return
   * the first `date time开` match, formatted as "<date> <time>".
   */
  function OpenDatetimeAhead(texts: seq<string>, j: nat, stop: nat, combined: string): (r: Option<string>)
    requires j <= stop <= |texts|
    ensures r.Some? ==> IsDatetimeValue(r.value)
    decreases stop - j
  {
    if j == stop then None
    else
      var c := combined + texts[j];
      SearchFound(DateTimeOpenAt, c, 0);
      match Search(DateTimeOpenAt, c, 0)
      case Some(m) =>
        DatetimeValueShape(m.groups[1], m.groups[2]);
        Some(m.groups[1] + " " + m.groups[2])
      case None => OpenDatetimeAhead(texts, j + 1, stop, c)
  }

  /** The single-fragment `date h:mm` source (ticket_parser.py:94-97). */
  function ColonDatetime(txt: string): (r: Option<string>)
    ensures r.Some? ==> IsDatetimeValue(r.value)
  {
    SearchFound(DateTimeColonAt, txt, 0);
    match Search(DateTimeColonAt, txt, 0)
    case Some(m) =>
      DatetimeValueShape(m.groups[1], m.groups[2]);
      Some(m.groups[1] + " " + m.groups[2])
    case None => None
  }

  /** The single-fragment `date hhmm` source, written back as "hh:mm" (ticket_parser.py:99-104). */
  function BareDatetime(txt: string): (r: Option<string>)
    ensures r.Some? ==> IsDatetimeValue(r.value)
  {
    SearchFound(DateTimeBareAt, txt, 0);
    match Search(DateTimeBareAt, txt, 0)
    case Some(m) =>
      var clock := m.groups[2] + ":" + m.groups[3];
      BareClockShape(m.groups[2], m.groups[3]);
      DatetimeValueShape(m.groups[1], clock);
      Some(m.groups[1] + " " + clock)
    case None => None
  }

  /** The two single-fragment datetime sources in order (ticket_parser.py:89-104). */
  function FragmentDatetime(txt: string): (r: Option<string>)
    ensures r.Some? ==> IsDatetimeValue(r.value)
  {
    var colon := ColonDatetime(txt);
    if colon.Some? then colon else BareDatetime(txt)
  }

  /** The three datetime sources in order (ticket_parser.py:78-104). */
  function DatetimeFor(texts: seq<string>, txt: string): (r: Option<string>)
    requires txt in texts
    ensures r.Some? ==> IsDatetimeValue(r.value)
  {
    var idx := FirstIndex(texts, txt);
    var ahead := OpenDatetimeAhead(texts, idx + 1, Min(idx + 4, |texts|), txt);
    if ahead.Some? then ahead else FragmentDatetime(txt)
  }

  /** Block 3 (ticket_parser.py:72-104); a time-related fragment no source matches falls through. */
  function DatetimeRule(texts: seq<string>, txt: string, info: TicketInfo): Option<TicketInfo>
    requires txt in texts
  {
    if info.datetime == "" && TimeRelated(txt) then
      match DatetimeFor(texts, txt)
      case Some(v) => Some(info.(datetime := v))
      case None => None
    else None
  }

  // ---------------------------------------------------------------------
  // Blocks 4 to 7: carriage, seat, berth
  // ---------------------------------------------------------------------

  /** Fills whichever of carriage, seat and berth are still empty from a combo match's groups. */
  function ComboFill(g: seq<string>, info: TicketInfo): TicketInfo
    requires |g| == 4
  {
    var a := if info.carriage == "" then info.(carriage := g[1]) else info;
    var b := if a.seatNum == "" then a.(seatNum := g[2]) else a;
    if b.berthType == "" && g[3] != "" then b.(berthType := g[3]) else b
  }

  /** Block 4 (ticket_parser.py:107-118). */
  function ComboRule(txt: string, info: TicketInfo): Option<TicketInfo>
  {
    if !(info.carriage != "" && info.seatNum != "" && info.berthType != "") then
      SearchFound(ComboAt, txt, 0);
      match Search(ComboAt, txt, 0)
      case Some(m) => Some(ComboFill(m.groups, info))
      case None => None
    else None
  }

  /** Block 5 (ticket_parser.py:121-125). */
  function CarriageRule(txt: string, info: TicketInfo): Option<TicketInfo>
  {
    if info.carriage == "" then
      SearchFound(CarriageAt, txt, 0);
      match Search(CarriageAt, txt, 0)
      case Some(m) => Some(info.(carriage := m.groups[1]))
      case None => None
    else None
  }

  /** Block 6 (ticket_parser.py:128-133). */
  function SeatRule(txt: string, info: TicketInfo): Option<TicketInfo>
  {
    if info.seatNum == "" then
      SearchFound(SeatAt, txt, 0);
      match Search(SeatAt, txt, 0)
      case Some(m) => Some(info.(seatNum := m.groups[1]))
      case None => None
    else None
  }

  /** Block 7 (ticket_parser.py:136-143). */
  function BerthRule(txt: string, info: TicketInfo): Option<TicketInfo>
  {
    if info.berthType == "" then
      match FirstContained(txt, BerthTypes)
      case Some(k) => Some(info.(berthType := BerthTypes[k]))
      case None => None
    else None
  }

  // ---------------------------------------------------------------------
  // Block 8: price
  // ---------------------------------------------------------------------

  predicate PriceRelated(txt: string)
  {
    '￥' in txt || '元' in txt
  }

  /** The lookahead loop of ticket_parser.py:153-160: the first price match of the growing concatenation. */
  function PriceAhead(texts: seq<string>, j: nat, stop: nat, combined: string): (r: Option<string>)
    requires j <= stop <= |texts|
    ensures r.Some? ==> IsPriceText(r.value)
    decreases stop - j
  {
    if j == stop then None
    else
      var c := combined + texts[j];
      SearchFound(PriceAt, c, 0);
      match Search(PriceAt, c, 0)
      case Some(m) => Some(m.groups[1])
      case None => PriceAhead(texts, j + 1, stop, c)
  }

  /** A standalone price is kept only if it has a '.' or more than two characters (ticket_parser.py:169). */
  predicate PlausiblePrice(g: string)
  {
    '.' in g || |g| > 2
  }

  /** Block 8 (ticket_parser.py:146-171): a standalone match consumes the fragment even when it is rejected. */
  function PriceRule(texts: seq<string>, txt: string, info: TicketInfo): Option<TicketInfo>
    requires txt in texts
  {
    if info.price == "" && PriceRelated(txt) then
      var idx := FirstIndex(texts, txt);
      match PriceAhead(texts, idx + 1, Min(idx + 3, |texts|), txt)
      case Some(v) => Some(info.(price := v))
      case None =>
        SearchFound(PriceAt, txt, 0);
        match Search(PriceAt, txt, 0)
        case Some(m) => if PlausiblePrice(m.groups[1]) then Some(info.(price := m.groups[1])) else Some(info)
        case None => None
    else None
  }

  // ---------------------------------------------------------------------
  // Blocks 9 to 11: seat class, discount class, name
  // ---------------------------------------------------------------------

  /** Block 9 (ticket_parser.py:174-181). */
  function SeatTypeRule(txt: string, info: TicketInfo): Option<TicketInfo>
  {
    if info.seatType == "" then
      match FirstContained(txt, SeatTypes)
      case Some(k) => Some(info.(seatType := SeatTypes[k]))
      case None => None
    else None
  }

  /** "学惠" is stored as "学生票"; the other keywords as they are. */
  function NormalizedDiscount(keyword: string): string
  {
    if keyword == "学惠" then "学生票" else keyword
  }

  /** Block 10 (ticket_parser.py:184-192). */
  function DiscountRule(txt: string, info: TicketInfo): Option<TicketInfo>
  {
    if info.discountType == "" then
      match FirstContained(txt, DiscountTypes)
      case Some(k) => Some(info.(discountType := NormalizedDiscount(DiscountTypes[k])))
      case None => None
    else None
  }

  /** The four name sources of block 11 in order: ID line, loose ID line, number prefix, bare CJK fragment. */
  function NameFrom(txt: string): Option<string>
  {
    SearchFound(IdNameAt, txt, 0);
    match Search(IdNameAt, txt, 0)
    case Some(m) => Some(Loader.Strip(m.groups[4]))
    case None =>
      SearchFound(LooseIdNameAt, txt, 0);
      match Search(LooseIdNameAt, txt, 0)
      case Some(m) => Some(Loader.Strip(m.groups[1]))
      case None =>
        SearchFound(NumberNameAt, txt, 0);
        match Search(NumberNameAt, txt, 0)
        case Some(m) => Some(Loader.Strip(m.groups[1]))
        case None =>
          if NameFullMatch(txt) && txt !in NonNameWords then Some(txt) else None
  }

  /** Block 11 (ticket_parser.py:195-216). */
  function NameRule(txt: string, info: TicketInfo): Option<TicketInfo>
  {
    if info.name == "" then
      match NameFrom(txt)
      case Some(n) => Some(info.(name := n))
      case None => None
    else None
  }

  // ---------------------------------------------------------------------
  // The scan
  // ---------------------------------------------------------------------

  /**
   * One pass of the loop body on fragment txt: the blocks are tried in the
   * source's order and the first one that fires decides the new record; when
   * none fires the record is unchanged.
   */
  function Step(texts: seq<string>, txt: string, info: TicketInfo): TicketInfo
    requires txt in texts
  {
    match TrainRule(txt, info) case Some(r) => r case None =>
    match StationRule(txt, info) case Some(r) => r case None =>
    match DatetimeRule(texts, txt, info) case Some(r) => r case None =>
    match ComboRule(txt, info) case Some(r) => r case None =>
    match CarriageRule(txt, info) case Some(r) => r case None =>
    match SeatRule(txt, info) case Some(r) => r case None =>
    match BerthRule(txt, info) case Some(r) => r case None =>
    match PriceRule(texts, txt, info) case Some(r) => r case None =>
    match SeatTypeRule(txt, info) case Some(r) => r case None =>
    match DiscountRule(txt, info) case Some(r) => r case None =>
    match NameRule(txt, info) case Some(r) => r case None =>
    info
  }

  /** The record after the first k fragments have been scanned. */
  function ParsedPrefix(texts: seq<string>, k: nat): TicketInfo
    requires k <= |texts|
  {
    if k == 0 then EmptyTicket else Step(texts, texts[k - 1], ParsedPrefix(texts, k - 1))
  }

  /** What parse_ticket_info returns for the fragments texts. */
  function Parsed(texts: seq<string>): TicketInfo
  {
    ParsedPrefix(texts, |texts|)
  }

  // ---------------------------------------------------------------------
  // Invariants of the record
  // ---------------------------------------------------------------------

  /** Every field is empty or has the shape its rule produces. */
  predicate WellShaped(t: TicketInfo)
  {
    && (t.trainCode == "" || IsTrainCodeText(t.trainCode))
    && IsStationName(t.departureStation)
    && IsStationName(t.arrivalStation)
    && (t.arrivalStation != "" ==> t.departureStation != "")
    && (t.datetime == "" || IsDatetimeValue(t.datetime))
    && (t.carriage == "" || IsDigitsText(t.carriage))
    && (t.seatNum == "" || IsSeatText(t.seatNum))
    && (t.berthType == "" || t.berthType in BerthTypes)
    && (t.price == "" || IsPriceText(t.price))
    && (t.seatType == "" || t.seatType in SeatTypes)
    && (t.discountType == "" || t.discountType in ["学生票", "儿童票", "优惠票", "残疾军人票"])
    && (t.name == "" || IsCjkText(t.name))
    && t.detectionId == 0
  }

  /** b keeps every field that is non-empty in a, and the detection id. */
  predicate KeepsFilled(a: TicketInfo, b: TicketInfo)
  {
    && (a.trainCode != "" ==> b.trainCode == a.trainCode)
    && (a.departureStation != "" ==> b.departureStation == a.departureStation)
    && (a.arrivalStation != "" ==> b.arrivalStation == a.arrivalStation)
    && (a.datetime != "" ==> b.datetime == a.datetime)
    && (a.carriage != "" ==> b.carriage == a.carriage)
    && (a.seatNum != "" ==> b.seatNum == a.seatNum)
    && (a.berthType != "" ==> b.berthType == a.berthType)
    && (a.price != "" ==> b.price == a.price)
    && (a.seatType != "" ==> b.seatType == a.seatType)
    && (a.name != "" ==> b.name == a.name)
    && (a.discountType != "" ==> b.discountType == a.discountType)
    && b.detectionId == a.detectionId
  }
}
