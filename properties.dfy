/**
 * What parse_ticket_info promises about the record it returns, proved about
 * the rule chain of ticket.dfy.
 */
module TicketProperties {
  import opened Text
  import opened Patterns
  import opened TicketSpec
  import Loader

  // ---------------------------------------------------------------------
  // What each block writes
  // ---------------------------------------------------------------------

  /** Block 1 writes only the train code, only when it is empty, and writes a train code. */
  lemma TrainRuleWrites(txt: string, info: TicketInfo)
    requires TrainRule(txt, info).Some?
    ensures var r := TrainRule(txt, info).value;
      info.trainCode == "" && r == info.(trainCode := r.trainCode) && IsTrainCodeText(r.trainCode)
    ensures KeepsFilled(info, TrainRule(txt, info).value)
    ensures WellShaped(info) ==> WellShaped(TrainRule(txt, info).value)
  {
    SearchFound(TrainCodeAt, txt, 0);
    var r := TrainRule(txt, info).value;
    assert info.trainCode == "" && r == info.(trainCode := r.trainCode) && IsTrainCodeText(r.trainCode);
    if WellShaped(info) {
      WellShapedUpdate(info, r);
    }
  }

  /** A fragment the station rule accepts yields a name of CJK characters without 站 or an interference word. */
  lemma StationNameShape(txt: string)
    requires StationFullMatch(txt) && StationAccepted(txt)
    ensures IsStationName(StationNameOf(txt))
  {
    StationFullMatchIff(txt);
    var n := StationNameOf(txt);
    forall i | 0 <= i < |n| ensures IsCjk(n[i]) {
      assert n[i] in n;
      var j :| 0 <= j < |txt| && txt[j] == n[i];
    }
  }

  /** Dropping 站 gives back the name in front of it: "北京站" is stored as "北京". */
  lemma StationNameOfSuffixed(n: string)
    requires '站' !in n
    ensures StationNameOf(n + "站") == n
    ensures StationNameOf(n) == n
  {
    RemoveCharAppend(n, "站", '站');
    RemoveCharAbsent(n, '站');
  }

  /**
   * Block 2 fills the departure station first and the arrival station second,
   * each only when empty, and leaves the record as it is when the name is rejected
   * or both are already set.
   */
  lemma StationRuleWrites(txt: string, info: TicketInfo)
    requires StationRule(txt, info).Some?
    ensures var r := StationRule(txt, info).value;
      || r == info
      || (info.departureStation == "" && r == info.(departureStation := StationNameOf(txt)))
      || (info.departureStation != "" && info.arrivalStation == "" && r == info.(arrivalStation := StationNameOf(txt)))
    ensures StationRule(txt, info).value != info ==> IsStationName(StationNameOf(txt)) && !HasLatin(txt)
    ensures KeepsFilled(info, StationRule(txt, info).value)
    ensures WellShaped(info) ==> WellShaped(StationRule(txt, info).value)
  {
    if StationAccepted(txt) {
      StationNameShape(txt);
    }
    var r := StationRule(txt, info).value;
    if WellShaped(info) {
      WellShapedUpdate(info, r);
    }
  }

  /** Block 3 writes only the datetime, only when it is empty, as "<date> <time>". */
  lemma DatetimeRuleWrites(texts: seq<string>, txt: string, info: TicketInfo)
    requires txt in texts && DatetimeRule(texts, txt, info).Some?
    ensures var r := DatetimeRule(texts, txt, info).value;
      info.datetime == "" && r == info.(datetime := r.datetime) && IsDatetimeValue(r.datetime)
    ensures KeepsFilled(info, DatetimeRule(texts, txt, info).value)
    ensures WellShaped(info) ==> WellShaped(DatetimeRule(texts, txt, info).value)
  {
    var r := DatetimeRule(texts, txt, info).value;
    assert info.datetime == "" && r == info.(datetime := r.datetime) && IsDatetimeValue(r.datetime);
    if WellShaped(info) {
      WellShapedUpdate(info, r);
    }
  }

  /** Filling from a combo match keeps every filled field and writes each empty one from its group. */
  lemma ComboFillWrites(g: seq<string>, info: TicketInfo)
    requires |g| == 4
    ensures var r := ComboFill(g, info);
      && r == info.(carriage := r.carriage, seatNum := r.seatNum, berthType := r.berthType)
      && r.carriage == (if info.carriage == "" then g[1] else info.carriage)
      && r.seatNum == (if info.seatNum == "" then g[2] else info.seatNum)
      && r.berthType == (if info.berthType == "" && g[3] != "" then g[3] else info.berthType)
  {
  }

  /** Block 4 writes carriage, seat and berth, each only when empty, with the shapes of their groups. */
  lemma ComboRuleWrites(txt: string, info: TicketInfo)
    requires ComboRule(txt, info).Some?
    ensures var r := ComboRule(txt, info).value;
      && r == info.(carriage := r.carriage, seatNum := r.seatNum, berthType := r.berthType)
      && (info.carriage != "" ==> r.carriage == info.carriage)
      && (info.seatNum != "" ==> r.seatNum == info.seatNum)
      && (info.berthType != "" ==> r.berthType == info.berthType)
      && (r.carriage != info.carriage ==> IsDigitsText(r.carriage))
      && (r.seatNum != info.seatNum ==> IsSeatText(r.seatNum))
      && (r.berthType != info.berthType ==> r.berthType in BerthTypes)
    ensures KeepsFilled(info, ComboRule(txt, info).value)
    ensures WellShaped(info) ==> WellShaped(ComboRule(txt, info).value)
  {
    SearchFound(ComboAt, txt, 0);
    var g := Search(ComboAt, txt, 0).value.groups;
    ComboFillWrites(g, info);
    var r := ComboRule(txt, info).value;
    if WellShaped(info) {
      WellShapedUpdate(info, r);
    }
  }

  /** Block 5 writes only the carriage, only when it is empty, as digits. */
  lemma CarriageRuleWrites(txt: string, info: TicketInfo)
    requires CarriageRule(txt, info).Some?
    ensures var r := CarriageRule(txt, info).value;
      info.carriage == "" && r == info.(carriage := r.carriage) && IsDigitsText(r.carriage)
    ensures KeepsFilled(info, CarriageRule(txt, info).value)
    ensures WellShaped(info) ==> WellShaped(CarriageRule(txt, info).value)
  {
    SearchFound(CarriageAt, txt, 0);
    var r := CarriageRule(txt, info).value;
    assert info.carriage == "" && r == info.(carriage := r.carriage) && IsDigitsText(r.carriage);
    if WellShaped(info) {
      WellShapedUpdate(info, r);
    }
  }

  /** Block 6 writes only the seat number, only when it is empty. */
  lemma SeatRuleWrites(txt: string, info: TicketInfo)
    requires SeatRule(txt, info).Some?
    ensures var r := SeatRule(txt, info).value;
      info.seatNum == "" && r == info.(seatNum := r.seatNum) && IsSeatText(r.seatNum)
    ensures KeepsFilled(info, SeatRule(txt, info).value)
    ensures WellShaped(info) ==> WellShaped(SeatRule(txt, info).value)
  {
    SearchFound(SeatAt, txt, 0);
    var r := SeatRule(txt, info).value;
    assert info.seatNum == "" && r == info.(seatNum := r.seatNum) && IsSeatText(r.seatNum);
    if WellShaped(info) {
      WellShapedUpdate(info, r);
    }
  }

  /** Block 7 writes only the berth, only when it is empty, as one of the three berth words. */
  lemma BerthRuleWrites(txt: string, info: TicketInfo)
    requires BerthRule(txt, info).Some?
    ensures var r := BerthRule(txt, info).value;
      info.berthType == "" && r == info.(berthType := r.berthType) && r.berthType in BerthTypes
    ensures KeepsFilled(info, BerthRule(txt, info).value)
    ensures WellShaped(info) ==> WellShaped(BerthRule(txt, info).value)
  {
    var r := BerthRule(txt, info).value;
    assert info.berthType == "" && r == info.(berthType := r.berthType) && r.berthType in BerthTypes;
    if WellShaped(info) {
      WellShapedUpdate(info, r);
    }
  }

  /** Block 8 writes only the price, only when it is empty; a rejected standalone price leaves it empty. */
  lemma PriceRuleWrites(texts: seq<string>, txt: string, info: TicketInfo)
    requires txt in texts && PriceRule(texts, txt, info).Some?
    ensures var r := PriceRule(texts, txt, info).value;
      info.price == "" && r == info.(price := r.price) && (r.price == "" || IsPriceText(r.price))
    ensures PriceRelated(txt)
    ensures KeepsFilled(info, PriceRule(texts, txt, info).value)
    ensures WellShaped(info) ==> WellShaped(PriceRule(texts, txt, info).value)
  {
    SearchFound(PriceAt, txt, 0);
    var r := PriceRule(texts, txt, info).value;
    assert info.price == "" && r == info.(price := r.price) && (r.price == "" || IsPriceText(r.price));
    if WellShaped(info) {
      WellShapedUpdate(info, r);
    }
  }

  /** Block 9 writes only the seat class, only when it is empty, as one of the seat-class words. */
  lemma SeatTypeRuleWrites(txt: string, info: TicketInfo)
    requires SeatTypeRule(txt, info).Some?
    ensures var r := SeatTypeRule(txt, info).value;
      info.seatType == "" && r == info.(seatType := r.seatType) && r.seatType in SeatTypes
    ensures KeepsFilled(info, SeatTypeRule(txt, info).value)
    ensures WellShaped(info) ==> WellShaped(SeatTypeRule(txt, info).value)
  {
    var r := SeatTypeRule(txt, info).value;
    assert info.seatType == "" && r == info.(seatType := r.seatType) && r.seatType in SeatTypes;
    if WellShaped(info) {
      WellShapedUpdate(info, r);
    }
  }

  /** Block 10 writes only the discount class, only when it is empty, with 学惠 stored as 学生票. */
  lemma DiscountRuleWrites(txt: string, info: TicketInfo)
    requires DiscountRule(txt, info).Some?
    ensures var r := DiscountRule(txt, info).value;
      info.discountType == "" && r == info.(discountType := r.discountType)
      && r.discountType in ["学生票", "儿童票", "优惠票", "残疾军人票"]
    ensures KeepsFilled(info, DiscountRule(txt, info).value)
    ensures WellShaped(info) ==> WellShaped(DiscountRule(txt, info).value)
  {
    var r := DiscountRule(txt, info).value;
    assert info.discountType == "" && r == info.(discountType := r.discountType) && r.discountType in ["学生票", "儿童票", "优惠票", "残疾军人票"];
    if WellShaped(info) {
      WellShapedUpdate(info, r);
    }
  }

  lemma CjkIsNotSpace(t: string)
    requires IsCjkText(t)
    ensures Loader.Strip(t) == t
  {
    Loader.StripFixed(t);
  }

  /** Every name source yields CJK text: the stripped group of an ID line or number prefix, or the fragment itself. */
  lemma NameFromShape(txt: string)
    ensures NameFrom(txt).Some? ==> IsCjkText(NameFrom(txt).value)
  {
    SearchFound(IdNameAt, txt, 0);
    var id := Search(IdNameAt, txt, 0);
    if id.Some? {
      CjkIsNotSpace(id.value.groups[4]);
    } else {
      SearchFound(LooseIdNameAt, txt, 0);
      var loose := Search(LooseIdNameAt, txt, 0);
      if loose.Some? {
        CjkIsNotSpace(loose.value.groups[1]);
      } else {
        SearchFound(NumberNameAt, txt, 0);
        var number := Search(NumberNameAt, txt, 0);
        if number.Some? {
          CjkIsNotSpace(number.value.groups[1]);
        }
      }
    }
  }

  /** Block 11 writes only the name, only when it is empty, as CJK text. */
  lemma NameRuleWrites(txt: string, info: TicketInfo)
    requires NameRule(txt, info).Some?
    ensures var r := NameRule(txt, info).value;
      info.name == "" && r == info.(name := r.name) && IsCjkText(r.name)
    ensures KeepsFilled(info, NameRule(txt, info).value)
    ensures WellShaped(info) ==> WellShaped(NameRule(txt, info).value)
  {
    NameFromShape(txt);
    var r := NameRule(txt, info).value;
    assert info.name == "" && r == info.(name := r.name) && IsCjkText(r.name);
    if WellShaped(info) {
      WellShapedUpdate(info, r);
    }
  }

  // ---------------------------------------------------------------------
  // No rule overwrites a filled field
  // ---------------------------------------------------------------------

  /**
   * One pass of the loop body never changes a field that is already non-empty,
   * nor the detection id, and keeps every field well shaped.
   */
  lemma StepPreserves(texts: seq<string>, txt: string, info: TicketInfo)
    requires txt in texts
    ensures KeepsFilled(info, Step(texts, txt, info))
    ensures WellShaped(info) ==> WellShaped(Step(texts, txt, info))
  {
    if TrainRule(txt, info).Some? {
      TrainRuleWrites(txt, info);
    } else if StationRule(txt, info).Some? {
      StationRuleWrites(txt, info);
    } else if DatetimeRule(texts, txt, info).Some? {
      DatetimeRuleWrites(texts, txt, info);
    } else if ComboRule(txt, info).Some? {
      ComboRuleWrites(txt, info);
    } else if CarriageRule(txt, info).Some? {
      CarriageRuleWrites(txt, info);
    } else if SeatRule(txt, info).Some? {
      SeatRuleWrites(txt, info);
    } else if BerthRule(txt, info).Some? {
      BerthRuleWrites(txt, info);
    } else if PriceRule(texts, txt, info).Some? {
      PriceRuleWrites(texts, txt, info);
    } else if SeatTypeRule(txt, info).Some? {
      SeatTypeRuleWrites(txt, info);
    } else if DiscountRule(txt, info).Some? {
      DiscountRuleWrites(txt, info);
    } else if NameRule(txt, info).Some? {
      NameRuleWrites(txt, info);
    }
  }

  lemma KeepsFilledTransitive(a: TicketInfo, b: TicketInfo, c: TicketInfo)
    requires KeepsFilled(a, b) && KeepsFilled(b, c)
    ensures KeepsFilled(a, c)
  {
  }

  lemma KeepsFilledThroughStep(a: TicketInfo, b: TicketInfo, texts: seq<string>, txt: string)
    requires txt in texts && KeepsFilled(a, b)
    ensures KeepsFilled(a, Step(texts, txt, b))
  {
    StepPreserves(texts, txt, b);
    KeepsFilledTransitive(a, b, Step(texts, txt, b));
  }

  /** Once a field is filled after j fragments it keeps that value for the rest of the scan. */
  lemma {:induction false} ParsedPrefixKeepsFilled(texts: seq<string>, j: nat, k: nat)
    requires j <= k <= |texts|
    ensures KeepsFilled(ParsedPrefix(texts, j), ParsedPrefix(texts, k))
  {
    if j < k {
      ParsedPrefixKeepsFilled(texts, j, k - 1);
      KeepsFilledThroughStep(ParsedPrefix(texts, j), ParsedPrefix(texts, k - 1), texts, texts[k - 1]);
    }
  }

  // ---------------------------------------------------------------------
  // Every stored value has the shape its rule produces
  // ---------------------------------------------------------------------

  /** With no fragments the record is the initial one: every field empty and detection id 0. */
  lemma ParsedEmpty()
    ensures Parsed([]) == EmptyTicket
    ensures WellShaped(EmptyTicket)
  {
    assert !ContainsAny("", Interference) by {
      forall j | 0 <= j < |Interference| ensures !Contains("", Interference[j]) { }
    }
  }

  /** A record whose every field is unchanged or freshly well shaped is well shaped. */
  lemma WellShapedUpdate(a: TicketInfo, b: TicketInfo)
    requires WellShaped(a)
    requires b.trainCode == a.trainCode || IsTrainCodeText(b.trainCode)
    requires b.departureStation == a.departureStation || IsStationName(b.departureStation)
    requires b.arrivalStation == a.arrivalStation || IsStationName(b.arrivalStation)
    requires b.departureStation == a.departureStation || a.departureStation == ""
    requires b.arrivalStation != a.arrivalStation ==> b.departureStation == a.departureStation && a.departureStation != ""
    requires b.datetime == a.datetime || IsDatetimeValue(b.datetime)
    requires b.carriage == a.carriage || IsDigitsText(b.carriage)
    requires b.seatNum == a.seatNum || IsSeatText(b.seatNum)
    requires b.berthType == a.berthType || b.berthType in BerthTypes
    requires b.price == a.price || b.price == "" || IsPriceText(b.price)
    requires b.seatType == a.seatType || b.seatType in SeatTypes
    requires b.discountType == a.discountType || b.discountType in ["学生票", "儿童票", "优惠票", "残疾军人票"]
    requires b.name == a.name || IsCjkText(b.name)
    requires b.detectionId == a.detectionId
    ensures WellShaped(b)
  {
  }

  lemma {:induction false} ParsedPrefixWellShaped(texts: seq<string>, k: nat)
    requires k <= |texts|
    ensures WellShaped(ParsedPrefix(texts, k))
  {
    if k == 0 {
      ParsedEmpty();
    } else {
      ParsedPrefixWellShaped(texts, k - 1);
      StepPreserves(texts, texts[k - 1], ParsedPrefix(texts, k - 1));
    }
  }

  /** Whatever the fragments, every field of the result is empty or well shaped. */
  lemma ParsedWellShaped(texts: seq<string>)
    ensures WellShaped(Parsed(texts))
  {
    ParsedPrefixWellShaped(texts, |texts|);
  }
  // ---------------------------------------------------------------------
  // The train code comes from the first fragment that holds one
  // ---------------------------------------------------------------------

  /** The train code block 1 reads from a fragment: the code at the leftmost match, if any. */
  function TrainCodeIn(txt: string): (r: Option<string>)
    ensures r.Some? ==> IsTrainCodeText(r.value)
  {
    SearchFound(TrainCodeAt, txt, 0);
    match Search(TrainCodeAt, txt, 0)
    case Some(m) => Some(m.groups[0])
    case None => None
  }

  /** `TrainCodeIn` is the code at the leftmost position where a train code starts, and None when none does. */
  lemma TrainCodeInLeftmost(txt: string)
    ensures TrainCodeIn(txt).None? <==> forall q :: 0 <= q < |txt| ==> TrainCodeAt(txt, q).None?
    ensures TrainCodeIn(txt).Some? ==> exists q :: (0 <= q < |txt| && TrainCodeAt(txt, q).Some?
      && TrainCodeAt(txt, q).value.groups[0] == TrainCodeIn(txt).value
      && forall q' :: 0 <= q' < q ==> TrainCodeAt(txt, q').None?)
  {
    SearchFound(TrainCodeAt, txt, 0);
    SearchLeftmost(TrainCodeAt, txt, 0);
  }

  /** Reference definition: the train code of the first fragment that holds one. */
  function FirstTrainCode(texts: seq<string>): (r: Option<string>)
    ensures r.Some? ==> IsTrainCodeText(r.value)
  {
    if texts == [] then None
    else if TrainCodeIn(texts[0]).Some? then TrainCodeIn(texts[0])
    else FirstTrainCode(texts[1..])
  }

  /** `FirstTrainCode` picks the fragment with the smallest index that holds a train code. */
  lemma {:induction false} FirstTrainCodeIsFirst(texts: seq<string>)
    ensures FirstTrainCode(texts).None? <==> forall i :: 0 <= i < |texts| ==> TrainCodeIn(texts[i]).None?
    ensures FirstTrainCode(texts).Some? ==> exists i :: (0 <= i < |texts| && TrainCodeIn(texts[i]) == FirstTrainCode(texts)
      && forall j :: 0 <= j < i ==> TrainCodeIn(texts[j]).None?)
  {
    if texts != [] && TrainCodeIn(texts[0]).None? {
      var rest := texts[1..];
      FirstTrainCodeIsFirst(rest);
      assert forall i :: 1 <= i < |texts| ==> texts[i] == rest[i - 1];
      if FirstTrainCode(rest).Some? {
        var i :| 0 <= i < |rest| && TrainCodeIn(rest[i]) == FirstTrainCode(rest)
          && forall j :: 0 <= j < i ==> TrainCodeIn(rest[j]).None?;
        assert TrainCodeIn(texts[i + 1]) == FirstTrainCode(texts);
      }
    }
  }

  /** Appending a fragment changes the first train code only when there was none so far. */
  lemma {:induction false} FirstTrainCodeSnoc(texts: seq<string>, txt: string)
    ensures FirstTrainCode(texts + [txt]) ==
      if FirstTrainCode(texts).Some? then FirstTrainCode(texts) else TrainCodeIn(txt)
  {
    if texts == [] {
      assert texts + [txt] == [txt];
    } else {
      assert (texts + [txt])[0] == texts[0];
      assert (texts + [txt])[1..] == texts[1..] + [txt];
      FirstTrainCodeSnoc(texts[1..], txt);
    }
  }

  lemma FirstTrainCodeExtend(texts: seq<string>, k: nat)
    requires 0 < k <= |texts|
    ensures FirstTrainCode(texts[..k]) ==
      if FirstTrainCode(texts[..k - 1]).Some? then FirstTrainCode(texts[..k - 1]) else TrainCodeIn(texts[k - 1])
  {
    assert texts[..k] == texts[..k - 1] + [texts[k - 1]];
    FirstTrainCodeSnoc(texts[..k - 1], texts[k - 1]);
  }

  /** Only block 1 writes the train code: one step fills it from the fragment exactly when it is still empty. */
  lemma StepTrainCode(texts: seq<string>, txt: string, info: TicketInfo)
    requires txt in texts
    ensures Step(texts, txt, info).trainCode ==
      if info.trainCode == "" && TrainCodeIn(txt).Some? then TrainCodeIn(txt).value else info.trainCode
  {
    if TrainRule(txt, info).Some? {
    } else if StationRule(txt, info).Some? {
      StationRuleWrites(txt, info);
    } else if DatetimeRule(texts, txt, info).Some? {
      DatetimeRuleWrites(texts, txt, info);
    } else if ComboRule(txt, info).Some? {
      ComboRuleWrites(txt, info);
    } else if CarriageRule(txt, info).Some? {
      CarriageRuleWrites(txt, info);
    } else if SeatRule(txt, info).Some? {
      SeatRuleWrites(txt, info);
    } else if BerthRule(txt, info).Some? {
      BerthRuleWrites(txt, info);
    } else if PriceRule(texts, txt, info).Some? {
      PriceRuleWrites(texts, txt, info);
    } else if SeatTypeRule(txt, info).Some? {
      SeatTypeRuleWrites(txt, info);
    } else if DiscountRule(txt, info).Some? {
      DiscountRuleWrites(txt, info);
    } else if NameRule(txt, info).Some? {
      NameRuleWrites(txt, info);
    }
  }

  /** After k fragments the train code is that of the first of them holding one, or empty if none does. */
  lemma {:induction false} ParsedPrefixTrainCode(texts: seq<string>, k: nat)
    requires k <= |texts|
    ensures ParsedPrefix(texts, k).trainCode ==
      match FirstTrainCode(texts[..k]) case Some(c) => c case None => ""
  {
    if k == 0 {
      assert texts[..0] == [];
    } else {
      ParsedPrefixTrainCode(texts, k - 1);
      StepTrainCode(texts, texts[k - 1], ParsedPrefix(texts, k - 1));
      FirstTrainCodeExtend(texts, k);
    }
  }

  /**
   * The train code of the result is empty exactly when no fragment holds one;
   * otherwise it is the code at the leftmost match of the first fragment that holds one.
   */
  lemma ParsedTrainCode(texts: seq<string>)
    ensures Parsed(texts).trainCode == "" <==> forall i :: 0 <= i < |texts| ==> TrainCodeIn(texts[i]).None?
    ensures Parsed(texts).trainCode != "" ==> exists i :: (0 <= i < |texts| && TrainCodeIn(texts[i]) == Some(Parsed(texts).trainCode)
      && forall j :: 0 <= j < i ==> TrainCodeIn(texts[j]).None?)
  {
    ParsedPrefixTrainCode(texts, |texts|);
    assert texts[..|texts|] == texts;
    FirstTrainCodeIsFirst(texts);
  }
  // ---------------------------------------------------------------------
  // The station rule shadows the later blocks
  // ---------------------------------------------------------------------

  /** A fragment the station pattern matches is all CJK, so it holds no train code. */
  lemma StationFragmentHasNoTrainCode(txt: string)
    requires StationFullMatch(txt)
    ensures TrainCodeIn(txt).None?
  {
    StationFullMatchIff(txt);
    TrainCodeInLeftmost(txt);
    forall q | 0 <= q < |txt|
      ensures TrainCodeAt(txt, q).None?
    {
      assert IsCjk(txt[q]);
    }
  }

  /**
   * While a station is missing, block 2 consumes every fragment the station
   * pattern matches: the record changes only in the first empty station, and
   * only when the name is accepted, so no later block (discount, name) sees it.
   */
  lemma StationShadows(texts: seq<string>, txt: string, info: TicketInfo)
    requires txt in texts && StationFullMatch(txt)
    requires info.departureStation == "" || info.arrivalStation == ""
    ensures Step(texts, txt, info) ==
      if !StationAccepted(txt) then info
      else if info.departureStation == "" then info.(departureStation := StationNameOf(txt))
      else info.(arrivalStation := StationNameOf(txt))
  {
    StationFragmentHasNoTrainCode(txt);
    assert TrainRule(txt, info).None?;
    assert StationRule(txt, info).Some?;
  }

  /**
   * The fragment list ["学惠"] yields departure station "学惠": the station
   * rule takes it, so neither the discount rule (which would store 学生票)
   * nor the name rule ever sees it.
   */
  lemma ParsedXuehui()
    ensures Parsed(["学惠"]) == EmptyTicket.(departureStation := "学惠")
  {
    var texts := ["学惠"];
    var txt := "学惠";
    assert StationFullMatch(txt);
    assert StationNameOf(txt) == txt by {
      assert txt == ['学'] + ['惠'];
    }
    assert !HasLatin(txt);
    assert !ContainsAny(txt, Interference) by {
      forall j | 0 <= j < |Interference| ensures !Contains(txt, Interference[j]) {
      }
    }
    StationShadows(texts, txt, EmptyTicket);
    assert Parsed(texts) == Step(texts, txt, EmptyTicket);
  }

  // ---------------------------------------------------------------------
  // Price: the standalone filter
  // ---------------------------------------------------------------------

  /**
   * When the lookahead finds nothing, block 8 consumes the fragment exactly
   * when a price occurs in it, and stores that price only if it has a '.'
   * or more than two characters.
   */
  lemma PriceStandalone(texts: seq<string>, txt: string, info: TicketInfo)
    requires txt in texts && info.price == "" && PriceRelated(txt)
    requires PriceAhead(texts, FirstIndex(texts, txt) + 1, Min(FirstIndex(texts, txt) + 3, |texts|), txt).None?
    ensures PriceRule(texts, txt, info).Some? <==> exists q :: 0 <= q < |txt| && PriceAt(txt, q).Some?
    ensures PriceRule(texts, txt, info).Some? ==>
      (PriceRule(texts, txt, info).value.price == "" || PlausiblePrice(PriceRule(texts, txt, info).value.price))
  {
    SearchFound(PriceAt, txt, 0);
    SearchLeftmost(PriceAt, txt, 0);
  }

  // ---------------------------------------------------------------------
  // Datetime: the lookahead needs a following fragment
  // ---------------------------------------------------------------------

  /** The lookahead appends at least one later fragment, so a text first seen last only has its own two sources. */
  lemma DatetimeForLast(texts: seq<string>, txt: string)
    requires txt in texts && FirstIndex(texts, txt) == |texts| - 1
    ensures DatetimeFor(texts, txt) == FragmentDatetime(txt)
  {
    assert Min(|texts| + 3, |texts|) == |texts|;
  }
}
