/**
 * parse_ticket_info (ticket_parser.py:25-218) as the source runs it: one
 * loop over the fragments that updates the record field by field and
 * `continue`s as soon as a block has consumed the fragment, with the two
 * lookahead loops that grow `combined_time` and `combined_price`.
 *
 * Each numbered block of the loop body is a method of its own that returns
 * the updated record and whether the block ended in `continue`; the loop
 * itself calls them in the source's order.
 */
module TicketParser {
  import opened Text
  import opened Patterns
  import opened TicketSpec
  import Loader
  import TicketProperties

  /** `for w in words: if w in s: ...; break`: the position of the first word of `words` that occurs in s. */
  method FindFirstContained(s: string, words: seq<string>) returns (found: Option<nat>)
    ensures found == FirstContained(s, words)
  {
    found := None;
    var k := 0;
    while k < |words|
      invariant 0 <= k <= |words|
      invariant forall j :: 0 <= j < k ==> !Contains(s, words[j])
    {
      if Contains(s, words[k]) {
        found := Some(k);
        return;
      }
      k := k + 1;
    }
  }

  /** Block 1 (ticket_parser.py:50-54). */
  method TryTrainCode(txt: string, info: TicketInfo) returns (next: TicketInfo, consumed: bool)
    ensures consumed <==> TrainRule(txt, info).Some?
    ensures next == if consumed then TrainRule(txt, info).value else info
  {
    next, consumed := info, false;
    if info.trainCode == "" {
      SearchFound(TrainCodeAt, txt, 0);
      var trainMatch := Search(TrainCodeAt, txt, 0);
      if trainMatch.Some? {
        next, consumed := info.(trainCode := trainMatch.value.groups[0]), true;
      }
    }
  }

  /** Block 2 (ticket_parser.py:57-69). */
  method TryStations(txt: string, info: TicketInfo) returns (next: TicketInfo, consumed: bool)
    ensures consumed <==> StationRule(txt, info).Some?
    ensures next == if consumed then StationRule(txt, info).value else info
  {
    next, consumed := info, false;
    if !(info.departureStation != "" && info.arrivalStation != "") {
      if StationFullMatch(txt) {
        var stationName := RemoveChar(txt, '站');
        if !ContainsAny(stationName, Interference) && !HasLatin(txt) {
          if info.departureStation == "" {
            next := info.(departureStation := stationName);
          } else if info.arrivalStation == "" {
            next := info.(arrivalStation := stationName);
          }
        }
        consumed := true;
      }
    }
  }

  /**
   * The lookahead loop of block 3 (ticket_parser.py:80-87): append each of the
   * next three fragments to `combined_time` in turn and stop at the first
   * `date time开` match.
   */
  method DatetimeLookahead(texts: seq<string>, idx: nat, txt: string) returns (found: Option<string>)
    requires idx < |texts|
    ensures found == OpenDatetimeAhead(texts, idx + 1, Min(idx + 4, |texts|), txt)
  {
    var combinedTime := txt;
    var stop := Min(idx + 4, |texts|);
    var j := idx + 1;
    while j < stop
      invariant idx + 1 <= j <= stop
      invariant OpenDatetimeAhead(texts, idx + 1, stop, txt) == OpenDatetimeAhead(texts, j, stop, combinedTime)
    {
      combinedTime := combinedTime + texts[j];
      SearchFound(DateTimeOpenAt, combinedTime, 0);
      var datetimeMatch := Search(DateTimeOpenAt, combinedTime, 0);
      if datetimeMatch.Some? {
        return Some(datetimeMatch.value.groups[1] + " " + datetimeMatch.value.groups[2]);
      }
      j := j + 1;
    }
    return None;
  }

  /** The two single-fragment datetime sources of block 3 (ticket_parser.py:89-104), tried in order. */
  method MatchFragmentDatetime(txt: string) returns (found: Option<string>)
    ensures found == FragmentDatetime(txt)
  {
    SearchFound(DateTimeColonAt, txt, 0);
    var colonMatch := Search(DateTimeColonAt, txt, 0);
    if colonMatch.Some? {
      found := Some(colonMatch.value.groups[1] + " " + colonMatch.value.groups[2]);
      assert found == ColonDatetime(txt);
      return;
    }
    assert ColonDatetime(txt).None?;
    SearchFound(DateTimeBareAt, txt, 0);
    var bareMatch := Search(DateTimeBareAt, txt, 0);
    found := None;
    if bareMatch.Some? {
      var g := bareMatch.value.groups;
      found := Some(g[1] + " " + (g[2] + ":" + g[3]));
    }
    assert found == BareDatetime(txt);
  }

  /** The three datetime sources of block 3 tried in order (ticket_parser.py:78-104). */
  method FindDatetime(texts: seq<string>, txt: string) returns (found: Option<string>)
    requires txt in texts
    ensures found == DatetimeFor(texts, txt)
  {
    var idx := FirstIndex(texts, txt);
    found := DatetimeLookahead(texts, idx, txt);
    if found.None? {
      found := MatchFragmentDatetime(txt);
    }
  }

  /** Block 3 (ticket_parser.py:72-104): a time-related fragment that no source matches is not consumed. */
  method TryDatetime(texts: seq<string>, txt: string, info: TicketInfo) returns (next: TicketInfo, consumed: bool)
    requires txt in texts
    ensures consumed <==> DatetimeRule(texts, txt, info).Some?
    ensures next == if consumed then DatetimeRule(texts, txt, info).value else info
  {
    next, consumed := info, false;
    if info.datetime == "" && TimeRelated(txt) {
      var datetime := FindDatetime(texts, txt);
      if datetime.Some? {
        next, consumed := info.(datetime := datetime.value), true;
      }
    }
  }

  /** Block 4 (ticket_parser.py:107-118). */
  method TryCombo(txt: string, info: TicketInfo) returns (next: TicketInfo, consumed: bool)
    ensures consumed <==> ComboRule(txt, info).Some?
    ensures next == if consumed then ComboRule(txt, info).value else info
  {
    next, consumed := info, false;
    if !(info.carriage != "" && info.seatNum != "" && info.berthType != "") {
      SearchFound(ComboAt, txt, 0);
      var comboMatch := Search(ComboAt, txt, 0);
      if comboMatch.Some? {
        var g := comboMatch.value.groups;
        if next.carriage == "" {
          next := next.(carriage := g[1]);
        }
        if next.seatNum == "" {
          next := next.(seatNum := g[2]);
        }
        if next.berthType == "" && g[3] != "" {
          next := next.(berthType := g[3]);
        }
        consumed := true;
      }
    }
  }

  /** Block 5 (ticket_parser.py:121-125). */
  method TryCarriage(txt: string, info: TicketInfo) returns (next: TicketInfo, consumed: bool)
    ensures consumed <==> CarriageRule(txt, info).Some?
    ensures next == if consumed then CarriageRule(txt, info).value else info
  {
    next, consumed := info, false;
    if info.carriage == "" {
      SearchFound(CarriageAt, txt, 0);
      var carriageMatch := Search(CarriageAt, txt, 0);
      if carriageMatch.Some? {
        next, consumed := info.(carriage := carriageMatch.value.groups[1]), true;
      }
    }
  }

  /** Block 6 (ticket_parser.py:128-133). */
  method TrySeat(txt: string, info: TicketInfo) returns (next: TicketInfo, consumed: bool)
    ensures consumed <==> SeatRule(txt, info).Some?
    ensures next == if consumed then SeatRule(txt, info).value else info
  {
    next, consumed := info, false;
    if info.seatNum == "" {
      SearchFound(SeatAt, txt, 0);
      var seatMatch := Search(SeatAt, txt, 0);
      if seatMatch.Some? {
        next, consumed := info.(seatNum := seatMatch.value.groups[1]), true;
      }
    }
  }

  /** Block 7 (ticket_parser.py:136-143). */
  method TryBerth(txt: string, info: TicketInfo) returns (next: TicketInfo, consumed: bool)
    ensures consumed <==> BerthRule(txt, info).Some?
    ensures next == if consumed then BerthRule(txt, info).value else info
  {
    next, consumed := info, false;
    if info.berthType == "" {
      var berth := FindFirstContained(txt, BerthTypes);
      if berth.Some? {
        next := info.(berthType := BerthTypes[berth.value]);
      }
      if next.berthType != "" {
        consumed := true;
      }
    }
  }

  /**
   * The lookahead loop of block 8 (ticket_parser.py:153-160): append each of the
   * next two fragments to `combined_price` in turn and stop at the first price match.
   */
  method PriceLookahead(texts: seq<string>, idx: nat, txt: string) returns (found: Option<string>)
    requires idx < |texts|
    ensures found == PriceAhead(texts, idx + 1, Min(idx + 3, |texts|), txt)
  {
    var combinedPrice := txt;
    var stop := Min(idx + 3, |texts|);
    var j := idx + 1;
    while j < stop
      invariant idx + 1 <= j <= stop
      invariant PriceAhead(texts, idx + 1, stop, txt) == PriceAhead(texts, j, stop, combinedPrice)
    {
      combinedPrice := combinedPrice + texts[j];
      SearchFound(PriceAt, combinedPrice, 0);
      var priceMatch := Search(PriceAt, combinedPrice, 0);
      if priceMatch.Some? {
        return Some(priceMatch.value.groups[1]);
      }
      j := j + 1;
    }
    return None;
  }

  /** Block 8 (ticket_parser.py:146-171). */
  method TryPrice(texts: seq<string>, txt: string, info: TicketInfo) returns (next: TicketInfo, consumed: bool)
    requires txt in texts
    ensures consumed <==> PriceRule(texts, txt, info).Some?
    ensures next == if consumed then PriceRule(texts, txt, info).value else info
  {
    next, consumed := info, false;
    if info.price == "" {
      if PriceRelated(txt) {
        var idx := FirstIndex(texts, txt);
        var ahead := PriceLookahead(texts, idx, txt);
        if ahead.Some? {
          next, consumed := info.(price := ahead.value), true;
          return;
        }
        SearchFound(PriceAt, txt, 0);
        var priceMatch := Search(PriceAt, txt, 0);
        if priceMatch.Some? {
          if PlausiblePrice(priceMatch.value.groups[1]) {
            next := info.(price := priceMatch.value.groups[1]);
          }
          consumed := true;
        }
      }
    }
  }

  /** Block 9 (ticket_parser.py:174-181). */
  method TrySeatType(txt: string, info: TicketInfo) returns (next: TicketInfo, consumed: bool)
    ensures consumed <==> SeatTypeRule(txt, info).Some?
    ensures next == if consumed then SeatTypeRule(txt, info).value else info
  {
    next, consumed := info, false;
    if info.seatType == "" {
      var seatType := FindFirstContained(txt, SeatTypes);
      if seatType.Some? {
        next := info.(seatType := SeatTypes[seatType.value]);
      }
      if next.seatType != "" {
        consumed := true;
      }
    }
  }

  /** Block 10 (ticket_parser.py:184-192). */
  method TryDiscount(txt: string, info: TicketInfo) returns (next: TicketInfo, consumed: bool)
    ensures consumed <==> DiscountRule(txt, info).Some?
    ensures next == if consumed then DiscountRule(txt, info).value else info
  {
    next, consumed := info, false;
    if info.discountType == "" {
      var discount := FindFirstContained(txt, DiscountTypes);
      if discount.Some? {
        var keyword := DiscountTypes[discount.value];
        next := info.(discountType := if keyword == "学惠" then "学生票" else keyword);
      }
      if next.discountType != "" {
        consumed := true;
      }
    }
  }

  /** The name sources of block 11 (ticket_parser.py:197-216), tried in order. */
  method NameSource(txt: string) returns (name: Option<string>)
    ensures name == NameFrom(txt)
  {
    SearchFound(IdNameAt, txt, 0);
    var idMatch := Search(IdNameAt, txt, 0);
    if idMatch.Some? {
      return Some(Loader.Strip(idMatch.value.groups[4]));
    }
    SearchFound(LooseIdNameAt, txt, 0);
    var looseMatch := Search(LooseIdNameAt, txt, 0);
    if looseMatch.Some? {
      return Some(Loader.Strip(looseMatch.value.groups[1]));
    }
    SearchFound(NumberNameAt, txt, 0);
    var numberMatch := Search(NumberNameAt, txt, 0);
    if numberMatch.Some? {
      return Some(Loader.Strip(numberMatch.value.groups[1]));
    }
    if NameFullMatch(txt) && txt !in NonNameWords {
      return Some(txt);
    }
    return None;
  }

  /** Block 11 (ticket_parser.py:195-216). */
  method TryName(txt: string, info: TicketInfo) returns (next: TicketInfo, consumed: bool)
    ensures consumed <==> NameRule(txt, info).Some?
    ensures next == if consumed then NameRule(txt, info).value else info
  {
    next, consumed := info, false;
    if info.name == "" {
      var name := NameSource(txt);
      if name.Some? {
        next, consumed := info.(name := name.value), true;
      }
    }
  }

  /** One pass of the loop body: the fragment goes to the blocks in order, and the first that fires consumes it. */
  method ParseStep(texts: seq<string>, txt: string, info: TicketInfo) returns (next: TicketInfo)
    requires txt in texts
    ensures next == Step(texts, txt, info)
  {
    var consumed;
    next, consumed := TryTrainCode(txt, info);
    if consumed { return; }
    next, consumed := TryStations(txt, info);
    if consumed { return; }
    next, consumed := TryDatetime(texts, txt, info);
    if consumed { return; }
    next, consumed := TryCombo(txt, info);
    if consumed { return; }
    next, consumed := TryCarriage(txt, info);
    if consumed { return; }
    next, consumed := TrySeat(txt, info);
    if consumed { return; }
    next, consumed := TryBerth(txt, info);
    if consumed { return; }
    next, consumed := TryPrice(texts, txt, info);
    if consumed { return; }
    next, consumed := TrySeatType(txt, info);
    if consumed { return; }
    next, consumed := TryDiscount(txt, info);
    if consumed { return; }
    next, consumed := TryName(txt, info);
  }

  /** parse_ticket_info: scan the fragments in order, each consumed by the first block that fires. */
  method ParseTicketInfo(texts: seq<string>) returns (info: TicketInfo)
    ensures info == Parsed(texts)
    ensures WellShaped(info)
  {
    info := EmptyTicket;
    for i := 0 to |texts|
      invariant info == ParsedPrefix(texts, i)
    {
      info := ParseStep(texts, texts[i], info);
    }
    TicketProperties.ParsedWellShaped(texts);
  }
}
