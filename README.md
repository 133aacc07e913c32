# Ticket OCR field extraction, modelled in Dafny

ticket_OCR turns the text fragments that OCR reads off a photographed train
ticket into a fixed record:
- train code, departure and arrival station, date and time;
- carriage, seat number, berth, price;
- seat class, passenger name, discount class, detection id.

This project models the two pieces of `ticket_parser.py` that do that work:

- **The cleaning step of `extract_text`** (`ticket_parser.py:18`). Every fragment is stripped of surrounding whitespace and empty ones are dropped, in order. This is `Loader.CleanTexts`, a pure function.
- **`parse_ticket_info`** (`ticket_parser.py:25-218`). It is one loop over the fragments that updates the record in place. Each fragment passes through eleven numbered blocks in a fixed order. Each block is guarded by "my field is still empty" and ends in `continue` when it fires, so a fragment is consumed by at most one block.
  - The loop is the method `TicketParser.ParseTicketInfo`, with one method per block (`TryTrainCode` … `TryName`). The datetime and price blocks also have their inner lookahead loops (`DatetimeLookahead`, `PriceLookahead`), which grow `combined_time` and `combined_price` by appending.
  - Each block method is proved equal to a rule function of `TicketSpec` (`TrainRule` … `NameRule`). That function returns `Some(new record)` when the block ends in `continue` and `None` when control falls through.
  - `Step` applies the first rule that fires, and `Parsed` folds `Step` over the fragments. The loop is proved to compute exactly `Parsed(texts)`.
  - The properties of the record are proved about `Parsed` in `TicketProperties`.

The regular expressions are hand-written matchers in `Patterns`. `XxxAt(s, p)` is the match starting at p. Each matcher builds in the choice Python's greedy, backtracking search ends with: a repeated class takes its longest run, `{2,6}` stops at six characters, and the identity-number widths are tried largest first. `PatternShapes` states each pattern position by position: where each run starts and stops, which literal stands where, and why a greedy run stops there. Its `XxxAtSpec` lemmas prove two things for each matcher. First, it succeeds exactly when that shape stands at p. Second, for every such shape it returns the match whose groups are the slices of the text between those positions. `Search` takes the leftmost position that matches, as `re.search` does. A match's `groups` are numbered as in Python: `groups[0]` is the whole match, and an optional group that did not take part is `""`.

Files:
- `text.dfy`: character classes, substring search, first word of a list found in a text;
- `loader.dfy`: `strip` and the cleaning comprehension;
- `patterns.dfy`: the matchers and `Search`;
- `pattern_shapes.dfy`: each pattern's shape over positions, and the proof that its matcher returns exactly that match;
- `ticket.dfy`: the record, the rule functions and the fold;
- `properties.dfy`: the lemmas;
- `parser.dfy`: the imperative scan.

The model follows what `parse_ticket_info` does, including what it does not do:
- It has no separate first pass that orders the stations around the train code. Stations are filled in fragment order, departure first (`ticket_parser.py:65-68`).
- It checks no day or hour range on datetimes, and has no "sticky" fallback pattern for concatenated digits (`ticket_parser.py:72-104`).
- It has no secondary carriage or seat rules for OCR substitutions (`ticket_parser.py:107-133`).
- It has no 5–3000 price range, and reads no price without a ￥ or 元 marker (`ticket_parser.py:146-171`).
- The `[a-zA-Z]` test of the station block (`ticket_parser.py:63`) never rejects anything. A fragment the station pattern fully matches is all CJK, so it has no Latin letter (`Patterns.StationFragmentHasNoLatin`).
- The fragment list `["学惠"]` gives departure station "学惠", not discount class 学生票. The station rule consumes it before the discount rule can see it (`TicketProperties.ParsedXuehui`).

## Model

| member | source | states |
|---|---|---|
| `Loader.StripLeft` | ticket_parser.py:18 | the result is a suffix of the input; everything cut is whitespace; the result does not start with whitespace |
| `Loader.StripRight` | ticket_parser.py:18 | the result is a prefix of the input; everything cut is whitespace; the result does not end with whitespace |
| `Loader.StripIsTrimmedSlice` | ticket_parser.py:18 | `strip()` is a slice `s[a..b]` with only whitespace outside it, and the slice neither starts nor ends with whitespace |
| `Loader.StripFixed` | ticket_parser.py:18 | a text is unchanged by `strip()` exactly when it is empty or has non-whitespace at both ends |
| `Loader.StripIdempotent` | ticket_parser.py:18 | stripping twice is stripping once |
| `Loader.StripEmpty` | ticket_parser.py:18 | a text strips to "" exactly when it is all whitespace, which is the `if txt.strip()` filter |
| `Loader.CleanTexts` | ticket_parser.py:18 | cleaning never produces more fragments than it was given |
| `Loader.CleanTextsStripped` | ticket_parser.py:18 | every cleaned fragment is non-empty and has no surrounding whitespace |
| `Loader.CleanTextsAppend` | ticket_parser.py:18 | cleaning works fragment by fragment, so it keeps the input order |
| `Loader.CleanTextsMembers` | ticket_parser.py:18 | a text is among the cleaned fragments exactly when it is non-empty and is the stripped form of some input fragment |
| `Loader.CleanTextsIdempotent` | ticket_parser.py:18 | cleaning an already cleaned list changes nothing |
| `Loader.CleanOfClean` | ticket_parser.py:18 | a list of non-empty, already stripped fragments is its own cleaning |
| `Text.FirstContained` | ticket_parser.py:176-179 | the `for w in words: if w in txt: … break` loop: the index of a listed word that occurs in the text with no earlier listed word occurring, and None exactly when no listed word occurs |
| `Text.RemoveChar` | ticket_parser.py:61 | `replace("站", "")`: a character is in the result exactly when it is in the input and is not the removed one |
| `Text.RemoveCharAppend` | ticket_parser.py:61 | removing a character from a concatenation is removing it from each part |
| `Text.RemoveCharAbsent` | ticket_parser.py:61 | a text without the character is left unchanged |
| `Patterns.TrainCodeAt` | ticket_parser.py:51 | `[GDCKTZ]\d{1,4}` matches at p exactly when a train letter and a digit stand there; the match is a train letter and 1–4 digits, and stops only at four digits or at a non-digit |
| `Patterns.DateTimeColonAt` | ticket_parser.py:94 | a match has group 1 of the form `\d{4}年\d{1,2}月\d{1,2}日` and group 2 of the form `\d{1,2}:\d{2}` |
| `Patterns.DateTimeOpenAt` | ticket_parser.py:84 | the same two groups, and the match ends in 开 |
| `Patterns.DateTimeBareAt` | ticket_parser.py:99 | group 1 is a date; groups 2 and 3 are two digits each |
| `Patterns.ComboAt` | ticket_parser.py:109 | group 1 is digits; group 2 is digits with at most one trailing A–F; group 3 is "" or one of 上铺/中铺/下铺 |
| `Patterns.CarriageAt` | ticket_parser.py:122 | group 1 is digits and the match ends in 车 |
| `Patterns.SeatAt` | ticket_parser.py:130 | group 1 is digits with at most one trailing A–F, and the match ends in 号 |
| `Patterns.PriceAt` | ticket_parser.py:157 | `￥?(\d+\.?\d*)元?` matches at p exactly when a digit, or ￥ then a digit, stands there; group 1 starts with a digit and has at most one '.' |
| `Patterns.IdNameAt` | ticket_parser.py:197 | group 1 is six digits, group 2 has 8–10 characters and group 3 has 4. Group 4 is CJK text, and the match ends at the end of the text or before a non-CJK character |
| `Patterns.LooseIdNameAt` | ticket_parser.py:202 | group 1 is CJK text, and the match ends at the end of the text or before a non-CJK character |
| `Patterns.NumberNameAt` | ticket_parser.py:207 | group 1 is 2–6 CJK characters |
| `Patterns.Search` | ticket_parser.py:51 | `re.search`: a match found from p starts at or after p, inside the text |
| `Patterns.SearchFound` | ticket_parser.py:51 | the match `re.search` returns is the pattern's match at the position where it starts |
| `Patterns.SearchLeftmost` | ticket_parser.py:51 | no earlier position matches, and the search finds nothing exactly when no position matches |
| `Patterns.StationFullMatchIff` | ticket_parser.py:59 | `[CJK]{2,6}(站)?` fully matches exactly the all-CJK texts of 2–6 characters and those of 7 ending in 站 |
| `Patterns.StationFragmentHasNoLatin` | ticket_parser.py:59-63 | a fragment the station pattern matches has no Latin letter, so the `[a-zA-Z]` test never rejects |
| `PatternShapes.DateAtSpec` | ticket_parser.py:84 | `\d{4}年\d{1,2}月\d{1,2}日` matches at p exactly when four digits, 年, one or two digits, 月, one or two digits and 日 stand there; the match ends just after that 日 |
| `PatternShapes.ClockAtSpec` | ticket_parser.py:94 | `\d{1,2}:\d{2}` matches at q exactly when one or two digits, ':' and two digits stand there; the match ends after those two digits |
| `PatternShapes.SeatEndAtSpec` | ticket_parser.py:130 | `\d+[A-F]?号` matches at q exactly when a run of digits, then at most one A–F letter, then 号 stand there; the match ends just after that 号 |
| `PatternShapes.DateTimeColonAtSpec` | ticket_parser.py:94 | the matcher succeeds exactly when a date, a run of blanks and a clock stand at p. For any such positions, group 1 is the date slice and group 2 the clock slice of the text |
| `PatternShapes.DateTimeOpenAtSpec` | ticket_parser.py:84 | the same, with 开 right after the clock; the match ends just after 开 |
| `PatternShapes.DateTimeBareAtSpec` | ticket_parser.py:99 | the matcher succeeds exactly when a date, a run of blanks and four digits stand at p. Group 1 is the date slice, and groups 2 and 3 are the first and last two of the four digits |
| `PatternShapes.CarriageAtSpec` | ticket_parser.py:122 | `(\d+)车` matches at p exactly when digits from p run up to a 车; group 1 is those digits |
| `PatternShapes.SeatAtSpec` | ticket_parser.py:130 | `(\d+[A-F]?)号` matches at p exactly when the seat shape stands there; group 1 is the slice from p up to 号 |
| `PatternShapes.ComboAtSpec` | ticket_parser.py:109 | the matcher succeeds exactly when digits run from p to a 车 followed by the seat shape. Group 1 is the digit slice and group 2 the seat slice. Group 3 is the berth word when one directly follows 号, and "" otherwise |
| `PatternShapes.PriceAtSpec` | ticket_parser.py:157 | the matcher succeeds exactly when a digit, or ￥ then a digit, stands at p. Group 1 is the longest run of digits, then a '.' and the digits after it when a '.' follows. The match takes a 元 right after group 1 |
| `PatternShapes.IdWidthSpec` | ticket_parser.py:197 | the width tried in the greedy order is the largest of lo, lo + 1 and lo + 2 for which the middle, the check part and a CJK character fit. Nothing is found exactly when none fits |
| `PatternShapes.IdNameAtSpec` | ticket_parser.py:197 | the matcher succeeds exactly when six digits, a masked middle of the largest width that fits, four check characters and a CJK run stand at p. The four groups are those consecutive slices, and group 4 runs to the end of the CJK characters |
| `PatternShapes.LooseIdNameAtSpec` | ticket_parser.py:202 | the same for the 15–17-character form. Group 1 is the CJK run after the check character, up to where the CJK characters end |
| `PatternShapes.NumberNameAtSpec` | ticket_parser.py:207 | the matcher succeeds exactly when digits, blanks and at least two CJK characters stand at p. Group 1 is the CJK slice, which stops at six characters or where the CJK characters end |
| `TicketSpec.FirstIndex` | ticket_parser.py:78 | `list.index`: an index holding the value, with no earlier index holding it |
| `TicketSpec.DatetimeValueShape` | ticket_parser.py:86 | a date and a clock joined by one space form a datetime value |
| `TicketSpec.BareClockShape` | ticket_parser.py:103 | two 2-digit groups joined by ':' form a clock `\d{1,2}:\d{2}` |
| `TicketSpec.OpenDatetimeAhead` | ticket_parser.py:80-87 | whatever the lookahead over appended fragments finds is a `<date> <clock>` value |
| `TicketSpec.ColonDatetime` | ticket_parser.py:94-97 | the single-fragment `h:mm` source yields a `<date> <clock>` value |
| `TicketSpec.BareDatetime` | ticket_parser.py:99-104 | the single-fragment `hhmm` source yields a `<date> <clock>` value, reformatted as `hh:mm` |
| `TicketSpec.FragmentDatetime` | ticket_parser.py:93-104 | the two single-fragment sources, tried in order, yield a `<date> <clock>` value |
| `TicketSpec.DatetimeFor` | ticket_parser.py:78-104 | the three sources, tried in order, yield a `<date> <clock>` value |
| `TicketSpec.PriceAhead` | ticket_parser.py:153-160 | what the price lookahead finds starts with a digit and has at most one '.' |
| `TicketProperties.TrainRuleWrites` | ticket_parser.py:50-54 | block 1 fires only while the train code is empty and changes nothing else; it stores a well-shaped train code |
| `TicketProperties.StationNameOfSuffixed` | ticket_parser.py:59-61 | a name without 站 comes back unchanged, with or without a 站 after it |
| `TicketProperties.StationNameShape` | ticket_parser.py:59-63 | an accepted station name is CJK text with no 站 and no interference word |
| `TicketProperties.StationRuleWrites` | ticket_parser.py:57-69 | block 2 changes the departure station if it is empty, otherwise the arrival station if that is empty, and otherwise nothing. It stores only accepted names, from fragments without Latin letters |
| `TicketProperties.DatetimeRuleWrites` | ticket_parser.py:72-104 | block 3 fires only while the datetime is empty, changes nothing else, and stores `<date> <clock>` |
| `TicketProperties.ComboFillWrites` | ticket_parser.py:112-117 | a combo match fills each of carriage and seat only if it is empty, and the berth only if it is empty and the berth group is present. Nothing else changes |
| `TicketProperties.ComboRuleWrites` | ticket_parser.py:107-118 | block 4 never changes a filled carriage, seat or berth, nor any other field. Its new values are digits, a seat number and a berth word |
| `TicketProperties.CarriageRuleWrites` | ticket_parser.py:121-125 | block 5 fires only while the carriage is empty, changes nothing else, and stores digits |
| `TicketProperties.SeatRuleWrites` | ticket_parser.py:128-133 | block 6 fires only while the seat number is empty, changes nothing else, and stores digits with an optional A–F |
| `TicketProperties.BerthRuleWrites` | ticket_parser.py:136-143 | block 7 fires only while the berth is empty, changes nothing else, and stores one of 上铺/中铺/下铺 |
| `TicketProperties.PriceRuleWrites` | ticket_parser.py:146-171 | block 8 fires only on fragments with ￥ or 元 while the price is empty, and changes nothing else. It stores a well-shaped price, or leaves the price empty when the match is rejected |
| `TicketProperties.SeatTypeRuleWrites` | ticket_parser.py:174-181 | block 9 fires only while the seat class is empty, changes nothing else, and stores one of the eight classes |
| `TicketProperties.DiscountRuleWrites` | ticket_parser.py:184-192 | block 10 fires only while the discount class is empty and changes nothing else. It stores 学生票, 儿童票, 优惠票 or 残疾军人票, never 学惠 |
| `TicketProperties.CjkIsNotSpace` | ticket_parser.py:199 | `strip()` leaves CJK text unchanged |
| `TicketProperties.NameFromShape` | ticket_parser.py:197-216 | every one of the four name sources yields non-empty CJK text |
| `TicketProperties.NameRuleWrites` | ticket_parser.py:195-216 | block 11 fires only while the name is empty, changes nothing else, and stores non-empty CJK text |
| `TicketProperties.StepPreserves` | ticket_parser.py:48-216 | one pass of the loop body never changes a filled field or the detection id, and keeps every field well shaped |
| `TicketProperties.KeepsFilledTransitive` | ticket_parser.py:48-216 | "no filled field changes" composes over consecutive steps |
| `TicketProperties.KeepsFilledThroughStep` | ticket_parser.py:48-216 | a further pass of the loop keeps every field filled before it |
| `TicketProperties.ParsedPrefixKeepsFilled` | ticket_parser.py:48-216 | a field filled after j fragments keeps its value through the rest of the scan |
| `TicketProperties.ParsedEmpty` | ticket_parser.py:29-42 | with no fragments the result is the initial record: every field "" and detection id 0, which is well shaped |
| `TicketProperties.WellShapedUpdate` | ticket_parser.py:48-216 | a record whose fields are each unchanged or freshly well shaped stays well shaped, and departure is filled before arrival |
| `TicketProperties.ParsedPrefixWellShaped` | ticket_parser.py:48-216 | after any number of fragments every field is empty or has its rule's shape |
| `TicketProperties.ParsedWellShaped` | ticket_parser.py:25-218 | every field of the result is empty or well shaped, and an arrival station implies a departure station |
| `TicketProperties.TrainCodeIn` | ticket_parser.py:51-53 | the train code read from a fragment is a train letter and 1–4 digits |
| `TicketProperties.TrainCodeInLeftmost` | ticket_parser.py:51-53 | that code is the match at the leftmost position where a train code starts, and there is none exactly when no position starts one |
| `TicketProperties.FirstTrainCode` | ticket_parser.py:50-54 | reference definition: the train code of the first fragment holding one, which is well shaped |
| `TicketProperties.FirstTrainCodeIsFirst` | ticket_parser.py:50-54 | the reference picks the fragment with the smallest index holding a code, and is None exactly when no fragment holds one |
| `TicketProperties.FirstTrainCodeSnoc` | ticket_parser.py:50-54 | appending a fragment changes the first train code only when there was none so far |
| `TicketProperties.FirstTrainCodeExtend` | ticket_parser.py:50-54 | the same, for prefixes of one fragment list |
| `TicketProperties.StepTrainCode` | ticket_parser.py:48-216 | only block 1 writes the train code: one pass fills it from the fragment exactly when it is empty and the fragment holds a code |
| `TicketProperties.ParsedPrefixTrainCode` | ticket_parser.py:48-54 | after k fragments the train code is the reference's code for those k fragments, or "" |
| `TicketProperties.ParsedTrainCode` | ticket_parser.py:25-218 | the result's train code is "" exactly when no fragment holds one. Otherwise it is the leftmost code of the first fragment that holds one |
| `TicketProperties.StationFragmentHasNoTrainCode` | ticket_parser.py:51-59 | a fragment the station pattern matches holds no train code |
| `TicketProperties.StationShadows` | ticket_parser.py:57-69 | while a station is empty, a fragment the station pattern matches is consumed by block 2. The record changes only in the first empty station and only when the name is accepted, so no later block sees it |
| `TicketProperties.ParsedXuehui` | ticket_parser.py:57-69 | `["学惠"]` yields the initial record with departure station "学惠": the discount class stays empty |
| `TicketProperties.PriceStandalone` | ticket_parser.py:165-171 | with nothing found by the lookahead, block 8 consumes the fragment exactly when a price occurs in it, and stores that price only if it has a '.' or more than two characters |
| `TicketProperties.DatetimeForLast` | ticket_parser.py:78-104 | the lookahead appends at least one later fragment, so a text first seen at the last position gets only its single-fragment sources |
| `TicketParser.FindFirstContained` | ticket_parser.py:176-179 | the word-list loop returns the first listed word that occurs |
| `TicketParser.TryTrainCode` | ticket_parser.py:50-54 | block 1 consumes the fragment exactly when `TrainRule` fires, and leaves the record that rule gives |
| `TicketParser.TryStations` | ticket_parser.py:57-69 | block 2 consumes the fragment exactly when `StationRule` fires, and leaves the record that rule gives |
| `TicketParser.DatetimeLookahead` | ticket_parser.py:80-87 | the `combined_time` loop returns the lookahead's datetime over the next three fragments |
| `TicketParser.MatchFragmentDatetime` | ticket_parser.py:93-104 | the two single-fragment datetime sources, tried in order |
| `TicketParser.FindDatetime` | ticket_parser.py:78-104 | the three datetime sources, tried in order |
| `TicketParser.TryDatetime` | ticket_parser.py:72-104 | block 3 consumes the fragment exactly when `DatetimeRule` fires; a time-related fragment no source matches falls through |
| `TicketParser.TryCombo` | ticket_parser.py:107-118 | block 4 consumes the fragment exactly when `ComboRule` fires, and leaves the record that rule gives |
| `TicketParser.TryCarriage` | ticket_parser.py:121-125 | block 5 consumes the fragment exactly when `CarriageRule` fires, and leaves the record that rule gives |
| `TicketParser.TrySeat` | ticket_parser.py:128-133 | block 6 consumes the fragment exactly when `SeatRule` fires, and leaves the record that rule gives |
| `TicketParser.TryBerth` | ticket_parser.py:136-143 | block 7 consumes the fragment exactly when `BerthRule` fires, and leaves the record that rule gives |
| `TicketParser.PriceLookahead` | ticket_parser.py:153-160 | the `combined_price` loop returns the lookahead's price over the next two fragments |
| `TicketParser.TryPrice` | ticket_parser.py:146-171 | block 8 consumes the fragment exactly when `PriceRule` fires, including a rejected standalone match |
| `TicketParser.TrySeatType` | ticket_parser.py:174-181 | block 9 consumes the fragment exactly when `SeatTypeRule` fires, and leaves the record that rule gives |
| `TicketParser.TryDiscount` | ticket_parser.py:184-192 | block 10 consumes the fragment exactly when `DiscountRule` fires, and leaves the record that rule gives |
| `TicketParser.NameSource` | ticket_parser.py:197-216 | the four name sources, tried in order |
| `TicketParser.TryName` | ticket_parser.py:195-216 | block 11 consumes the fragment exactly when `NameRule` fires, and leaves the record that rule gives |
| `TicketParser.ParseStep` | ticket_parser.py:49-216 | one pass of the loop body gives the record `Step` gives: the fragment goes to the blocks in order, and the first that fires consumes it |
| `TicketParser.ParseTicketInfo` | ticket_parser.py:25-218 | the loop computes `Parsed(texts)`, whose properties are the lemmas above, and its result is well shaped |

## Left out

- Reading the OCR JSON file (`open`, `json.load`), the `rec_texts` lookup and the exception handler of `extract_text`, and every `print`, are not modelled. They are I/O. The list under `rec_texts` is the input of `CleanTexts`; a missing key or a read failure stands for the empty list.
- yolo_ocr.py is not part of this model. It is detection, OCR and file plumbing around foreign libraries. The detection id it writes into the record is caller glue, so the model's detection id stays 0.
- Python's regular-expression engine is not modelled. Each pattern is a hand-written matcher whose greedy and backtracking choices were worked out by hand. Each matcher is proved to return exactly the match that the pattern's position-by-position shape describes. That this shape is what Python's `re` returns is argued in the comments, not proved.
- Unicode classes are fixed sets:
  - `\d` is ASCII 0–9 only;
  - `\s` and `strip()` use the fixed list of characters for which Python's `str.isspace` holds;
  - the CJK class is U+4E00..U+9FA5, as in the source.
- Python's `None` for an optional group that did not take part is `""`. The source only tests it for truth.
