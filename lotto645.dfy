/** The lotto 6/45 client: the purchase form, the reading of the purchase answer and the
    winnings history, with every page the site sends given as already-extracted values. */
module Lotto645 {
  import opened Wrappers
  import opened Strings
  import opened Common
  import Auth

  // ---------------------------------------------------------------- purchase form

  /** `Lotto645Mode`; every mode other than `Auto` takes the manual branch of `buy_lotto645`. */
  datatype Mode = Auto | Manual | Buy | Check

  /** `[direct, draw_date, tlmt_date]`, the list `_getRequirements` reads from the site. */
  datatype Requirements = Requirements(direct: string, drawDate: string, tlmtDate: string)

  /** One game of the `param` list; `arrGameChoiceNum == None` is JSON `null`. */
  datatype GameParam = GameParam(genType: string, arrGameChoiceNum: Option<string>, alpabet: string)

  /** The form posted to `execBuy.do`, with `param` kept as a list instead of its JSON text. */
  datatype BuyBody = BuyBody(
    round: string,
    direct: string,
    nBuyAmount: string,
    param: seq<GameParam>,
    roundDrawDate: string,
    wamtPayTlmtEndDt: string,
    gameCnt: int)

  /** The `AssertionError`s the builders raise. */
  datatype BuyError = InvalidCount | InvalidManualNumbers

  const MAX_GAMES := 5
  const PRICE_PER_GAME := 1000

  predicate ValidCount(cnt: int) {
    1 <= cnt <= MAX_GAMES
  }

  /** `_get_round`: the round on sale is the one after the last drawn round, as decimal text. */
  function NextRound(lastDrawn: int): (r: string)
    ensures r != [] && (IsDigits(r) || (r[0] == '-' && IsDigits(r[1..])))
    ensures IntValue(r) == lastDrawn + 1
  {
    IntRoundTrip(lastDrawn + 1);
    IntToDecimal(lastDrawn + 1)
  }

  /** The fields both builders share; `param` is the only one that depends on the mode. */
  function FormFor(cnt: nat, req: Requirements, lastDrawn: int, param: seq<GameParam>): (b: BuyBody)
    ensures b.round == NextRound(lastDrawn) && b.gameCnt == cnt && b.param == param
    ensures b.direct == req.direct && b.roundDrawDate == req.drawDate && b.wamtPayTlmtEndDt == req.tlmtDate
    ensures IsDigits(b.nBuyAmount) && DecimalValue(b.nBuyAmount) == PRICE_PER_GAME * cnt
  {
    DecimalRoundTrip(PRICE_PER_GAME * cnt);
    BuyBody(NextRound(lastDrawn), req.direct, NatToDecimal(PRICE_PER_GAME * cnt), param,
            req.drawDate, req.tlmtDate, cnt)
  }

  /** `_generate_body_for_auto_mode`: `cnt` automatic games in slots A, B, ... */
  function AutoBody(cnt: int, req: Requirements, lastDrawn: int): (r: Result<BuyBody, BuyError>)
    ensures r.Success? <==> ValidCount(cnt)
    ensures r.Failure? ==> r.error == InvalidCount
    ensures r.Success? ==> var b := r.value;
      b == FormFor(cnt, req, lastDrawn, b.param) && |b.param| == cnt &&
      forall i :: 0 <= i < cnt ==> b.param[i] == GameParam("0", None, SLOTS[i])
  {
    if !ValidCount(cnt) then Failure(InvalidCount)
    else Success(FormFor(cnt, req, lastDrawn, seq(cnt, i requires 0 <= i < cnt => GameParam("0", None, SLOTS[i]))))
  }

  /** A manual number as the site expects it: two decimal digits, such as "07". */
  predicate ValidManualNumber(n: string) {
    |n| == 2 && IsDigits(n)
  }

  /** One manual game: six such numbers. */
  predicate ValidNumberSet(ns: seq<string>) {
    |ns| == 6 && forall j :: 0 <= j < 6 ==> ValidManualNumber(ns[j])
  }

  /** The checks `_generate_body_for_manual` asserts on the chosen numbers. */
  predicate ValidManualNumbers(cnt: int, manual: Option<seq<seq<string>>>) {
    manual.Some? && |manual.value| == cnt && forall k :: 0 <= k < cnt ==> ValidNumberSet(manual.value[k])
  }

  /** `_generate_body_for_manual`: game `i` is the `i`-th number set, comma-joined, in slot `i`. */
  function ManualBody(cnt: int, req: Requirements, manual: Option<seq<seq<string>>>, lastDrawn: int)
    : (r: Result<BuyBody, BuyError>)
    ensures r.Success? <==> ValidCount(cnt) && ValidManualNumbers(cnt, manual)
    ensures r.Failure? && !ValidCount(cnt) ==> r.error == InvalidCount
    ensures r.Failure? && ValidCount(cnt) ==> r.error == InvalidManualNumbers
    ensures r.Success? ==> var b := r.value;
      b == FormFor(cnt, req, lastDrawn, b.param) && |b.param| == cnt &&
      forall i :: 0 <= i < cnt ==>
        b.param[i] == GameParam("1", Some(Join(manual.value[i], ",")), SLOTS[i])
  {
    if !ValidCount(cnt) then Failure(InvalidCount)
    else if !ValidManualNumbers(cnt, manual) then Failure(InvalidManualNumbers)
    else
      var sets := manual.value;
      Success(FormFor(cnt, req, lastDrawn,
        seq(cnt, i requires 0 <= i < cnt => GameParam("1", Some(Join(sets[i], ",")), SLOTS[i]))))
  }

  /** The form `buy_lotto645` posts: the count is checked first, then the mode picks the builder. */
  function BuyForm(cnt: int, mode: Mode, req: Requirements, lastDrawn: int, manual: Option<seq<seq<string>>>)
    : (r: Result<BuyBody, BuyError>)
    ensures !ValidCount(cnt) ==> r == Failure(InvalidCount)
    ensures mode == Auto ==> r == AutoBody(cnt, req, lastDrawn)
    ensures mode != Auto ==> r == ManualBody(cnt, req, manual, lastDrawn)
  {
    if !ValidCount(cnt) then Failure(InvalidCount)
    else if mode == Auto then AutoBody(cnt, req, lastDrawn)
    else ManualBody(cnt, req, manual, lastDrawn)
  }

  /** A purchase form is only ever built for one to five games, and it then charges 1000 won per game. */
  lemma FormChargesPerGame(cnt: int, mode: Mode, req: Requirements, lastDrawn: int, manual: Option<seq<seq<string>>>)
    ensures var r := BuyForm(cnt, mode, req, lastDrawn, manual);
      r.Success? ==> 1 <= cnt <= 5 && r.value.gameCnt == cnt && |r.value.param| == cnt &&
                     DecimalValue(r.value.nBuyAmount) == 1000 * cnt
  {
  }

  /** The games of a form sit in distinct slots A, B, ... in order. */
  lemma SlotsInOrder(cnt: int, mode: Mode, req: Requirements, lastDrawn: int, manual: Option<seq<seq<string>>>)
    ensures var r := BuyForm(cnt, mode, req, lastDrawn, manual);
      r.Success? ==> forall i, j :: 0 <= i < j < |r.value.param| ==>
        r.value.param[i].alpabet == [(65 + i) as char] && r.value.param[i].alpabet != r.value.param[j].alpabet
  {
    SlotsAreFiveDistinctLetters();
  }

  /** The numbers of each manual game can be read back from the posted text by splitting on commas. */
  lemma ManualNumbersReadBack(cnt: int, req: Requirements, manual: Option<seq<seq<string>>>, lastDrawn: int, i: int)
    requires ManualBody(cnt, req, manual, lastDrawn).Success? && 0 <= i < cnt
    ensures var g := ManualBody(cnt, req, manual, lastDrawn).value.param[i];
      g.arrGameChoiceNum.Some? && Split(g.arrGameChoiceNum.value, ',') == manual.value[i]
  {
    var ns := manual.value[i];
    assert ValidNumberSet(ns);
    forall k | 0 <= k < |ns|
      ensures ',' !in ns[k]
    {
      assert ValidManualNumber(ns[k]);
      assert forall x :: 0 <= x < |ns[k]| ==> ns[k][x] != ',';
    }
    SplitJoin(ns, ',');
  }

  // ---------------------------------------------------------------- purchase answer

  /** The `result` object of the purchase answer; a `None` field is a missing key. */
  datatype BuyResult = BuyResult(resultMsg: Option<string>, buyRound: Option<string>, arrGameChoiceNum: Option<seq<string>>)

  /** The purchase answer; `result == None` is a missing key, read as `{}`. */
  datatype BuyResponse = BuyResponse(loginYn: Option<string>, result: Option<BuyResult>, balance: Option<string>)

  const NO_RESULT := BuyResult(None, None, None)

  /** `result.get("resultMsg", "FAILURE").upper()` with `result = body.get("result", {})`. */
  function ResultMsgUpper(body: BuyResponse): string {
    Upper(body.result.GetOr(NO_RESULT).resultMsg.GetOr("FAILURE"))
  }

  /** `_show_result`: whether it reaches its end past both early returns. It returns `None` either way. */
  predicate ShowResultAccepts(body: BuyResponse) {
    body.loginYn == Some("Y") && ResultMsgUpper(body) == "SUCCESS"
  }

  /** An answer without a `resultMsg` never counts as a purchase. */
  lemma MissingResultMsgRejected(body: BuyResponse)
    requires body.result.None? || body.result.value.resultMsg.None?
    ensures !ShowResultAccepts(body)
  {
    assert ResultMsgUpper(body) == Upper("FAILURE");
    assert Upper("FAILURE")[0] == 'F';
  }

  /** Acceptance needs the login flag: an answer with `loginYn` other than "Y" is refused
      whatever its message says. */
  lemma LoginFlagRequired(body: BuyResponse)
    requires body.loginYn != Some("Y")
    ensures !ShowResultAccepts(body)
  {
  }

  /** For a message of ASCII letters, acceptance is "success" compared without regard to case. */
  lemma ResultMsgIgnoresCase(msg: string)
    requires forall i :: 0 <= i < |msg| ==> IsAsciiLetter(msg[i])
    ensures ShowResultAccepts(BuyResponse(Some("Y"), Some(BuyResult(Some(msg), None, None)), None)) <==>
      |msg| == 7 && forall i :: 0 <= i < 7 ==> AsciiUpper(msg[i]) == "SUCCESS"[i]
  {
    UpperOfAscii(msg);
  }

  // ---------------------------------------------------------------- winnings history

  /** The purchase-history search form posted to `lottoBuyList`. */
  datatype HistoryQuery = HistoryQuery(
    nowPage: int, searchStartDate: string, searchEndDate: string, winGrade: int, lottoId: string, sortOrder: string)

  function QueryFor(range: SearchRange): (q: HistoryQuery)
    ensures q.searchStartDate == range.searchStartDate && q.searchEndDate == range.searchEndDate
    ensures q.nowPage == 1 && q.winGrade == 2 && q.lottoId == "LO40" && q.sortOrder == "DESC"
  {
    HistoryQuery(1, range.searchStartDate, range.searchEndDate, 2, "LO40", "DESC")
  }

  /** One `tr` of the history table: the texts of its `td` cells and the `href` of the link in
      cell 3 (`None` when there is no link or the link has no `href`). */
  datatype Row = Row(cells: seq<string>, href: Option<string>)

  /** One `span` of `div.nums`: its text, and the text of the `ball_645` span inside it if any. */
  datatype NumSpan = NumSpan(text: string, ball: Option<string>)

  /** One `li` of the detail page: the texts of the spans in its `strong` (`None` when the `li`
      has no `strong`, where `check_winning` raises `AttributeError`) and its number spans. */
  datatype DetailItem = DetailItem(strongSpans: Option<seq<string>>, nums: seq<NumSpan>)

  /** One normalised detail line. */
  datatype LottoEntry = LottoEntry(
    lineLabel: string, status: string, result: seq<string>,
    round: string, money: string, purchasedDate: string, winningDate: string)

  /** What `check_winning` returns: `{"data": "no winning data"}`, or the summary of the lines. */
  datatype WinningResult =
    | NoWinningData
    | Winning(round: string, money: string, purchasedDate: string, winningDate: string, lottoDetails: seq<LottoEntry>)

  const MAX_ENTRIES := 5
  const DETAIL_URL := "https://dhlottery.co.kr/myPage.do?method=lotto645Detail"

  /** The rows the loop does not `continue` past. */
  predicate KeptRow(r: Row) {
    |r.cells| >= 8 && r.href.Some? && r.href.value != [] && |Split(r.href.value, '\'')| >= 6
  }

  /** The detail page of a row: order, barcode and issue number are the quoted pieces 1, 3 and 5 of the link. */
  function DetailUrl(href: string): string
    requires |Split(href, '\'')| >= 6
  {
    var t := Split(href, '\'');
    DETAIL_URL + "&orderNo=" + t[1] + "&barcode=" + t[3] + "&issueNo=" + t[5]
  }

  /** For a link of the shape `f('o','b','i')` the detail page names exactly `o`, `b` and `i`. */
  lemma DetailUrlOfLink(f: string, o: string, c1: string, b: string, c2: string, i: string, tail: string)
    requires '\'' !in f && '\'' !in o && '\'' !in c1 && '\'' !in b && '\'' !in c2 && '\'' !in i && '\'' !in tail
    ensures var href := f + "'" + (o + "'" + (c1 + "'" + (b + "'" + (c2 + "'" + (i + "'" + tail)))));
      |Split(href, '\'')| >= 6 && DetailUrl(href) == DETAIL_URL + "&orderNo=" + o + "&barcode=" + b + "&issueNo=" + i
  {
    var href := f + "'" + (o + "'" + (c1 + "'" + (b + "'" + (c2 + "'" + (i + "'" + tail)))));
    SplitOfLink(f, o, c1, b, c2, i, tail);
    var t := Split(href, '\'');
    assert t[1] == o && t[3] == b && t[5] == i;
  }

  lemma SplitOfLink(f: string, o: string, c1: string, b: string, c2: string, i: string, tail: string)
    requires '\'' !in f && '\'' !in o && '\'' !in c1 && '\'' !in b && '\'' !in c2 && '\'' !in i && '\'' !in tail
    ensures Split(f + "'" + (o + "'" + (c1 + "'" + (b + "'" + (c2 + "'" + (i + "'" + tail))))), '\'') == [f, o, c1, b, c2, i, tail]
  {
    var r5 := i + "'" + tail;
    var r4 := c2 + "'" + r5;
    var r3 := b + "'" + r4;
    var r2 := c1 + "'" + r3;
    var r1 := o + "'" + r2;
    SplitOfPiece(tail, '\'');
    SplitOfPieceThenSep(i, '\'', tail);
    SplitOfPieceThenSep(c2, '\'', r5);
    SplitOfPieceThenSep(b, '\'', r4);
    SplitOfPieceThenSep(c1, '\'', r3);
    SplitOfPieceThenSep(o, '\'', r2);
    SplitOfPieceThenSep(f, '\'', r1);
  }

  /** The stripped cell texts a row contributes to each of its lines. */
  datatype RowInfo = RowInfo(round: string, money: string, purchasedDate: string, winningDate: string)

  function InfoOf(r: Row): RowInfo
    requires |r.cells| >= 8
  {
    RowInfo(Strip(r.cells[2]), Strip(r.cells[6]), Strip(r.cells[0]), Strip(r.cells[7]))
  }

  /** One shown number: "✨" and the ball text for a matched number, else the span text. */
  function FormatNum(n: NumSpan): string {
    match n.ball
    case Some(b) => "✨" + Strip(b)
    case None => Strip(n.text)
  }

  function FormattedNums(nums: seq<NumSpan>): (r: seq<string>)
    ensures |r| == |nums| && forall i :: 0 <= i < |nums| ==> r[i] == FormatNum(nums[i])
  {
    seq(|nums|, i requires 0 <= i < |nums| => FormatNum(nums[i]))
  }

  /** The status text: "낙첨" (no win) becomes "0등" (rank 0), and whitespace runs become single spaces. */
  function Status(s: string): string {
    CollapseSpaces(Replace(Strip(s), "낙첨", "0등"))
  }

  /** A status never shows "낙첨" and is single-spaced; a text without "낙첨" is only tidied. */
  lemma StatusShape(s: string)
    ensures SingleSpaced(Status(s)) && !Contains(Status(s), "낙첨")
    ensures !Contains(Strip(s), "낙첨") ==> Status(s) == CollapseSpaces(Strip(s))
  {
    CollapseSpacesSingleSpaced(Replace(Strip(s), "낙첨", "0등"));
    ReplaceRemoves(Strip(s), "낙첨", "0등");
    CollapseKeepsAbsent(Replace(Strip(s), "낙첨", "0등"), "낙첨");
    if !Contains(Strip(s), "낙첨") {
      ReplaceAbsent(Strip(s), "낙첨", "0등");
    }
  }

  /** The line of a kept `li` whose `strong` has at least two spans. */
  function MakeEntry(info: RowInfo, spans: seq<string>, nums: seq<NumSpan>): LottoEntry
    requires |spans| >= 2
  {
    LottoEntry(info.round + " " + Strip(spans[0]), Status(spans[1]), FormattedNums(nums),
               info.round, info.money, info.purchasedDate, info.winningDate)
  }

  /** A line is labelled by the row's round and the first span, carries the row's round, money
      and dates, shows one token per number span in order (a ball marked with `✨`), and its
      status is single-spaced with no "낙첨" left. */
  lemma MakeEntryShape(info: RowInfo, spans: seq<string>, nums: seq<NumSpan>)
    requires |spans| >= 2
    ensures var e := MakeEntry(info, spans, nums);
      e.lineLabel == info.round + " " + Strip(spans[0]) &&
      e.round == info.round && e.money == info.money &&
      e.purchasedDate == info.purchasedDate && e.winningDate == info.winningDate
    ensures var e := MakeEntry(info, spans, nums);
      |e.result| == |nums| &&
      forall i :: 0 <= i < |nums| ==>
        e.result[i] == (if nums[i].ball.Some? then "✨" + Strip(nums[i].ball.value) else Strip(nums[i].text))
    ensures var e := MakeEntry(info, spans, nums);
      SingleSpaced(e.status) && !Contains(e.status, "낙첨")
  {
    StatusShape(spans[1]);
  }

  /** The inner loop of `check_winning` over the `li`s of one detail page, from the lines `acc`
      collected so far; `None` is an exception, which the bare `except` turns into the sentinel. */
  function CollectItems(acc: seq<LottoEntry>, info: RowInfo, items: seq<DetailItem>): (r: Option<seq<LottoEntry>>)
    requires |acc| < MAX_ENTRIES
    ensures r.Some? ==> |acc| <= |r.value| <= MAX_ENTRIES && r.value[..|acc|] == acc
    decreases |items|
  {
    if items == [] then Some(acc)
    else match items[0].strongSpans
      case None => None
      case Some(spans) =>
        if |spans| < 2 then CollectItems(acc, info, items[1..])
        else
          var acc' := acc + [MakeEntry(info, spans, items[0].nums)];
          if |acc'| >= MAX_ENTRIES then Some(acc')
          else
            var r := CollectItems(acc', info, items[1..]);
            assert r.Some? ==> r.value[..|acc|] == r.value[..|acc'|][..|acc|];
            r
  }

  /** The outer loop of `check_winning` over the table rows. */
  function CollectRows(acc: seq<LottoEntry>, rows: seq<Row>, detail: string -> Option<seq<DetailItem>>)
    : (r: Option<seq<LottoEntry>>)
    requires |acc| < MAX_ENTRIES
    ensures r.Some? ==> |acc| <= |r.value| <= MAX_ENTRIES && r.value[..|acc|] == acc
    decreases |rows|
  {
    if rows == [] then Some(acc)
    else if !KeptRow(rows[0]) then CollectRows(acc, rows[1..], detail)
    else match detail(DetailUrl(rows[0].href.value))
      case None => None
      case Some(items) =>
        match CollectItems(acc, InfoOf(rows[0]), items)
        case None => None
        case Some(acc') =>
          if |acc'| >= MAX_ENTRIES then Some(acc')
          else
            var r := CollectRows(acc', rows[1..], detail);
            assert r.Some? ==> r.value[..|acc|] == r.value[..|acc'|][..|acc|];
            r
  }

  /** The summary: the round, money and dates of the first line, and all lines. */
  function Summarize(entries: seq<LottoEntry>): (r: WinningResult)
    ensures r.NoWinningData? <==> entries == []
    ensures r.Winning? ==> (r.lottoDetails == entries && r.round == entries[0].round &&
      r.money == entries[0].money && r.purchasedDate == entries[0].purchasedDate &&
      r.winningDate == entries[0].winningDate)
  {
    if entries == [] then NoWinningData
    else Winning(entries[0].round, entries[0].money, entries[0].purchasedDate, entries[0].winningDate, entries)
  }

  /** The body of the `try` of `check_winning`, for the rows of the history table (`None` when the
      request fails or the page has no `table` or `tbody`). */
  function WinningFromPage(page: Option<seq<Row>>, detail: string -> Option<seq<DetailItem>>): (r: WinningResult)
    ensures r.Winning? ==> 1 <= |r.lottoDetails| <= MAX_ENTRIES
  {
    if page.None? then NoWinningData
    else match CollectRows([], page.value, detail)
      case None => NoWinningData
      case Some(entries) => Summarize(entries)
  }

  /** The loop building `formatted_nums`. */
  method FormatNums(nums: seq<NumSpan>) returns (out: seq<string>)
    ensures out == FormattedNums(nums)
  {
    out := [];
    for k := 0 to |nums|
      invariant |out| == k && forall x :: 0 <= x < k ==> out[x] == FormatNum(nums[x])
    {
      match nums[k].ball
      case Some(b) =>
        out := out + ["✨" + Strip(b)];
      case None =>
        out := out + [Strip(nums[k].text)];
    }
  }

  /** `check_winning`, with `today` for the clock, `history` for the search request and `detail`
      for the detail requests. `None` is the `OverflowError` of `today - timedelta(days=7)`,
      which is raised before the `try`. */
  method CheckWinning(today: Date, history: HistoryQuery -> Option<seq<Row>>, detail: string -> Option<seq<DetailItem>>)
    returns (r: Option<WinningResult>)
    requires ValidDate(today)
    ensures r.None? <==> Ordinal(today) <= 7
    ensures r.Some? ==> r.value == WinningFromPage(history(QueryFor(GetSearchDateRange(today).value)), detail)
  {
    var range := GetSearchDateRange(today);
    if range.None? {
      return None;
    }
    var page := history(QueryFor(range.value));
    if page.None? {
      return Some(NoWinningData);
    }
    var rows := page.value;
    var entries: seq<LottoEntry> := [];
    var i := 0;
    while i < |rows|
      invariant 0 <= i <= |rows| && |entries| < MAX_ENTRIES
      invariant CollectRows([], rows, detail) == CollectRows(entries, rows[i..], detail)
    {
      assert rows[i..][1..] == rows[i + 1..];
      var row := rows[i];
      if !KeptRow(row) {
        i := i + 1;
        continue;
      }
      var items := detail(DetailUrl(row.href.value));
      if items.None? {
        return Some(NoWinningData);
      }
      var info := InfoOf(row);
      var lis := items.value;
      ghost var before := entries;
      var j := 0;
      while j < |lis|
        invariant 0 <= j <= |lis| && |entries| < MAX_ENTRIES
        invariant CollectItems(before, info, lis) == CollectItems(entries, info, lis[j..])
      {
        assert lis[j..][1..] == lis[j + 1..];
        var spans := lis[j].strongSpans;
        if spans.None? {
          return Some(NoWinningData);
        }
        if |spans.value| < 2 {
          j := j + 1;
          continue;
        }
        var nums := FormatNums(lis[j].nums);
        var entry := LottoEntry(info.round + " " + Strip(spans.value[0]), Status(spans.value[1]), nums,
                                info.round, info.money, info.purchasedDate, info.winningDate);
        entries := entries + [entry];
        if |entries| >= MAX_ENTRIES {
          break;
        }
        j := j + 1;
      }
      if |entries| >= MAX_ENTRIES {
        break;
      }
      i := i + 1;
    }
    assert CollectRows([], rows, detail) == Some(entries);
    return Some(Summarize(entries));
  }

  // ---------------------------------------------------------------- history reference

  /** The rows that are not skipped. */
  function KeptRows(rows: seq<Row>): (r: seq<Row>)
    ensures forall k :: 0 <= k < |r| ==> KeptRow(r[k])
  {
    if rows == [] then []
    else (if KeptRow(rows[0]) then [rows[0]] else []) + KeptRows(rows[1..])
  }

  /** Skipped rows contribute nothing: the result is the one for the kept rows alone. */
  lemma {:induction false} SkippedRowsIgnored(acc: seq<LottoEntry>, rows: seq<Row>, detail: string -> Option<seq<DetailItem>>)
    requires |acc| < MAX_ENTRIES
    ensures CollectRows(acc, rows, detail) == CollectRows(acc, KeptRows(rows), detail)
    decreases |rows|
  {
    if rows != [] {
      var rest := KeptRows(rows[1..]);
      if !KeptRow(rows[0]) {
        SkippedRowsIgnored(acc, rows[1..], detail);
        assert KeptRows(rows) == rest;
      } else {
        assert KeptRows(rows) == [rows[0]] + rest;
        assert ([rows[0]] + rest)[1..] == rest;
        match detail(DetailUrl(rows[0].href.value))
        case None =>
        case Some(items) =>
          match CollectItems(acc, InfoOf(rows[0]), items)
          case None =>
          case Some(acc') =>
            if |acc'| < MAX_ENTRIES {
              SkippedRowsIgnored(acc', rows[1..], detail);
            }
      }
    }
  }

  /** No `li` of the page lacks its `strong`. */
  predicate ItemsReadable(items: seq<DetailItem>) {
    forall k :: 0 <= k < |items| ==> items[k].strongSpans.Some?
  }

  /** Every kept row's detail page loads and is readable. */
  predicate RowsReadable(rows: seq<Row>, detail: string -> Option<seq<DetailItem>>) {
    forall k :: 0 <= k < |rows| && KeptRow(rows[k]) ==>
      detail(DetailUrl(rows[k].href.value)).Some? && ItemsReadable(detail(DetailUrl(rows[k].href.value)).value)
  }

  /** All lines of one page, without the cap. */
  function ItemEntries(info: RowInfo, items: seq<DetailItem>): seq<LottoEntry>
    requires ItemsReadable(items)
  {
    if items == [] then []
    else
      var spans := items[0].strongSpans.value;
      (if |spans| < 2 then [] else [MakeEntry(info, spans, items[0].nums)]) + ItemEntries(info, items[1..])
  }

  /** All lines of all rows, without the cap. */
  function AllEntries(rows: seq<Row>, detail: string -> Option<seq<DetailItem>>): seq<LottoEntry>
    requires RowsReadable(rows, detail)
  {
    if rows == [] then []
    else
      assert RowsReadable(rows[1..], detail) by {
        forall k | 0 <= k < |rows[1..]| && KeptRow(rows[1..][k])
          ensures detail(DetailUrl(rows[1..][k].href.value)).Some?
        {
          assert rows[1..][k] == rows[k + 1];
        }
      }
      (if KeptRow(rows[0]) then ItemEntries(InfoOf(rows[0]), detail(DetailUrl(rows[0].href.value)).value) else [])
      + AllEntries(rows[1..], detail)
  }

  /** The first `n` elements, or all of them when there are fewer. */
  function Take<T>(s: seq<T>, n: nat): (r: seq<T>)
    ensures |r| == if |s| < n then |s| else n
    ensures r == s[..|r|]
  {
    if |s| <= n then s else s[..n]
  }

  lemma TakeOfLong<T>(s: seq<T>, t: seq<T>, n: nat)
    requires |s| >= n
    ensures Take(s + t, n) == Take(s, n)
  {
    assert (s + t)[..n] == s[..n];
  }

  lemma {:induction false} ItemsAreCappedPrefix(acc: seq<LottoEntry>, info: RowInfo, items: seq<DetailItem>)
    requires |acc| < MAX_ENTRIES && ItemsReadable(items)
    ensures CollectItems(acc, info, items) == Some(Take(acc + ItemEntries(info, items), MAX_ENTRIES))
    decreases |items|
  {
    if items == [] {
      assert acc + [] == acc;
    } else {
      var spans := items[0].strongSpans.value;
      var rest := items[1..];
      assert ItemsReadable(rest) by {
        forall k | 0 <= k < |rest| ensures rest[k].strongSpans.Some? {
          assert rest[k] == items[k + 1];
        }
      }
      if |spans| < 2 {
        ItemsAreCappedPrefix(acc, info, rest);
        assert acc + ItemEntries(info, items) == acc + ItemEntries(info, rest);
      } else {
        var acc' := acc + [MakeEntry(info, spans, items[0].nums)];
        assert acc + ItemEntries(info, items) == acc' + ItemEntries(info, rest);
        if |acc'| >= MAX_ENTRIES {
          TakeOfLong(acc', ItemEntries(info, rest), MAX_ENTRIES);
        } else {
          ItemsAreCappedPrefix(acc', info, rest);
        }
      }
    }
  }

  lemma RowsReadableRest(rows: seq<Row>, detail: string -> Option<seq<DetailItem>>)
    requires rows != [] && RowsReadable(rows, detail)
    ensures RowsReadable(rows[1..], detail)
  {
    forall k | 0 <= k < |rows[1..]| && KeptRow(rows[1..][k])
      ensures detail(DetailUrl(rows[1..][k].href.value)).Some?
    {
      assert rows[1..][k] == rows[k + 1];
    }
  }

  /** When every page loads and reads, the capped loop keeps exactly the first five lines of
      all the kept rows, in order. */
  lemma {:induction false} RowsAreCappedPrefix(acc: seq<LottoEntry>, rows: seq<Row>, detail: string -> Option<seq<DetailItem>>)
    requires |acc| < MAX_ENTRIES && RowsReadable(rows, detail)
    ensures CollectRows(acc, rows, detail) == Some(Take(acc + AllEntries(rows, detail), MAX_ENTRIES))
    decreases |rows|
  {
    if rows == [] {
      assert acc + [] == acc;
    } else {
      RowsReadableRest(rows, detail);
      if !KeptRow(rows[0]) {
        RowsAreCappedPrefix(acc, rows[1..], detail);
        assert AllEntries(rows, detail) == AllEntries(rows[1..], detail);
      } else {
        var items := detail(DetailUrl(rows[0].href.value)).value;
        var mid := acc + ItemEntries(InfoOf(rows[0]), items);
        if |mid| < MAX_ENTRIES {
          RowsAreCappedPrefix(mid, rows[1..], detail);
        }
        KeptRowCappedPrefix(acc, rows, detail);
      }
    }
  }

  /** The step of `RowsAreCappedPrefix` for a kept first row. */
  lemma KeptRowCappedPrefix(acc: seq<LottoEntry>, rows: seq<Row>, detail: string -> Option<seq<DetailItem>>)
    requires |acc| < MAX_ENTRIES && rows != [] && KeptRow(rows[0]) && RowsReadable(rows, detail)
    requires RowsReadable(rows[1..], detail)
    requires var mid := acc + ItemEntries(InfoOf(rows[0]), detail(DetailUrl(rows[0].href.value)).value);
      |mid| < MAX_ENTRIES ==>
        CollectRows(mid, rows[1..], detail) == Some(Take(mid + AllEntries(rows[1..], detail), MAX_ENTRIES))
    ensures CollectRows(acc, rows, detail) == Some(Take(acc + AllEntries(rows, detail), MAX_ENTRIES))
  {
    var items := detail(DetailUrl(rows[0].href.value)).value;
    var info := InfoOf(rows[0]);
    var mid := acc + ItemEntries(info, items);
    var rest := AllEntries(rows[1..], detail);
    assert acc + AllEntries(rows, detail) == mid + rest by {
      assert AllEntries(rows, detail) == ItemEntries(info, items) + rest;
    }
    ItemsAreCappedPrefix(acc, info, items);
    CollectRowsKept(acc, rows, detail, Take(mid, MAX_ENTRIES));
    if |mid| >= MAX_ENTRIES {
      TakeOfLong(mid, rest, MAX_ENTRIES);
    } else {
      assert Take(mid, MAX_ENTRIES) == mid;
    }
  }

  /** `CollectRows` at a kept row whose page collects to `m`: it stops there when `m` is full and
      goes on from `m` otherwise. */
  lemma CollectRowsKept(acc: seq<LottoEntry>, rows: seq<Row>, detail: string -> Option<seq<DetailItem>>, m: seq<LottoEntry>)
    requires |acc| < MAX_ENTRIES && rows != [] && KeptRow(rows[0]) && detail(DetailUrl(rows[0].href.value)).Some?
    requires CollectItems(acc, InfoOf(rows[0]), detail(DetailUrl(rows[0].href.value)).value) == Some(m)
    ensures |m| >= MAX_ENTRIES ==> CollectRows(acc, rows, detail) == Some(m)
    ensures |m| < MAX_ENTRIES ==> CollectRows(acc, rows, detail) == CollectRows(m, rows[1..], detail)
  {
  }

  /** The history result, when nothing fails: the summary of the first five lines. */
  lemma WinningIsFirstFiveLines(rows: seq<Row>, detail: string -> Option<seq<DetailItem>>)
    requires RowsReadable(rows, detail)
    ensures WinningFromPage(Some(rows), detail) == Summarize(Take(AllEntries(rows, detail), MAX_ENTRIES))
  {
    RowsAreCappedPrefix([], rows, detail);
    assert [] + AllEntries(rows, detail) == AllEntries(rows, detail);
  }

  // ---------------------------------------------------------------- request headers

  const REQ_HEADERS: map<string, string> := map[
    "User-Agent" := "Mozilla/5.0 (Macintosh; Intel Mac OS X 10_15_7) AppleWebKit/537.36 (KHTML, like Gecko) Chrome/91.0.4472.77 Safari/537.36",
    "Connection" := "keep-alive",
    "Cache-Control" := "max-age=0",
    "sec-ch-ua" := "\" Not;A Brand\";v=\"99\", \"Google Chrome\";v=\"91\", \"Chromium\";v=\"91\"",
    "sec-ch-ua-mobile" := "?0",
    "Upgrade-Insecure-Requests" := "1",
    "Origin" := "https://ol.dhlottery.co.kr",
    "Content-Type" := "application/x-www-form-urlencoded",
    "Accept" := "text/html,application/xhtml+xml,application/xml;q=0.9,image/avif,image/webp,image/apng,*/*;q=0.8,application/signed-exchange;v=b3;q=0.9",
    "Referer" := "https://ol.dhlottery.co.kr/olotto/game/game645.do",
    "Sec-Fetch-Site" := "same-site",
    "Sec-Fetch-Mode" := "navigate",
    "Sec-Fetch-User" := "?1",
    "Sec-Fetch-Dest" := "document",
    "Accept-Language" := "ko,en-US;q=0.9,en;q=0.8,ko-KR;q=0.7"
  ]

  const GAME_REFERER := "https://ol.dhlottery.co.kr/olotto/game/game645.do"
  const JSON_CONTENT := "application/json; charset=UTF-8"
  const FORM_CONTENT := "application/x-www-form-urlencoded; charset=UTF-8"

  /** The `headers` dict `buy_lotto645` passes down, which `_getRequirements` and `_try_buying`
      change in place. */
  class RequestHeaders {
    var entries: map<string, string>

    /** `_generate_req_headers`: the base headers with the controller's `Cookie`. */
    constructor (auth: Auth.AuthController)
      ensures entries == auth.AddAuthCredToHeaders(REQ_HEADERS)
    {
      entries := auth.AddAuthCredToHeaders(REQ_HEADERS);
    }

    /** The header changes of `_getRequirements` before its first POST; the copy it keeps for the
        second POST is returned. */
    method PrepareReadySocket() returns (original: map<string, string>)
      modifies this
      ensures original == old(entries)
      ensures entries == old(entries)["Referer" := GAME_REFERER]["Content-Type" := JSON_CONTENT]["X-Requested-With" := "XMLHttpRequest"]
    {
      original := entries;
      entries := entries["Referer" := GAME_REFERER];
      entries := entries["Content-Type" := JSON_CONTENT];
      entries := entries["X-Requested-With" := "XMLHttpRequest"];
    }

    /** The header change of `_try_buying` before its POST. */
    method PrepareBuying()
      modifies this
      ensures entries == old(entries)["Content-Type" := FORM_CONTENT]
    {
      entries := entries["Content-Type" := FORM_CONTENT];
    }
  }

  /** The headers of the three POSTs of `buy_lotto645`: the ready-socket query, the game page,
      and the purchase. */
  method PurchaseHeaders(auth: Auth.AuthController) returns (ready: map<string, string>, page: map<string, string>, buy: map<string, string>)
    ensures page == auth.AddAuthCredToHeaders(REQ_HEADERS)
    ensures ready == page["Referer" := GAME_REFERER]["Content-Type" := JSON_CONTENT]["X-Requested-With" := "XMLHttpRequest"]
    ensures buy == ready["Content-Type" := FORM_CONTENT]
  {
    var headers := new RequestHeaders(auth);
    page := headers.PrepareReadySocket();
    ready := headers.entries;
    headers.PrepareBuying();
    buy := headers.entries;
  }

  /** Because the dict is changed in place, the purchase POST still carries the ready-socket
      query's `X-Requested-With`, while the game page is fetched with the untouched headers. */
  lemma PurchaseInheritsReadyHeaders(page: map<string, string>)
    requires "X-Requested-With" !in page
    ensures var ready := page["Referer" := GAME_REFERER]["Content-Type" := JSON_CONTENT]["X-Requested-With" := "XMLHttpRequest"];
      var buy := ready["Content-Type" := FORM_CONTENT];
      buy["X-Requested-With"] == "XMLHttpRequest" && buy["Referer"] == GAME_REFERER &&
      buy["Content-Type"] == FORM_CONTENT && buy.Keys == page.Keys + {"Referer", "Content-Type", "X-Requested-With"}
  {
  }

  /** The headers the controller hands out carry no `X-Requested-With`, so the game page request has none. */
  lemma GamePageHasNoAjaxHeader(auth: Auth.AuthController)
    ensures "X-Requested-With" !in auth.AddAuthCredToHeaders(REQ_HEADERS)
  {
  }
}
