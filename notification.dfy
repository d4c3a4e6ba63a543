/** The message texts of `Notification`: purchase results, the numbers bought, and the winning
    report, together with what `_send_telegram` would post. Sending itself is a value here. */
module Notification {
  import opened Wrappers
  import opened Strings
  import Lotto645

  // ---------------------------------------------------------------- html.escape

  /** `html.escape` with `quote=True`, one character at a time. */
  function EscapeChar(c: char): string {
    if c == '&' then "&amp;"
    else if c == '<' then "&lt;"
    else if c == '>' then "&gt;"
    else if c == '"' then "&quot;"
    else if c == '\'' then "&#x27;"
    else [c]
  }

  function Escape(s: string): string {
    if s == [] then [] else EscapeChar(s[0]) + Escape(s[1..])
  }

  /** The characters that can open or close a tag or an attribute value in Telegram's HTML mode
      (`&`, which opens an entity, is covered by `EscapeRoundTrip`). */
  predicate Markup(c: char) {
    c == '<' || c == '>' || c == '"' || c == '\''
  }

  lemma {:induction false} EscapeConcat(a: string, b: string)
    ensures Escape(a + b) == Escape(a) + Escape(b)
  {
    if a == [] {
      assert a + b == b;
    } else {
      assert (a + b)[1..] == a[1..] + b;
      EscapeConcat(a[1..], b);
    }
  }

  /** Escaped text holds no markup character. */
  lemma {:induction false} EscapeHasNoMarkup(s: string)
    ensures forall i :: 0 <= i < |Escape(s)| ==> !Markup(Escape(s)[i])
  {
    if s != [] {
      EscapeHasNoMarkup(s[1..]);
      var e := EscapeChar(s[0]);
      assert forall i :: 0 <= i < |e| ==> !Markup(e[i]);
      assert forall i :: |e| <= i < |Escape(s)| ==> Escape(s)[i] == Escape(s[1..])[i - |e|];
    }
  }

  /** The reference decoder for the five entities `html.escape` writes. */
  function Unescape(s: string): string
    decreases |s|
  {
    if s == [] then []
    else if StartsWith(s, "&amp;") then "&" + Unescape(s[5..])
    else if StartsWith(s, "&lt;") then "<" + Unescape(s[4..])
    else if StartsWith(s, "&gt;") then ">" + Unescape(s[4..])
    else if StartsWith(s, "&quot;") then "\"" + Unescape(s[6..])
    else if StartsWith(s, "&#x27;") then "'" + Unescape(s[6..])
    else [s[0]] + Unescape(s[1..])
  }

  /** Escaping loses nothing: the receiver reads back the original text. */
  lemma {:induction false} EscapeRoundTrip(s: string)
    ensures Unescape(Escape(s)) == s
  {
    if s != [] {
      EscapeRoundTrip(s[1..]);
      EscapeCharRoundTrip(s[0], Escape(s[1..]));
      assert [s[0]] + s[1..] == s;
    }
  }

  lemma EscapeCharRoundTrip(c: char, rest: string)
    ensures Unescape(EscapeChar(c) + rest) == [c] + Unescape(rest)
  {
    var t := EscapeChar(c) + rest;
    assert t[|EscapeChar(c)|..] == rest;
    if c == '&' {
      assert StartsWith(t, "&amp;");
    } else if c == '<' {
      Differs(t, "&amp;", 1);
      assert StartsWith(t, "&lt;");
    } else if c == '>' {
      Differs(t, "&amp;", 1);
      Differs(t, "&lt;", 1);
      assert StartsWith(t, "&gt;");
    } else if c == '"' {
      Differs(t, "&amp;", 1);
      Differs(t, "&lt;", 1);
      Differs(t, "&gt;", 1);
      assert StartsWith(t, "&quot;");
    } else if c == '\'' {
      Differs(t, "&amp;", 1);
      Differs(t, "&lt;", 1);
      Differs(t, "&gt;", 1);
      Differs(t, "&quot;", 1);
      assert StartsWith(t, "&#x27;");
    } else {
      Differs(t, "&amp;", 0);
      Differs(t, "&lt;", 0);
      Differs(t, "&gt;", 0);
      Differs(t, "&quot;", 0);
      Differs(t, "&#x27;", 0);
    }
  }

  lemma Differs(t: string, p: string, i: nat)
    requires i < |p| && i < |t| && t[i] != p[i]
    ensures !StartsWith(t, p)
  {
  }

  // ---------------------------------------------------------------- the Telegram sink

  /** The POST `_send_telegram` would make: the URL and the JSON payload. */
  datatype TelegramRequest = TelegramRequest(url: string, chatId: string, text: string, parseMode: string)

  const TELEGRAM_API := "https://api.telegram.org/bot"

  /** `_send_telegram`: nothing is sent without a token and a chat id; the message is escaped on request. */
  function SendTelegram(token: string, chatId: string, message: string, escapeMessage: bool): (r: Option<TelegramRequest>)
    ensures r.Some? <==> token != [] && chatId != []
    ensures r.Some? ==> r.value.url == TELEGRAM_API + token + "/sendMessage" && r.value.chatId == chatId && r.value.parseMode == "HTML"
    ensures r.Some? && escapeMessage ==> r.value.text == Escape(message) && Unescape(r.value.text) == message &&
                                          forall i :: 0 <= i < |r.value.text| ==> !Markup(r.value.text[i])
    ensures r.Some? && !escapeMessage ==> r.value.text == message
  {
    var url := TELEGRAM_API + token + "/sendMessage";
    if token == [] || chatId == [] then None
    else if escapeMessage then
      EscapeRoundTrip(message);
      EscapeHasNoMarkup(message);
      Some(TelegramRequest(url, chatId, Escape(message), "HTML"))
    else Some(TelegramRequest(url, chatId, message, "HTML"))
  }

  // ---------------------------------------------------------------- lotto numbers bought

  /** `x[:-1]`. */
  function DropLast(x: string): (r: string)
    ensures |r| == (if x == [] then 0 else |x| - 1) && r == x[..|r|]
  {
    if x == [] then [] else x[..|x| - 1]
  }

  /** `x.replace("|", " ")`. */
  function BarsToSpaces(x: string): string {
    seq(|x|, i requires 0 <= i < |x| => if x[i] == '|' then ' ' else x[i])
  }

  /** One line of `make_lotto_number_message`. */
  function LottoLine(x: string): string {
    BarsToSpaces(DropLast(x))
  }

  function LottoLines(xs: seq<string>): seq<string> {
    seq(|xs|, i requires 0 <= i < |xs| => LottoLine(xs[i]))
  }

  /** `make_lotto_number_message`. */
  function LottoNumberMessage(xs: seq<string>): string {
    Join(LottoLines(xs), "\n")
  }

  /** Each line is its entry without the last character, with every `|` made a space. */
  lemma LottoLineShape(x: string)
    ensures |LottoLine(x)| == (if x == [] then 0 else |x| - 1)
    ensures forall i :: 0 <= i < |LottoLine(x)| ==> LottoLine(x)[i] == (if x[i] == '|' then ' ' else x[i])
    ensures '|' !in LottoLine(x)
  {
  }

  /** Reading the message line by line gives back one line per entry, in order. */
  lemma LottoNumberLines(xs: seq<string>)
    requires |xs| >= 1
    requires forall k :: 0 <= k < |xs| ==> '\n' !in xs[k]
    ensures Split(LottoNumberMessage(xs), '\n') == LottoLines(xs)
  {
    var ls := LottoLines(xs);
    forall k | 0 <= k < |ls|
      ensures '\n' !in ls[k]
    {
      assert forall i :: 0 <= i < |ls[k]| ==> ls[k][i] == '\n' ==> xs[k][i] == '\n';
    }
    SplitJoin(ls, '\n');
  }

  /** A bought game as the site reports it: slot, six numbers, and the mode digit at the end. */
  lemma LottoLineExample()
    ensures LottoLine("A|01|02|04|27|39|443") == "A 01 02 04 27 39 44"
  {
  }

  // ---------------------------------------------------------------- pension lottery numbers

  /** The `saleTicket` field: a string, a list (each item given as its `str`), or `None`/missing. */
  datatype SaleTicket = TicketText(text: string) | TicketList(values: seq<string>) | TicketNone

  function TicketString(t: SaleTicket): string {
    match t
    case TicketText(s) => s
    case TicketList(vs) => Join(vs, ",")
    case TicketNone => ""
  }

  /** The characters of `w` as one-character strings. */
  function Chars(w: string): (r: seq<string>)
    ensures |r| == |w| && forall i :: 0 <= i < |w| ==> r[i] == [w[i]]
  {
    seq(|w|, i requires 0 <= i < |w| => [w[i]])
  }

  /** `" ".join(w)`. */
  function SpaceOut(w: string): string {
    Join(Chars(w), " ")
  }

  /** One line of `make_win720_number_message`: the group digit, "조 ", then the spaced digits. */
  function TicketLine(n: string): string
    requires n != []
  {
    [n[0]] + "조 " + SpaceOut(n[1..])
  }

  /** The non-empty comma fields, in order. */
  function NonEmptyFields(fs: seq<string>): (r: seq<string>)
    ensures forall k :: 0 <= k < |r| ==> r[k] != []
    ensures |r| <= |fs|
  {
    if fs == [] then []
    else
      var last := fs[|fs| - 1];
      NonEmptyFields(fs[..|fs| - 1]) + (if last == [] then [] else [last])
  }

  function TicketLines(fs: seq<string>): seq<string> {
    var ne := NonEmptyFields(fs);
    seq(|ne|, i requires 0 <= i < |ne| => TicketLine(ne[i]))
  }

  /** One more field adds its line when it is non-empty. */
  lemma TicketLinesPrefix(fs: seq<string>, k: nat)
    requires k < |fs|
    ensures TicketLines(fs[..k + 1]) == TicketLines(fs[..k]) + (if fs[k] == [] then [] else [TicketLine(fs[k])])
  {
    assert fs[..k + 1][..k] == fs[..k];
  }

  /** The lines of the full prefix are the lines of all fields. */
  lemma TicketLinesAll(fs: seq<string>)
    ensures TicketLines(fs[..|fs|]) == TicketLines(fs)
  {
    assert fs[..|fs|] == fs;
  }

  /** What `make_win720_number_message` returns. */
  function Win720NumberText(t: SaleTicket): string {
    Join(TicketLines(Split(TicketString(t), ',')), "\n")
  }

  /** `make_win720_number_message`. */
  method MakeWin720NumberMessage(t: SaleTicket) returns (msg: string)
    ensures msg == Win720NumberText(t)
  {
    var fields := Split(TicketString(t), ',');
    var formatted: seq<string> := [];
    for k := 0 to |fields|
      invariant formatted == TicketLines(fields[..k])
    {
      var number := fields[k];
      if number != [] {
        formatted := formatted + [TicketLine(number)];
      }
      TicketLinesPrefix(fields, k);
    }
    TicketLinesAll(fields);
    msg := Join(formatted, "\n");
  }

  /** An absent ticket gives an empty text. */
  lemma Win720NoTicket()
    ensures Win720NumberText(TicketNone) == ""
  {
    assert Split("", ',') == [""];
    assert NonEmptyFields([""]) == [];
  }

  lemma {:induction false} SpaceOutCons(c: char, w: string)
    requires w != []
    ensures SpaceOut([c] + w) == [c] + " " + SpaceOut(w)
  {
    assert Chars([c] + w)[1..] == Chars(w);
  }

  /** Every other character of the spaced digits. */
  function EveryOther(s: string): string {
    if |s| <= 2 then s[..if s == [] then 0 else 1] else [s[0]] + EveryOther(s[2..])
  }

  /** Spacing out loses nothing: every other character is the original digit. */
  lemma {:induction false} SpaceOutReadBack(w: string)
    ensures EveryOther(SpaceOut(w)) == w
  {
    if |w| == 1 {
      assert SpaceOut(w) == w;
    } else if |w| > 1 {
      SpaceOutCons(w[0], w[1..]);
      assert [w[0]] + w[1..] == w;
      var s := SpaceOut(w);
      assert s[2..] == SpaceOut(w[1..]);
      SpaceOutNonEmpty(w[1..]);
      SpaceOutReadBack(w[1..]);
    }
  }

  lemma SpaceOutNonEmpty(w: string)
    requires w != []
    ensures |SpaceOut(w)| >= 1
  {
  }

  /** A line gives back its field: its first character, then every other character after "조 ". */
  lemma TicketLineReadBack(n: string)
    requires n != []
    ensures |TicketLine(n)| >= 3 && [TicketLine(n)[0]] + EveryOther(TicketLine(n)[3..]) == n
  {
    var line := TicketLine(n);
    assert line[3..] == SpaceOut(n[1..]);
    SpaceOutReadBack(n[1..]);
    assert [n[0]] + n[1..] == n;
  }

  /** The message has one line per non-empty field, in order. */
  lemma Win720NumberLines(t: SaleTicket)
    requires '\n' !in TicketString(t)
    requires NonEmptyFields(Split(TicketString(t), ',')) != []
    ensures Split(Win720NumberText(t), '\n') == TicketLines(Split(TicketString(t), ','))
  {
    var fs := Split(TicketString(t), ',');
    var ls := TicketLines(fs);
    NonEmptyFieldsHaveNoNewline(fs, TicketString(t));
    forall k | 0 <= k < |ls|
      ensures '\n' !in ls[k]
    {
      var n := NonEmptyFields(fs)[k];
      assert '\n' !in n;
      TicketLineHasNoNewline(n);
    }
    SplitJoin(ls, '\n');
  }

  lemma TicketLineHasNoNewline(n: string)
    requires n != [] && '\n' !in n
    ensures '\n' !in TicketLine(n)
  {
    var w := n[1..];
    assert '\n' !in w;
    SpaceOutHasNoNewline(w);
  }

  lemma {:induction false} SpaceOutHasNoNewline(w: string)
    requires '\n' !in w
    ensures '\n' !in SpaceOut(w)
  {
    if |w| > 1 {
      SpaceOutCons(w[0], w[1..]);
      assert [w[0]] + w[1..] == w;
      SpaceOutHasNoNewline(w[1..]);
    } else if |w| == 1 {
      assert SpaceOut(w) == w;
    }
  }

  lemma NonEmptyFieldsHaveNoNewline(fs: seq<string>, s: string)
    requires fs == Split(s, ',') && '\n' !in s
    ensures forall k :: 0 <= k < |NonEmptyFields(fs)| ==> '\n' !in NonEmptyFields(fs)[k]
  {
    SplitPiecesInside(s, ',');
    FieldsInside(fs, s);
  }

  lemma {:induction false} FieldsInside(fs: seq<string>, s: string)
    requires forall k :: 0 <= k < |fs| ==> forall c :: c in fs[k] ==> c in s
    requires '\n' !in s
    ensures forall k :: 0 <= k < |NonEmptyFields(fs)| ==> '\n' !in NonEmptyFields(fs)[k]
  {
    if fs != [] {
      FieldsInside(fs[..|fs| - 1], s);
    }
  }

  /** Every character of a piece of `Split(s, sep)` is a character of `s`. */
  lemma {:induction false} SplitPiecesInside(s: string, sep: char)
    ensures forall k :: 0 <= k < |Split(s, sep)| ==> forall c :: c in Split(s, sep)[k] ==> c in s
    decreases |s|
  {
    if s != [] {
      SplitPiecesInside(s[1..], sep);
      assert forall c :: c in s[1..] ==> c in s;
    }
  }

  // ---------------------------------------------------------------- result messages

  const UNKNOWN_ERROR := "알 수 없는 오류"
  const UNKNOWN := "알 수 없음"

  /** `_stringify_result_msg` on a string or `None` (a missing key reads the same). */
  function StringifyResultMsg(m: Option<string>): (r: string)
    ensures m.Some? ==> r == m.value
    ensures m.None? ==> r == UNKNOWN_ERROR
  {
    match m
    case Some(s) => s
    case None => UNKNOWN_ERROR
  }

  /** The pension-lottery round: piece 3 of the `|`-split message when it exists and is not empty. */
  function Win720Round(msgText: string, round: Option<string>): string {
    var fallback := round.GetOr(UNKNOWN);
    if '|' in msgText then
      var parts := Split(msgText, '|');
      if |parts| > 3 && parts[3] != [] then parts[3] else fallback
    else fallback
  }

  /** The `|` test changes nothing: only the pieces decide. */
  lemma Win720RoundByPieces(msgText: string, round: Option<string>)
    ensures var parts := Split(msgText, '|');
      Win720Round(msgText, round) == if |parts| > 3 && parts[3] != [] then parts[3] else round.GetOr(UNKNOWN)
  {
    if '|' !in msgText {
      SplitOfPiece(msgText, '|');
    }
  }

  /** A message made of `|`-pieces names the round in its fourth piece. */
  lemma Win720RoundFromPieces(pieces: seq<string>, round: Option<string>)
    requires |pieces| > 3 && pieces[3] != []
    requires forall k :: 0 <= k < |pieces| ==> '|' !in pieces[k]
    ensures Win720Round(Join(pieces, "|"), round) == pieces[3]
  {
    SplitJoin(pieces, '|');
    Win720RoundByPieces(Join(pieces, "|"), round);
  }

  // ---------------------------------------------------------------- buying messages

  const MONEYBAG := " :moneybag: 남은잔액 : "

  /** The text and the escape flag `send_lotto_buying_message` hands to `_send_telegram`. */
  function LottoBuyingText(userid: string, body: Lotto645.BuyResponse): (string, bool) {
    var result := body.result.GetOr(Lotto645.NO_RESULT);
    var msg := Lotto645.ResultMsgUpper(body);
    var balance := body.balance.GetOr("N/A");
    var round := result.buyRound.GetOr(UNKNOWN);
    if msg != "SUCCESS" then
      (userid + "님, " + round + "회 로또 구매 실패!!!" + MONEYBAG + balance + "\n사유: " + msg, true)
    else
      (Escape(userid + "님, " + round + "회 로또 구매 완료" + MONEYBAG + balance) +
       "\n<pre>" + Escape(LottoNumberMessage(result.arrGameChoiceNum.GetOr([]))) + "</pre>", false)
  }

  /** `send_lotto_buying_message`. */
  function LottoBuyingRequest(userid: string, body: Lotto645.BuyResponse, token: string, chatId: string): Option<TelegramRequest> {
    var (text, escape) := LottoBuyingText(userid, body);
    SendTelegram(token, chatId, text, escape)
  }

  /** The failure text goes out escaped as a whole exactly when the upper-cased `resultMsg` is not
      "SUCCESS"; otherwise the escaped summary is followed by the lines bought in a `<pre>` block. */
  lemma LottoBuyingBranch(userid: string, body: Lotto645.BuyResponse)
    ensures LottoBuyingText(userid, body).1 <==> Lotto645.ResultMsgUpper(body) != "SUCCESS"
    ensures var result := body.result.GetOr(Lotto645.NO_RESULT);
      Lotto645.ResultMsgUpper(body) == "SUCCESS" ==>
      LottoBuyingText(userid, body).0 ==
        Escape(userid + "님, " + result.buyRound.GetOr(UNKNOWN) + "회 로또 구매 완료" + MONEYBAG + body.balance.GetOr("N/A")) +
        "\n<pre>" + Escape(LottoNumberMessage(result.arrGameChoiceNum.GetOr([]))) + "</pre>"
  {
  }

  /** What `send_lotto_buying_message` sends: nothing without a token and a chat id; a failure
      report escaped whole, so it reads back as the failure text with no markup left; a purchase
      report as built, keeping its `<pre>` block. */
  lemma LottoBuyingSent(userid: string, body: Lotto645.BuyResponse, token: string, chatId: string)
    ensures LottoBuyingRequest(userid, body, token, chatId).Some? <==> token != [] && chatId != []
    ensures var r := LottoBuyingRequest(userid, body, token, chatId);
      var msg := Lotto645.ResultMsgUpper(body);
      r.Some? && msg != "SUCCESS" ==>
        Unescape(r.value.text) ==
          userid + "님, " + body.result.GetOr(Lotto645.NO_RESULT).buyRound.GetOr(UNKNOWN) + "회 로또 구매 실패!!!" +
          MONEYBAG + body.balance.GetOr("N/A") + "\n사유: " + msg &&
        forall i :: 0 <= i < |r.value.text| ==> !Markup(r.value.text[i])
    ensures var r := LottoBuyingRequest(userid, body, token, chatId);
      r.Some? && Lotto645.ResultMsgUpper(body) == "SUCCESS" ==>
        r.value.text == LottoBuyingText(userid, body).0 && r.value.chatId == chatId
  {
  }

  /** An answer `_show_result` accepts is reported as a purchase. */
  lemma AcceptedPurchaseReported(userid: string, body: Lotto645.BuyResponse)
    requires Lotto645.ShowResultAccepts(body)
    ensures !LottoBuyingText(userid, body).1
  {
  }

  /** The report does not look at `loginYn`: an answer `_show_result` refuses can still be reported as a purchase. */
  lemma ReportIgnoresLoginFlag()
    ensures var body := Lotto645.BuyResponse(Some("N"), Some(Lotto645.BuyResult(Some("SUCCESS"), Some("1100"), None)), None);
      !Lotto645.ShowResultAccepts(body) && !LottoBuyingText("u", body).1
  {
    var body := Lotto645.BuyResponse(Some("N"), Some(Lotto645.BuyResult(Some("SUCCESS"), Some("1100"), None)), None);
    UpperOfSuccess();
    assert Lotto645.ResultMsgUpper(body) == "SUCCESS";
  }

  lemma UpperOfSuccess()
    ensures Upper("SUCCESS") == "SUCCESS"
  {
    var s := "SUCCESS";
    assert forall i :: 0 <= i < |s| ==> 'A' <= s[i] <= 'Z';
    assert forall i :: 0 <= i < |s| ==> UpperFixed(s[i]);
    UpperOfFixed(s);
  }

  /** The purchase answer of the pension lottery; a missing `saleTicket` reads as `TicketNone`. */
  datatype Win720Body = Win720Body(
    resultCode: Option<string>, resultMsg: Option<string>, balance: Option<string>,
    round: Option<string>, saleTicket: SaleTicket)

  /** The text and escape flag `send_win720_buying_message` hands to `_send_telegram`. */
  function Win720BuyingText(userid: string, body: Win720Body): (string, bool) {
    var msgText := StringifyResultMsg(body.resultMsg);
    var balance := body.balance.GetOr("N/A");
    var round := Win720Round(msgText, body.round);
    if body.resultCode.GetOr("UNKNOWN") != "100" then
      (userid + "님, " + round + "회 연금복권 구매 실패!!!" + MONEYBAG + balance + "\n사유: " + msgText, true)
    else
      (Escape(userid + "님, " + round + "회 연금복권 구매 완료" + MONEYBAG + balance) +
       "\n<pre>" + Escape(Win720NumberText(body.saleTicket)) + "</pre>", false)
  }

  /** `send_win720_buying_message`, with the number text built by its loop. */
  method SendWin720BuyingMessage(userid: string, body: Win720Body, token: string, chatId: string)
    returns (sent: Option<TelegramRequest>)
    ensures sent == SendTelegram(token, chatId, Win720BuyingText(userid, body).0, Win720BuyingText(userid, body).1)
  {
    var msgText := StringifyResultMsg(body.resultMsg);
    var balance := body.balance.GetOr("N/A");
    var round := Win720Round(msgText, body.round);
    if body.resultCode.GetOr("UNKNOWN") != "100" {
      var message := userid + "님, " + round + "회 연금복권 구매 실패!!!" + MONEYBAG + balance + "\n사유: " + msgText;
      assert Win720BuyingText(userid, body) == (message, true);
      sent := SendTelegram(token, chatId, message, true);
      return;
    }
    var numbers := MakeWin720NumberMessage(body.saleTicket);
    var message := Escape(userid + "님, " + round + "회 연금복권 구매 완료" + MONEYBAG + balance) +
      "\n<pre>" + Escape(numbers) + "</pre>";
    assert Win720BuyingText(userid, body) == (message, false);
    sent := SendTelegram(token, chatId, message, false);
  }

  /** Only result code "100" counts as a purchase; the round comes from the message when it has one. */
  lemma Win720BuyingBranch(userid: string, body: Win720Body)
    ensures Win720BuyingText(userid, body).1 <==> body.resultCode != Some("100")
    ensures body.resultCode != Some("100") ==>
      Win720BuyingText(userid, body).0 ==
        userid + "님, " + Win720Round(StringifyResultMsg(body.resultMsg), body.round) + "회 연금복권 구매 실패!!!" +
        MONEYBAG + body.balance.GetOr("N/A") + "\n사유: " + StringifyResultMsg(body.resultMsg)
  {
  }

  // ---------------------------------------------------------------- winning message

  function Spaces(n: nat): (s: string)
    ensures |s| == n && forall i :: 0 <= i < n ==> s[i] == ' '
  {
    if n == 0 then [] else Spaces(n - 1) + " "
  }

  /** `s.ljust(w)`. */
  function LJust(s: string, w: nat): (r: string)
    ensures |r| == (if |s| < w then w else |s|)
    ensures r[..|s|] == s && forall i :: |s| <= i < |r| ==> r[i] == ' '
  {
    if |s| < w then s + Spaces(w - |s|) else s
  }

  /** `f"{s:>{w}}"`. */
  function RJust(s: string, w: nat): (r: string)
    ensures |r| == (if |s| < w then w else |s|)
    ensures r[|r| - |s|..] == s && forall i :: 0 <= i < |r| - |s| ==> r[i] == ' '
  {
    if |s| < w then Spaces(w - |s|) + s else s
  }

  /** `f"{line['label']} {line['status']}"`. */
  function LabelStatus(e: Lotto645.LottoEntry): string {
    e.lineLabel + " " + e.status
  }

  /** The longest `label status` prefix. */
  function MaxLabelLength(es: seq<Lotto645.LottoEntry>): (m: nat)
    requires es != []
    ensures forall i :: 0 <= i < |es| ==> |LabelStatus(es[i])| <= m
    ensures exists i :: 0 <= i < |es| && |LabelStatus(es[i])| == m
  {
    if |es| == 1 then |LabelStatus(es[0])|
    else
      var m := MaxLabelLength(es[1..]);
      assert forall i :: 1 <= i < |es| ==> es[i] == es[1..][i - 1];
      if |LabelStatus(es[0])| > m then |LabelStatus(es[0])| else m
  }

  /** A digit run that does not continue. */
  function TakeDigits(s: string): (r: string)
    ensures |r| <= |s| && r == s[..|r|] && IsDigits(r)
    ensures |r| < |s| ==> !IsDigit(s[|r|])
  {
    if s == [] || !IsDigit(s[0]) then [] else [s[0]] + TakeDigits(s[1..])
  }

  /** `re.search(r'\d+', num)`: the first run of digits, if any. */
  function FirstDigitRun(s: string): (r: Option<string>)
    ensures r.None? <==> forall i :: 0 <= i < |s| ==> !IsDigit(s[i])
    ensures r.Some? ==> r.value != [] && IsDigits(r.value)
  {
    if s == [] then None
    else if IsDigit(s[0]) then Some(TakeDigits(s))
    else
      var r := FirstDigitRun(s[1..]);
      assert forall i :: 1 <= i < |s| ==> s[i] == s[1..][i - 1];
      r
  }

  /** The run found is the token's leftmost digit run, taken whole: it starts at position `k`,
      the first digit of the token. */
  lemma {:induction false} FirstDigitRunIsLeftmost(s: string) returns (k: nat)
    ensures FirstDigitRun(s).Some? ==>
      k < |s| && IsDigit(s[k]) && (forall i :: 0 <= i < k ==> !IsDigit(s[i])) &&
      FirstDigitRun(s).value == TakeDigits(s[k..])
  {
    if s != [] && !IsDigit(s[0]) {
      var k' := FirstDigitRunIsLeftmost(s[1..]);
      k := k' + 1;
      if FirstDigitRun(s).Some? {
        assert FirstDigitRun(s) == FirstDigitRun(s[1..]);
        assert s[1..][k'..] == s[k..];
        assert forall i :: 0 < i < k ==> s[i] == s[1..][i - 1];
      }
    } else {
      k := 0;
      if s != [] {
        assert s[0..] == s;
      }
    }
  }

  const SPARKLE: char := '\U{2728}'
  const COL_WIDTH := 3

  /** One number of a line: the run's value with two digits at least, bracketed when the token
      carries the sparkle, right-aligned. No digit is the `AttributeError` that escapes. */
  function FormatWinningNum(num: string): Option<string> {
    match FirstDigitRun(num)
    case None => None
    case Some(d) =>
      var f := ZeroPad(DecimalValue(d), 2);
      Some(RJust(if SPARKLE in num then "[" + f + "]" else f, COL_WIDTH))
  }

  /** The number shows the run's value with two digits at least, in brackets exactly when the
      token is marked, and at least three columns wide. */
  lemma FormatWinningNumShape(num: string)
    requires FirstDigitRun(num).Some?
    ensures var d := FirstDigitRun(num).value;
      var f := FormatWinningNum(num);
      var core := ZeroPad(DecimalValue(d), 2);
      f.Some? && |f.value| >= COL_WIDTH &&
      ('[' in f.value <==> SPARKLE in num) &&
      f.value == RJust(if SPARKLE in num then "[" + core + "]" else core, COL_WIDTH) &&
      DecimalValue(core) == DecimalValue(d) && |core| >= 2
  {
    var d := FirstDigitRun(num).value;
    ZeroPadValue(DecimalValue(d), 2);
    var core := ZeroPad(DecimalValue(d), 2);
    if SPARKLE in num {
      BracketedShown(core);
    } else {
      PlainShown(core);
    }
  }

  lemma BracketedShown(core: string)
    requires |core| >= 2
    ensures RJust("[" + core + "]", COL_WIDTH) == "[" + core + "]" && '[' in RJust("[" + core + "]", COL_WIDTH)
  {
    assert ("[" + core + "]")[0] == '[';
  }

  lemma PlainShown(core: string)
    requires IsDigits(core)
    ensures '[' !in RJust(core, COL_WIDTH)
  {
    var f := RJust(core, COL_WIDTH);
    assert forall i :: |f| - |core| <= i < |f| ==> f[i] == core[i - (|f| - |core|)];
    assert forall i :: 0 <= i < |f| ==> f[i] == ' ' || IsDigit(f[i]);
  }

  /** The numbers of a line; `None` when one of them has no digit. */
  function WinningNums(nums: seq<string>): (r: Option<seq<string>>)
    ensures r.Some? ==> |r.value| == |nums|
  {
    if nums == [] then Some([])
    else
      match (WinningNums(nums[..|nums| - 1]), FormatWinningNum(nums[|nums| - 1]))
      case (Some(init), Some(f)) => Some(init + [f])
      case _ => None
  }

  /** One line of the winning report. */
  function WinningLine(e: Lotto645.LottoEntry, width: nat): Option<string> {
    match WinningNums(e.result)
    case None => None
    case Some(ns) => Some(LJust(LabelStatus(e), width) + " " + Join(ns, " "))
  }

  function WinningLines(es: seq<Lotto645.LottoEntry>, width: nat): (r: Option<seq<string>>)
    ensures r.Some? ==> |r.value| == |es|
  {
    if es == [] then Some([])
    else
      match (WinningLines(es[..|es| - 1], width), WinningLine(es[|es| - 1], width))
      case (Some(init), Some(l)) => Some(init + [l])
      case _ => None
  }

  /** Every line of the report starts with its `label status` padded to the same width, the
      longest prefix's length, and a space. */
  lemma WinningLinesAligned(es: seq<Lotto645.LottoEntry>, i: nat)
    requires es != [] && i < |es|
    requires WinningLines(es, MaxLabelLength(es)).Some?
    ensures var ls := WinningLines(es, MaxLabelLength(es)).value;
      var m := MaxLabelLength(es);
      |ls[i]| > m && ls[i][..m] == LJust(LabelStatus(es[i]), m) && ls[i][m] == ' ' &&
      ls[i][..|LabelStatus(es[i])|] == LabelStatus(es[i])
  {
    var m := MaxLabelLength(es);
    WinningLineAt(es, m, i);
    var l := WinningLine(es[i], m).value;
    var p := LJust(LabelStatus(es[i]), m);
    assert |p| == m;
    assert l[..m] == p;
    assert l[..|LabelStatus(es[i])|] == p[..|LabelStatus(es[i])|];
  }

  lemma {:induction false} WinningLineAt(es: seq<Lotto645.LottoEntry>, width: nat, i: nat)
    requires i < |es| && WinningLines(es, width).Some?
    ensures WinningLine(es[i], width).Some? && WinningLines(es, width).value[i] == WinningLine(es[i], width).value
    decreases |es|
  {
    if i < |es| - 1 {
      WinningLineAt(es[..|es| - 1], width, i);
    }
  }

  const NO_HISTORY := "님, 최근 로또 구매/당첨 이력이 없습니다."

  /** The headline of a win, ending with a party popper. */
  function WonHeadline(userid: string, round: string, money: string): string {
    userid + "님, 로또 *" + round + "회* - *" + money + "* 당첨 되었습니다 " + "\U{1F389}"
  }

  /** The headline without a win, ending with a melting face. */
  function LostHeadline(userid: string, round: string): string {
    userid + "님, 로또 *" + round + "회* - 다음 기회에... " + "\U{1FAE0}"
  }

  function WinningHeadline(userid: string, round: string, money: string): string {
    if money != "-" then WonHeadline(userid, round, money) else LostHeadline(userid, round)
  }

  /** The headline announces a win exactly when the money is not "-". */
  lemma HeadlineAnnouncesWin(userid: string, round: string, money: string)
    ensures var h := WinningHeadline(userid, round, money);
      h != [] && (h[|h| - 1] == '\U{1F389}' <==> money != "-")
  {
  }

  /** The entries `lotto_details` holds: none for the sentinel. */
  function Details(w: Lotto645.WinningResult): seq<Lotto645.LottoEntry> {
    match w
    case NoWinningData => []
    case Winning(_, _, _, _, ds) => ds
  }

  /** The text `send_lotto_winning_message` sends, or `None` when a number has no digit and the
      error escapes. */
  function WinningText(userid: string, w: Lotto645.WinningResult): Option<string> {
    var details := Details(w);
    if details == [] then Some(Escape(userid + NO_HISTORY))
    else
      var round := if w.Winning? then w.round else "-";
      var money := if w.Winning? then w.money else "-";
      match WinningLines(details, MaxLabelLength(details))
      case None => None
      case Some(ls) =>
        var block := "<pre>" + Escape(Join(ls, "\n")) + "</pre>";
        Some(block + "\n" + Escape(WinningHeadline(userid, round, money)))
  }

  /** Without lines, and only then, the message is the "no history" notice. */
  lemma NoHistoryNotice(userid: string, w: Lotto645.WinningResult)
    ensures Details(w) == [] <==> WinningText(userid, w) == Some(Escape(userid + NO_HISTORY))
  {
    if Details(w) != [] && WinningText(userid, w).Some? {
      var t := WinningText(userid, w).value;
      assert t[0] == '<';
      EscapeHasNoMarkup(userid + NO_HISTORY);
      var e := Escape(userid + NO_HISTORY);
      if |e| > 0 {
        assert !Markup(e[0]);
      }
    }
  }

  /** `send_lotto_winning_message`: `Failure` is the uncaught error of a number without digits. */
  method SendLottoWinningMessage(userid: string, w: Lotto645.WinningResult, token: string, chatId: string)
    returns (r: Result<Option<TelegramRequest>, ()>)
    ensures WinningText(userid, w).Some? ==> r == Success(SendTelegram(token, chatId, WinningText(userid, w).value, false))
    ensures WinningText(userid, w).None? ==> r.Failure?
  {
    var details := Details(w);
    if details == [] {
      return Success(SendTelegram(token, chatId, Escape(userid + NO_HISTORY), false));
    }
    var round := if w.Winning? then w.round else "-";
    var money := if w.Winning? then w.money else "-";
    var lines := FormatWinningLines(details, MaxLabelLength(details));
    if lines.None? {
      return Failure(());
    }
    var block := "<pre>" + Escape(Join(lines.value, "\n")) + "</pre>";
    return Success(SendTelegram(token, chatId, block + "\n" + Escape(WinningHeadline(userid, round, money)), false));
  }

  /** The outer loop of `send_lotto_winning_message`: one line per entry. */
  method FormatWinningLines(details: seq<Lotto645.LottoEntry>, width: nat) returns (r: Option<seq<string>>)
    ensures r == WinningLines(details, width)
  {
    var lines: seq<string> := [];
    for k := 0 to |details|
      invariant WinningLines(details[..k], width) == Some(lines)
    {
      var line := details[k];
      var nums := FormatLineNums(line.result);
      if nums.None? {
        WinningLinesFailPropagates(details, width, k);
        return None;
      }
      var formatted := LJust(LabelStatus(line), width) + " " + Join(nums.value, " ");
      WinningLinesStep(details, width, k, lines, formatted);
      lines := lines + [formatted];
    }
    assert details[..|details|] == details;
    return Some(lines);
  }

  lemma WinningLinesStep(es: seq<Lotto645.LottoEntry>, width: nat, k: nat, lines: seq<string>, l: string)
    requires k < |es| && WinningLines(es[..k], width) == Some(lines) && WinningLine(es[k], width) == Some(l)
    ensures WinningLines(es[..k + 1], width) == Some(lines + [l])
  {
    assert es[..k + 1][..k] == es[..k];
  }

  /** The inner loop of `send_lotto_winning_message`: the numbers of one line. */
  method FormatLineNums(result: seq<string>) returns (r: Option<seq<string>>)
    ensures r == WinningNums(result)
  {
    var nums: seq<string> := [];
    for j := 0 to |result|
      invariant WinningNums(result[..j]) == Some(nums)
    {
      var f := FormatWinningNum(result[j]);
      assert result[..j + 1][..j] == result[..j];
      if f.None? {
        WinningNumsFailPropagates(result, j + 1);
        return None;
      }
      nums := nums + [f.value];
    }
    assert result[..|result|] == result;
    return Some(nums);
  }

  lemma {:induction false} WinningNumsFailPropagates(nums: seq<string>, j: nat)
    requires j <= |nums| && WinningNums(nums[..j]).None?
    ensures WinningNums(nums).None?
    decreases |nums| - j
  {
    if j < |nums| {
      assert nums[..j + 1][..j] == nums[..j];
      WinningNumsFailPropagates(nums, j + 1);
    } else {
      assert nums[..j] == nums;
    }
  }

  lemma {:induction false} WinningLinesFailPropagates(es: seq<Lotto645.LottoEntry>, width: nat, k: nat)
    requires k < |es| && WinningLine(es[k], width).None?
    ensures WinningLines(es, width).None?
  {
    WinningLinesFailFrom(es, width, k + 1);
  }

  lemma {:induction false} WinningLinesFailFrom(es: seq<Lotto645.LottoEntry>, width: nat, j: nat)
    requires 0 < j <= |es| && WinningLine(es[j - 1], width).None?
    ensures WinningLines(es[..j], width).None? && WinningLines(es, width).None?
    decreases |es| - j
  {
    assert es[..j][..j - 1] == es[..j - 1];
    assert es[..j][j - 1] == es[j - 1];
    if j < |es| {
      WinningLinesStayFailed(es, width, j);
    } else {
      assert es[..j] == es;
    }
  }

  lemma {:induction false} WinningLinesStayFailed(es: seq<Lotto645.LottoEntry>, width: nat, j: nat)
    requires j <= |es| && WinningLines(es[..j], width).None?
    ensures WinningLines(es, width).None?
    decreases |es| - j
  {
    if j < |es| {
      assert es[..j + 1][..j] == es[..j];
      WinningLinesStayFailed(es, width, j + 1);
    } else {
      assert es[..j] == es;
    }
  }
}
