# lottery-bot: a Dafny model of the purchase, session and notification logic

This project models the in-memory logic of a small client for the Korean lottery site
(dhlottery.co.kr). The client buys Lotto 6/45 tickets, checks the week's results and reports
both by Telegram. The model covers four parts:

- **Purchase forms and result checks** (`lotto645.dfy`, module `Lotto645`).
  - The `execBuy.do` form body for automatic and manual games, including the ticket-count and
    manual-number checks.
  - The `_show_result` success test.
  - The in-place header changes made before the two purchase requests.
  - `check_winning`'s walk over the purchase-history rows. It keeps at most five detail
    lines and summarises them, or returns the `no winning data` sentinel.
- **Session cookie bookkeeping** (`auth.dfy`, module `Auth`). The class `AuthController` has the
  fields `authCred` (`_AUTH_CRED`) and `cachedCookieHeader` (`_cached_cookie_header`).
  - It looks up the JSESSIONID in three places, in order: the session jar, the login answer's
    jar, and the answer's `Set-Cookie` header, matched with the case-insensitive regular
    expression `JSESSIONID[^=]*=([^;\s]+)`.
  - It builds the deduplicated `Cookie` header.
  - It refuses logins and RSA key answers.
  - It produces the header copies.
- **Notification texts** (`notification.dfy`, module `Notification`): the Lotto and pension-lottery
  number blocks, result-message handling, the buying reports, and the aligned winning report. The
  Telegram call is a sink: the model states the request that would be posted.
- **Search window** (`common.dfy`, module `Common`). The history query runs from a week before
  `today` to `today`, both written `YYYYMMDD`. `today` is a parameter, and the arithmetic runs
  over ordinal day numbers.

`strings.dfy` (module `Strings`) gives the parts of Python's `str` the client relies on.
`wrappers.dfy` gives `Option` and `Result`. Headers are `map<string, string>` values, so a function
returning a changed copy cannot alter its caller's dict. The two places where the client does change
a dict in place (`_getRequirements`, `_try_buying`) are methods of the class
`Lotto645.RequestHeaders`.

Python exceptions become `Failure`/`None` results:

- `AssertionError` of the form builders: `InvalidCount`, `InvalidManualNumbers`.
- `KeyError` / `PermissionError` of the controller: `RsaKeyMissing`, `SessionIdMissing`,
  `LoginRejected`.
- The `AttributeError` of a number token without digits in the winning report: `None`, and
  `SendLottoWinningMessage` returns `Failure`.
- An extraction failure inside `check_winning`'s bare `except`: `None` from the extraction
  parameters, which yields the current result, the sentinel.

The network is a pair of parameters of `CheckWinning`:

- `history` maps the query to the extracted rows;
- `detail` maps a detail URL to the extracted `li` items.

Each row carries its cell texts and its link's `href`.

## Model

| member | source | states |
|---|---|---|
| Common.SlotsAreFiveDistinctLetters | common.py:25 | `SLOTS` is five labels, the i-th is the letter `A`+i, and no two are equal |
| Common.PrevDay | common.py:18 | the day before a valid date is a valid date whose ordinal is one less |
| Common.MinusDays | common.py:18 | subtracting n days succeeds exactly when the ordinal exceeds n, and gives the valid date whose ordinal is n less |
| Common.OrdinalOrder | common.py:18 | calendar order is ordinal order, and equal ordinals mean equal dates |
| Common.FormatYmdValue | common.py:17 | for four-digit years `%Y%m%d` is 8 digits whose value is year·10000 + month·100 + day |
| Common.FormatYmd | common.py:17 | `strftime("%Y%m%d")`: its partner lemmas give the 8-digit value year·10000 + month·100 + day and show that text order is date order |
| Common.FormatOrderIsDateOrder | common.py:17-19 | for four-digit years the `YYYYMMDD` strings compare as text exactly as the dates compare |
| Common.GetSearchDateRange | common.py:15-23 | defined exactly when a week before `today` is still a date; the end is `today` formatted, the start is the date whose ordinal is 7 less, formatted |
| Common.SearchWindowSortsAsText | common.py:17-19 | from 1000-01-08 on, both bounds are 8 digits and start < end as text |
| Common.WeekBeforeLeapMarch | common.py:18 | 2024-03-05 minus 7 days is 2024-02-27 (leap February) |
| Common.WeekBeforeNewYear | common.py:18 | 2025-01-03 minus 7 days is 2024-12-27 |
| Common.FormatLeapExamples | common.py:17 | 2024-02-27 and 2024-03-05 format as `20240227` and `20240305` |
| Common.SearchWindowAcrossLeapFebruary | common.py:15-23 | the window of 2024-03-05 is `20240227`..`20240305` |
| Common.SearchWindowAcrossNewYear | common.py:15-23 | the window of 2025-01-03 is `20241227`..`20250103` |
| Strings.LStrip | lotto645.py:267-270 | `lstrip` removes exactly the leading whitespace |
| Strings.RStrip | lotto645.py:267-270 | `rstrip` leaves a prefix and removes exactly the trailing whitespace |
| Strings.Words | lotto645.py:279 | `split()` yields non-empty runs without whitespace |
| Strings.WordsOfJoin | lotto645.py:279 | splitting words joined by single spaces gives the words back |
| Strings.CollapseSpacesIdempotent | lotto645.py:279 | collapsing whitespace twice equals collapsing it once |
| Strings.CollapseSpacesSingleSpaced | lotto645.py:279 | collapsed text has no whitespace at its ends and only single spaces between words |
| Strings.CollapseKeepsAbsent | lotto645.py:278-279 | collapsing whitespace creates no new occurrence of a space-free word |
| Strings.ReplaceRemoves | lotto645.py:278 | after `replace("낙첨", "0등")` no `낙첨` is left |
| Strings.ReplaceAbsent | lotto645.py:278 | replacing a text that does not occur changes nothing |
| Strings.Split | notification.py:88 | `split(sep)` gives at least one piece and no piece holds the separator |
| Strings.SplitJoin | notification.py:44 | joining separator-free pieces and splitting again gives the pieces back |
| Strings.ContainsIff | auth.py:116-123 | `p in s` holds exactly when `p` occurs at some position of `s` |
| Strings.NatToDecimal | lotto645.py:86 | `str(n)` is a non-empty digit string without a leading zero |
| Strings.DecimalRoundTrip | lotto645.py:86 | reading back the digits of `str(n)` gives `n` |
| Strings.IntRoundTrip | lotto645.py:171-172 | `int(str(i)) == i` for every integer |
| Strings.ZeroPad | notification.py:135 | `:02d` gives digits, as long as the width or the number's own digits |
| Strings.ZeroPadValue | notification.py:135 | zero padding does not change the number the digits denote |
| Strings.StrLessDigits | common.py:17-19 | for digit strings of equal length, text order is numeric order |
| Strings.UpperConcat | auth.py:149 | `upper` distributes over concatenation |
| Strings.UpperIdempotent | auth.py:149 | upper-casing twice equals upper-casing once |
| Strings.UpperOfAscii | lotto645.py:342 | on ASCII letters `upper` maps each letter to its capital, one for one |
| Lotto645.NextRound | lotto645.py:171-172 | the round is a decimal integer text whose value is the last drawn round plus one |
| Lotto645.FormFor | lotto645.py:83-96 | `round`, `direct`, the two dates, `gameCnt` and `param` come from the inputs; `nBuyAmount` is digits of value 1000·cnt |
| Lotto645.AutoBody | lotto645.py:72-96 | succeeds exactly when 1 ≤ cnt ≤ 5; then exactly cnt games, game i being `genType "0"`, no numbers, slot `SLOTS[i]` |
| Lotto645.ManualBody | lotto645.py:98-133 | succeeds exactly when the count is valid and there are cnt sets of six 2-digit strings, and says which assertion fails otherwise; game i is `genType "1"` with set i comma-joined and slot `SLOTS[i]` |
| Lotto645.BuyForm | lotto645.py:48-60 | an invalid count always fails; AUTO uses the automatic builder, every other mode the manual one |
| Lotto645.FormChargesPerGame | lotto645.py:49-60 | an accepted form has 1 ≤ cnt ≤ 5, cnt games, `gameCnt == cnt` and an amount of 1000·cnt |
| Lotto645.SlotsInOrder | lotto645.py:75-90 | in an accepted form game i has label `A`+i and the labels are distinct |
| Lotto645.ManualNumbersReadBack | lotto645.py:120-129 | splitting game i's `arrGameChoiceNum` on `,` gives back the i-th number set |
| Lotto645.MissingResultMsgRejected | lotto645.py:338-343 | a missing `result` or `resultMsg` (default `FAILURE`) is never a success |
| Lotto645.LoginFlagRequired | lotto645.py:338-339 | without `loginYn == "Y"` nothing is a success |
| Lotto645.ResultMsgIgnoresCase | lotto645.py:342 | with `loginYn "Y"` an ASCII-letter message is a success exactly when its capitals spell `SUCCESS` |
| Lotto645.ShowResultAccepts | lotto645.py:335-343 | `_show_result` goes on to report exactly when `loginYn` is `Y` and the upper-cased `resultMsg` (default `FAILURE`) is `SUCCESS`; the three lemmas above state the missing-message, login-flag and case cases |
| Lotto645.QueryFor | lotto645.py:210-217 | the history query carries the window's dates, page 1, grade 2, `LO40`, `DESC` |
| Lotto645.DetailUrlOfLink | lotto645.py:254-262 | for an href with quote-free pieces, the detail URL uses pieces 1, 3 and 5 as order number, barcode and issue number |
| Lotto645.DetailUrl | lotto645.py:254-262 | the `lotto645Detail` URL of a link; `DetailUrlOfLink` shows it carries pieces 1, 3 and 5 of the href split on `'` |
| Lotto645.SplitOfLink | lotto645.py:254 | splitting such an href on `'` gives exactly its seven pieces |
| Lotto645.FormattedNums | lotto645.py:281-289 | one token per number span, in order |
| Lotto645.FormatNums | lotto645.py:283-289 | the loop computes exactly the token list of the spans |
| Lotto645.StatusShape | lotto645.py:278-279 | a status is single-spaced with no `낙첨` left; without `낙첨` it is the stripped text with whitespace collapsed |
| Lotto645.Status | lotto645.py:278-279 | the status text; `StatusShape` shows it single-spaced with no `낙첨` left, and only tidied when there was none |
| Lotto645.MakeEntry | lotto645.py:267-300 | one detail line of a `li`; `MakeEntryShape` states its fields |
| Lotto645.MakeEntryShape | lotto645.py:267-300 | a line is labelled by the row's round and the first span, carries the row's round, money and dates, one token per number span in order (a ball marked `✨`), and a single-spaced status without `낙첨` |
| Lotto645.CollectItems | lotto645.py:272-304 | collecting a row's items only appends, to at most 5 lines |
| Lotto645.CollectRows | lotto645.py:245-307 | collecting rows only appends, to at most 5 lines |
| Lotto645.Summarize | lotto645.py:309-319 | no lines gives exactly the sentinel; otherwise the summary's round, money and dates are the first line's, and the details are all lines |
| Lotto645.WinningFromPage | lotto645.py:235-321 | a non-sentinel result has between 1 and 5 detail lines |
| Lotto645.CheckWinning | lotto645.py:203-323 | for a date more than a week after 0001-01-01, the result is the summary of the page fetched with the week's query; otherwise the date arithmetic fails (`None`) |
| Lotto645.KeptRows | lotto645.py:245-256 | every kept row has at least 8 cells, a non-empty href and at least 6 quote pieces |
| Lotto645.SkippedRowsIgnored | lotto645.py:245-256 | rows with fewer than 8 cells, no href or fewer than 6 pieces do not change the outcome |
| Lotto645.ItemsAreCappedPrefix | lotto645.py:272-304 | when every item is readable, collecting gives the first 5 of the lines so far plus this row's lines |
| Lotto645.RowsAreCappedPrefix | lotto645.py:245-307 | when every kept row is readable, collecting gives the first 5 lines of all rows, in order |
| Lotto645.KeptRowCappedPrefix | lotto645.py:245-307 | one kept row followed by the rest collects the first 5 lines of all of them |
| Lotto645.WinningIsFirstFiveLines | lotto645.py:303-319 | for a readable page the result is the summary of its first five lines |
| Lotto645.RequestHeaders.constructor | lotto645.py:67-70 | the purchase headers are the base headers with the controller's `Cookie` |
| Lotto645.RequestHeaders.PrepareReadySocket | lotto645.py:135-140 | returns the original headers and sets Referer, JSON Content-Type and `X-Requested-With` in place |
| Lotto645.RequestHeaders.PrepareBuying | lotto645.py:189-193 | sets the form Content-Type in place and changes nothing else |
| Lotto645.PurchaseHeaders | lotto645.py:52-62 | the game page gets the untouched copy; the buy request gets the ready-socket changes plus the form Content-Type |
| Lotto645.PurchaseInheritsReadyHeaders | lotto645.py:138-140 | the buy request keeps the ready-socket Referer and `X-Requested-With`, and only those three keys are added |
| Lotto645.GamePageHasNoAjaxHeader | lotto645.py:152-155 | the game page request carries no `X-Requested-With` |
| Auth.FetchRsaKey | auth.py:74-84 | succeeds exactly when both `rsaModulus` and `publicExponent` are present and non-empty, returning them; otherwise `RsaKeyMissing` |
| Auth.TryLogin | auth.py:115-126 | refused exactly when the body contains one of the three failure phrases; otherwise the answer unchanged |
| Auth.LoginRefusedWithPhrase | auth.py:116-124 | any body embedding a failure phrase is refused, whatever its cookies |
| Auth.SessionIdFromJar | auth.py:148-152 | the value of the first jar cookie with a non-empty value and a name that upper-cases to a `JSESSIONID` prefix; none when no cookie qualifies |
| Auth.NamedSessionId | auth.py:157-159 | the value of the first response cookie whose upper-cased name starts with `JSESSIONID`, with no value check |
| Auth.ValueRun | auth.py:166 | `[^;\s]+` takes the longest prefix without `;` or whitespace |
| Auth.SearchFromShape | auth.py:166-168 | a match's group is non-empty and free of `;` and whitespace |
| Auth.SetCookieSessionIdShape | auth.py:166-168 | the captured session id is non-empty and free of `;` and whitespace |
| Auth.SetCookieSessionId | auth.py:161-168 | the `re.search` of `JSESSIONID[^=]*=([^;\s]+)` with `IGNORECASE`; the lemmas around it give the group's shape, its value and the leftmost match |
| Auth.SetCookieSessionIdOf | auth.py:166-168 | at the first case-insensitive `JSESSIONID` of the header, whatever cookies (with their own `=`) come before it, the id is the value run after the next `=` |
| Auth.SearchFromNone | auth.py:166-167 | the search from a position finds nothing exactly when the pattern matches at no later position |
| Auth.SearchFromSome | auth.py:166-168 | a found group is the match at some position from the start, with no match before it |
| Auth.SetCookieSessionIdLeftmost | auth.py:166-168 | no id exactly when no position holds the name followed, after the next `=`, by a non-empty value run; a found id is the group of the leftmost such position |
| Auth.SessionIdAfterOtherCookies | auth.py:166-168 | after cookies whose text has no `J` or `j`, the session cookie's value is the id |
| Auth.MergedHeaderSessionId | auth.py:166-168 | the merged header `WMONID=abc; Path=/, JSESSIONID=xyz; Path=/` yields `xyz` |
| Auth.LowerCaseSessionHeader | auth.py:166 | `jsessionid=abc123; Path=/` yields `abc123` |
| Auth.ResponseSessionId | auth.py:157-180 | the response jar wins; only without a jar match, and with a non-empty `Set-Cookie`, the regex capture |
| Auth.JarEntriesFromJar | auth.py:199-202 | every jar entry is `name=value` of a cookie with a non-empty value |
| Auth.JarHasEntry | auth.py:199-202 | every cookie with a non-empty value contributes its `name=value` |
| Auth.JarEntriesConcat | auth.py:204-207 | two jars in turn give the entries of the first, then those of the second |
| Auth.BeforeChar | auth.py:213 | `split(";", 1)[0]` is the prefix before the first `;` |
| Auth.PartEntriesStep | auth.py:210-216 | each `Set-Cookie` piece adds its stripped `name=value` when it has `=` and a non-empty value, else nothing |
| Auth.SessionPrefixUpper | auth.py:220 | `JSESSIONID=` is its own upper case |
| Auth.SessionEntryCounts | auth.py:219-222 | the appended `JSESSIONID=<cred>` entry passes the header's own session test |
| Auth.DedupElements | auth.py:224 | `dict.fromkeys` keeps exactly the entries that were there |
| Auth.Dedup | auth.py:224 | `dict.fromkeys` keeps the first occurrence of each entry in order; the lemmas around it state its elements, distinctness, prefix order and idempotence |
| Auth.DedupDistinct | auth.py:224 | the header has no repeated entry |
| Auth.DedupPrefix | auth.py:224 | adding entries at the end keeps the earlier result as a prefix (first occurrences stay in order) |
| Auth.DedupOfDistinct | auth.py:224 | a list without repeats is kept as it is |
| Auth.DedupIdempotent | auth.py:224 | deduplicating twice equals deduplicating once |
| Auth.DedupSeenInserted | auth.py:224 | inserting entries that were already seen changes nothing |
| Auth.DedupSeenAtEnd | auth.py:224 | appending entries that were already seen changes nothing |
| Auth.HasSessionInserted | auth.py:219-221 | inserting already-present entries does not change whether a session entry is there |
| Auth.SessionIdAlwaysSent | auth.py:218-224 | with a known session id the final entry list always has a `JSESSIONID=` entry |
| Auth.SessionIdInHeader | auth.py:218-224 | with a known session id the header text contains `JSESSIONID=` when upper-cased |
| Auth.JoinedSessionEntry | auth.py:224 | joining entries with `; ` keeps any session entry visible |
| Auth.JarEntriesLead | auth.py:204-224 | the session jar's entries lead the header, in their own order |
| Auth.RepeatedJarChangesNothing | auth.py:204-224 | a response jar repeating session-jar cookies gives the same header as an empty one |
| Auth.CookieHeader | auth.py:189-224 | the `; `-joined deduplicated entries; the lemmas above show the session id is always sent and the session jar leads |
| Auth.AuthController.constructor | auth.py:27-33 | a new controller has no session id and no cached header |
| Auth.AuthController.AddAuthCredToHeaders | auth.py:54-60 | the copy adds only `Cookie`: the cached header when there is one, else `JSESSIONID=<cred>`; all other keys unchanged |
| Auth.AuthController.GenerateLoginHeaders | auth.py:92-103 | the base headers with the login Referer, Origin and Accept; Content-Type present exactly when asked for; nothing else added |
| Auth.AuthController.GenerateReqHeaders | auth.py:182-187 | the base headers plus `Cookie: JSESSIONID=<id>` |
| Auth.AuthController.GetJSessionIdFromSession | auth.py:147-152 | the loop returns the first qualifying jar cookie's value, or `SessionIdMissing` |
| Auth.AuthController.GetJSessionIdFromResponse | auth.py:154-180 | the loop and regex return the response's session id, or `SessionIdMissing` |
| Auth.AuthController.AppendFromJar | auth.py:199-202 | appends exactly the jar's `name=value` entries with non-empty values |
| Auth.AuthController.AppendFromSetCookie | auth.py:208-216 | appends exactly the entries of the `Set-Cookie` pieces |
| Auth.AuthController.BuildCookieHeader | auth.py:189-224 | the header is the deduplicated `; `-joined list of session-jar, response-jar and `Set-Cookie` entries, plus the session id when none is there |
| Auth.AuthController.UpdateAuthCred | auth.py:128-145 | the session jar wins and builds the header without the response; otherwise the response's id and a header built with it; with neither, `SessionIdMissing` and both fields unchanged |
| Notification.EscapeConcat | notification.py:156 | `html.escape` distributes over concatenation |
| Notification.EscapeHasNoMarkup | notification.py:247-248 | escaped text has no `<`, `>`, `"` or `'` |
| Notification.EscapeRoundTrip | notification.py:247-248 | unescaping the five entities gives the original message back |
| Notification.Escape | notification.py:247-248 | `html.escape` with `quote=True`; its lemmas show it markup-free, distributive over concatenation and undone by unescaping |
| Notification.SendTelegram | notification.py:243-251 | a request exists exactly when token and chat id are non-empty; URL, chat id and `HTML` parse mode; the text is the message, or its escape (markup-free, unescaping back to it) |
| Notification.DropLast | notification.py:38 | `x[:-1]` drops the last character, and the empty string stays empty |
| Notification.LottoLineShape | notification.py:38-41 | a line is the entry without its last character, with every bar replaced by a space |
| Notification.LottoNumberLines | notification.py:34-46 | for newline-free entries the message splits back into exactly one line per entry |
| Notification.LottoLineExample | notification.py:37-41 | the entry `A`, `01`, `02`, `04`, `27`, `39`, `443` joined by bars becomes `A 01 02 04 27 39 44` |
| Notification.LottoNumberMessage | notification.py:34-46 | the bought games one per line; `LottoNumberLines` and `LottoLineShape` state the lines |
| Notification.NonEmptyFields | notification.py:88-90 | empty comma fields are skipped |
| Notification.MakeWin720NumberMessage | notification.py:79-93 | the loop builds exactly the joined ticket lines of the ticket text |
| Notification.Win720NoTicket | notification.py:84-85 | no ticket gives the empty message |
| Notification.SpaceOutReadBack | notification.py:91 | every other character of the spaced-out digits gives the digits back |
| Notification.TicketLineReadBack | notification.py:91 | a ticket line is the group character, then `조 `, then the remaining characters one space apart |
| Notification.Win720NumberLines | notification.py:87-93 | for newline-free tickets, the message splits into one line per non-empty field |
| Notification.Win720NumberText | notification.py:79-93 | the ticket lines joined by newlines; the loop and line lemmas above state them |
| Notification.StringifyResultMsg | notification.py:95-105 | a string is returned unchanged and `None` becomes `알 수 없는 오류` |
| Notification.Win720RoundByPieces | notification.py:57-61 | the round is piece 3 of the text split on bars when it exists and is non-empty, else `round` or `알 수 없음` |
| Notification.Win720RoundFromPieces | notification.py:66-70 | a text joined by bars from bar-free pieces yields its piece 3 |
| Notification.Win720Round | notification.py:57-61 | the round shown by the pension report; the two lemmas above state its choice |
| Notification.LottoBuyingBranch | notification.py:13-29 | escaping is requested exactly on the failure branch (upper-cased `resultMsg` ≠ `SUCCESS`); the success text is the escaped headline and the `<pre>` number block |
| Notification.AcceptedPurchaseReported | notification.py:16-19 | a purchase `_show_result` accepts is reported as a success |
| Notification.ReportIgnoresLoginFlag | notification.py:15-19 | `loginYn "N"` with `SUCCESS` is refused by `_show_result` yet reported as a success |
| Notification.LottoBuyingText | notification.py:13-29 | the text and escape flag of the report; `LottoBuyingBranch` and the two lemmas above state the branches |
| Notification.LottoBuyingRequest | notification.py:13-29 | `send_lotto_buying_message`; `LottoBuyingSent` states what is sent |
| Notification.LottoBuyingSent | notification.py:13-29 | a request exists exactly when token and chat id are non-empty; a failure report is sent escaped, reading back as `<user>님, <round>회 로또 구매 실패!!!`, the balance and the reason, with no markup; a purchase report is sent as built |
| Notification.SendWin720BuyingMessage | notification.py:48-74 | sends exactly the text and escape flag of the pension-lottery report |
| Notification.Win720BuyingBranch | notification.py:56-64 | the failure branch (code ≠ `100`) asks for escaping and names the round and the reason |
| Notification.Win720BuyingText | notification.py:48-74 | the text and escape flag of the pension report; the two lemmas above state what is sent and the failure branch |
| Notification.LJust | notification.py:129 | `ljust` keeps the text and pads it with spaces to the width |
| Notification.RJust | notification.py:143 | right alignment keeps the text at the end and pads in front with spaces |
| Notification.MaxLabelLength | notification.py:123-125 | the width is the length of the longest `label status` prefix |
| Notification.TakeDigits | notification.py:134 | the longest digit prefix, taken whole |
| Notification.FirstDigitRun | notification.py:134 | `\d+` finds a non-empty digit run exactly when the token has a digit |
| Notification.FirstDigitRunIsLeftmost | notification.py:134 | a found run is the whole digit run starting at the token's first digit |
| Notification.FormatWinningNumShape | notification.py:133-143 | a number shows its digit run's value in at least two digits, bracketed exactly when the token has `✨`, right-aligned to width 3 |
| Notification.FormatWinningNum | notification.py:133-143 | one winning number shown; the lemmas around it state its value, padding, bracket and alignment |
| Notification.BracketedShown | notification.py:136-143 | a bracketed number is already 3 wide and keeps its bracket |
| Notification.PlainShown | notification.py:138-143 | a plain number shows no bracket |
| Notification.WinningNums | notification.py:132-143 | one formatted number per token |
| Notification.WinningLines | notification.py:127-146 | one line per detail entry |
| Notification.WinningLinesAligned | notification.py:123-146 | every line starts with its `label status` padded to the common width, then a space |
| Notification.WinningLineAt | notification.py:127-146 | line i is the formatted line of entry i |
| Notification.WinningNumsFailPropagates | notification.py:133-134 | a token without digits aborts the whole line |
| Notification.WinningLinesFailPropagates | notification.py:128-134 | a line that cannot be formatted aborts the whole report |
| Notification.HeadlineAnnouncesWin | notification.py:150-153 | the headline ends with 🎉 exactly when `money != "-"`, otherwise 🫠 |
| Notification.NoHistoryNotice | notification.py:113-118 | no detail lines gives exactly the escaped no-history notice, and only then |
| Notification.SendLottoWinningMessage | notification.py:107-160 | sends the escaped `<pre>` block and the escaped headline, unescaped; a digitless token gives `Failure` |
| Notification.WinningText | notification.py:107-158 | the winning report text; the lemmas above state the notice, headline, aligned lines and failure |
| Notification.FormatWinningLines | notification.py:127-148 | the loop builds exactly the report lines, or fails as they do |
| Notification.WinningLinesStep | notification.py:127-146 | a formatted entry extends the lines built so far by its line |
| Notification.FormatLineNums | notification.py:132-139 | the loop builds exactly the formatted numbers, or fails as they do |

## Left out

- HTTP transport (`HttpClient.py`: the session singleton, retries, pacing) and every request. Pages,
  JSON answers and cookie jars are inputs, already extracted; `check_winning`'s two requests are
  the function parameters `history` and `detail`.
- HTML parsing with BeautifulSoup and `json.loads`/`json.dumps`. Rows are cell texts plus an href;
  detail items are the texts of their `strong` spans and number spans; `param` is a list of games
  rather than its JSON text.
- `_getRequirements`' two requests and `_get_round`'s request. The requirements `[direct, draw_date,
  tlmt_date]` and the last drawn round (already read with `int`) are parameters.
- `login` and `_prepare_session` beyond the parts modelled (the RSA key check, the phrase check,
  `_update_auth_cred`). `_encrypt_credential` is a foreign RSA call and is not part of this model.
- `get_balance`, `Lotto645.__init__`, `setup_logging`, `controller.py` and `config.py`:
  orchestration, logging and configuration.
- `send_win720_winning_message` and the Discord webhook branch: they only pick between fixed message
  templates and a foreign sender.
- `_stringify_result_msg` on dicts, lists and other objects (`json.dumps`, `str`); only strings and
  `None` are modelled.
- Notification.TicketString: a list ticket is given as the texts of its values, so Python's `str` of
  non-string values is not modelled. A dict ticket (`json.dumps`) is not modelled.
- The `except KeyError` branches of the two buying reports: every lookup there uses `get` with a
  default, so the branch is not reachable in the modelled inputs.
- JSON `null` and non-string values of `result`, `resultMsg`, `buyRound`, `balance` and the
  pension lottery's `round`: an absent field (`None` in `Lotto645.BuyResponse`,
  `Lotto645.BuyResult` and `Notification.Win720Body`) stands for a missing key only. A `null` or
  non-dict `result`, or a `null` or non-string `resultMsg`, makes `.get` or `.upper()` raise
  `AttributeError` in `_show_result` and `send_lotto_buying_message`, which `except KeyError` does
  not catch; the model has no such failure. A `null` `buyRound`, `balance` or `round` is printed
  as `None` by the f-strings, where the model prints the default (`알 수 없음`, `N/A`); numbers
  are printed by `str`, where the model takes their text.
- Network failures of `_send_telegram` (`requests.RequestException`, the 10-second timeout) and the
  log lines.
- Strings.IsDigit: `\d` and `isdigit` are modelled for ASCII digits only; other Unicode decimal
  digits are not modelled.
- Strings.UpperChar: `upper` is modelled for ASCII letters and for the other characters whose
  full capital holds an ASCII letter (ı, ſ, ß, the Latin ligatures, and ŉ, ǰ, ẖ, ẗ, ẘ, ẙ, ẚ).
  Every other non-ASCII letter, accented Latin letters such as é, ñ or ü included, is left
  unchanged, so a failure reason shown after `upper` may differ from Python's for any such letter.
- Auth.SetCookieSessionId: the `re.IGNORECASE` match of `JSESSIONID` is modelled by simple case
  folding per letter, plus `İ`, `ı` and `ſ`, which Python's case-insensitive matching also accepts.
- Common.FormatYmd: years below 1000 follow the C library's `strftime`, without zero padding; the
  ordering lemmas are stated for four-digit years only.
- Common.MinusDays: Python's `OverflowError` before 0001-01-01 is the `None` result.
- Header dictionaries are maps, so the order in which their keys are sent is not modelled.
- `buy_lotto645`'s `_try_buying` post and JSON answer, and `_show_result`'s return value (always
  `None`); only its acceptance test is modelled, as `Lotto645.ShowResultAccepts`.
- `_make_search_date` (lotto645.py:325-333) is the same code as `get_search_date_range` and is
  modelled by `Common.GetSearchDateRange`.
