# Indian Kanoon scraper backend, modelled in Dafny

This project models the core of `backend.py`: a Flask service that takes a
search URL for the Indian Kanoon judgment site and a webhook URL for an n8n
workflow, finds the judgment links on the search-results page in a headless
browser, scrapes and cleans the text of each judgment, and posts each one to
the webhook. It answers with a run summary.

The modules follow the program:

- `Browser` (browser.dfy) stands in for the Selenium session. A `Driver` has
  fixed data for what each search address and each document address renders,
  including load failures, timeouts and unreadable anchors. Its one piece of
  mutable state is the `quit` flag.
- `Text` (text.dfy) holds Python's `str.strip`, `split('\n')`, `'\n'.join`,
  the line-cleaning comprehension that normalises a judgment, and the substring
  test `p in s`.
- `Scraper` (scraper.dfy) holds the `KanoonScraper` class:
  - `setup_driver`, as an outcome handed in;
  - link selection in `scrape_search_results`;
  - classification of one judgment in `scrape_judgment_text`;
  - the payload and the success decision of `send_to_webhook`;
  - `close`.
- `Api` (api.dfy) holds the `POST /scrape` handler `scrape_indian_kanoon_api`:
  - validation;
  - the per-URL loop, as the method `ProcessUrls`;
  - the summary and the HTTP status;
  - the `finally` cleanup.

  `Respond` is the reference function of the whole handler.
- `Decimal` (decimal.dfy) renders the sent count in the final message.
- `Wrappers` (wrappers.dfy) holds `Option`.

Python semantics are written out where they matter:

- truthiness of `max_documents`, `url`, `webhook_url` and href values;
- the slice `links[:max_documents]`, including a negative stop;
- `str.strip`, with the whitespace set of `str.isspace`;
- `split('\n')`, which always gives at least one piece.

The HTTP client is a function `post(url, payload)` giving a response status, a
timeout or a transport error. The browser launch is a value: the session, or
the exception text.

Points of the code that are easy to misread; the model follows the code:

- The cap is applied to the anchors before the href filter. With
  `max_documents = M`, fewer than `M` URLs can result even when the page has
  more than `M` usable links.
- A `max_documents` of `0`, or an explicit `null`, means no cap.
- An empty-string href is dropped like a missing one.
- The no-URLs answer is its own body. It has top-level `success=True`, but its
  embedded `details` dictionary still has `success=False`.
- A negative `max_documents` always passes the size test, so it slices with
  Python's negative-stop rule and drops that many anchors from the end.

## Model

| member | source | states |
|---|---|---|
| Scraper.SliceStop | backend.py:107 | Python's `s[:stop]` end: `stop` itself when it lies in the sequence, the length when it lies beyond, `len+stop` for a negative stop that reaches into it, 0 below that |
| Scraper.Capped | backend.py:106-108 | the anchors considered are a prefix of the page's anchors: exactly the first `m` when `0 < m` is below the anchor count, all but the last `-m` for a negative `m` (none when `-m` exceeds the count), and all of them when there is no cap or the page does not exceed it |
| Scraper.Hrefs | backend.py:110-114 | the collected URLs are no more than the anchors and none is empty (falsy hrefs are skipped) |
| Scraper.HrefsMembership | backend.py:110-114 | a URL is collected exactly when it is non-empty and some anchor carries it as its href |
| Scraper.SelectedArePagePrefix | backend.py:106-114 | the selected URLs are a prefix of all the page's present hrefs, in page order |
| Scraper.SelectedBound | backend.py:106-107 | a positive `max_documents` bounds how many URLs are selected (fewer are possible) |
| Scraper.SelectedUncapped | backend.py:106-114 | with no cap (absent, `null`, 0) or one the page does not exceed, and no href read that raises, every present href is selected |
| Scraper.SelectedFirstM | backend.py:106-114 | with `max_documents = m` below the anchor count and every anchor carrying an href, exactly the first `m` hrefs are selected, in order |
| Scraper.SelectedFirstAnchors | backend.py:106-114 | with `max_documents = m` below the anchor count and the first `m` hrefs readable, the selection is the present hrefs of exactly the first `m` anchors, in order, even where some of those anchors have no href |
| Scraper.SelectedMembership | backend.py:97-121 | a URL is selected exactly when the page loaded, no considered href read raised, and it is a non-empty href among the considered anchors; any failure gives no URLs |
| Scraper.SelectLinks | backend.py:101-121 | what link discovery returns for a loaded or failed page: the reference definition that the loop and the selection lemmas are stated against |
| Scraper.SearchResults | backend.py:97-121 | link discovery on a scraper's driver; without a driver (the call into `None` raises) it is the empty list |
| Scraper.KanoonScraper.ScrapeSearchResults | backend.py:93-121 | on a driver that has not been quit, the loop returns exactly the capped, href-filtered links of the page, or the empty list when there is no driver, the page fails or an href read raises |
| Scraper.Extract | backend.py:127-170 | success exactly when the document landed off any search page and its container was read, with the normalised (and so clean) text; a redirect fails with the fixed redirect error and never reads the content; a timeout fails with the fixed timeout error; any other exception, whether loading the page or reading its container, fails with its own text; the URL is kept |
| Scraper.ScrapeJudgment | backend.py:123-170 | the result names the requested URL; without a driver it is the failure raised by calling into `None` |
| Scraper.JudgmentResult.Status | backend.py:149-170 | the `status` key of a scrape result: "success" or "failed" |
| Scraper.FaultMessage | backend.py:155-170 | the `error` text of a failed scrape: the fixed timeout message for a timeout, else the exception's own text |
| Scraper.Redirected | backend.py:131 | a landing address counts as a search page when "search" occurs in it |
| Scraper.PayloadOf | backend.py:184-188 | the payload is exactly the source tag `KanoonScraper`, the judgment's URL and its text (`None` for a failure) |
| Scraper.SendToWebhook | backend.py:172-209 | no webhook URL (None or "") gives false without posting; otherwise true exactly when the POST of the payload answers 200, false for any other status, a timeout or a transport error |
| Scraper.PostedPayloadCarriesText | backend.py:184-188 | the payload posted for a scraped judgment carries its URL and the normalised container text |
| Scraper.NoUrlNeverPosts | backend.py:174-176 | without a webhook URL the outcome is false whatever the HTTP client would answer |
| Scraper.KanoonScraper.constructor | backend.py:43-46 | the scraper keeps the webhook URL and starts with no driver |
| Scraper.KanoonScraper.SetupDriver | backend.py:48-91 | a successful launch installs the session and reports no failure; a failed one reports the exception text and leaves the driver as it was |
| Scraper.KanoonScraper.Close | backend.py:211-216 | the driver is quit if one was acquired, and the scraper keeps the same driver |
| Browser.Driver.Quit | backend.py:215 | the browser is marked as quit |
| Text.IsSpace | backend.py:144 | the characters `str.strip()` removes: those for which `str.isspace()` holds, '\n' among them |
| Text.TrimStartDrops | backend.py:144 | what left-trimming removes is all whitespace and what it keeps is a suffix of the line, starting at a non-space character |
| Text.TrimEndDrops | backend.py:144 | what right-trimming removes is all whitespace and what it keeps is a prefix of the line |
| Text.Strip | backend.py:144 | `line.strip()` is no longer than the line and has no whitespace at either end |
| Text.StripMiddle | backend.py:144 | `line.strip()` is a middle slice of the line with only whitespace before and after it |
| Text.StripBlank | backend.py:144 | `line.strip()` is empty exactly when the line is all whitespace, so the filter drops exactly the blank lines |
| Text.StripKeepsNoNewline | backend.py:144 | stripping a line without a line break gives a line without a line break |
| Text.Split | backend.py:143 | `split('\n')` gives at least one piece and no piece contains a line break |
| Text.Join | backend.py:145 | `'\n'.join(...)`: the pieces with a single line break between consecutive ones; JoinSplit and SplitJoin tie it to Split |
| Text.JoinSplit | backend.py:143-145 | joining the pieces of `split('\n')` with '\n' gives back the text |
| Text.SplitJoin | backend.py:143-145 | splitting a '\n'-join of line-break-free lines gives back those lines |
| Text.Clean | backend.py:144 | the cleaned lines are no more than the input lines, and each is non-empty with no surrounding whitespace |
| Text.CleanOne | backend.py:144 | a single line is dropped exactly when it is blank and is otherwise kept in its stripped form |
| Text.CleanKeepsNoNewline | backend.py:143-144 | cleaning the pieces of a split keeps them free of line breaks |
| Text.Normalise | backend.py:143-145 | the cleaned judgment text: split on line breaks, strip every line, drop the blank ones, join the rest; its properties are the lemmas in the rows below |
| Text.NormaliseLines | backend.py:143-145 | when some line survives cleaning, the lines of the cleaned judgment are exactly the kept lines, in order |
| Text.NormaliseIsNormalised | backend.py:143-145 | the cleaned judgment is empty or every one of its lines is non-empty with no surrounding whitespace |
| Text.NormaliseNoBlankLine | backend.py:143-145 | the cleaned judgment never contains "\n\n" |
| Text.NormaliseEnds | backend.py:143-145 | a non-empty cleaned judgment neither starts nor ends with '\n' or any other whitespace |
| Text.NormalisedIffFixpoint | backend.py:143-145 | a text has the normalised shape exactly when cleaning leaves it unchanged |
| Text.NormaliseIdempotent | backend.py:143-145 | cleaning an already cleaned judgment changes nothing |
| Text.NormaliseKeepsVisible | backend.py:143-145 | cleaning only removes whitespace: the non-whitespace characters are kept, in order |
| Text.NormaliseBlank | backend.py:143-145 | empty or all-whitespace text, and only such text, cleans to "" |
| Text.HasInfix | backend.py:131 | Python's substring test `p in s`; HasInfixAt characterises it by position |
| Text.HasInfixAt | backend.py:131 | the `"search" in current_url` test holds exactly when the word occurs at some position of the URL |
| Decimal.ShowNat | backend.py:289 | the count is rendered as a non-empty string of decimal digits with no leading zero |
| Decimal.ParseShowNat | backend.py:289 | reading the rendered digits back gives the count, so the message states it exactly |
| Api.SentMessage | backend.py:289 | the final message with the sent count in decimal; ParseShowNat shows the count is stated exactly |
| Api.Truthy | backend.py:238 | a request field is truthy when it is present, not `null` and not the empty string |
| Api.ValidRequest | backend.py:238 | a request is served only when both `url` and `webhook_url` are present, non-null and non-empty |
| Api.MaxDocuments | backend.py:236 | `max_documents` from the request: 5 when missing, no cap when `null`, else the given number |
| Api.DefaultCapIsFive | backend.py:236 | a request without `max_documents` finds and reports at most 5 URLs |
| Api.NullOrZeroMeansNoCap | backend.py:106-114 | an explicit `null` (which `data.get` passes through) or `0` for `max_documents` is falsy and so means no cap: every present href of a readable page is found |
| Api.Entry.Status | backend.py:274-282 | the `status` string of an `n8n_results` entry: "SENT", "WEBHOOK_FAILED" or "SCRAPE_FAILED" |
| Api.EntryFor | backend.py:269-282 | an entry carries its URL and is SENT exactly when the scrape succeeded and the webhook accepted it, WEBHOOK_FAILED exactly when the scrape succeeded and it did not, SCRAPE_FAILED with the scrape's error exactly when the scrape failed |
| Api.RunEntries | backend.py:266-282 | the loop produces one entry per discovered URL |
| Api.RunEntriesAt | backend.py:266-282 | entry `i` is the one for the `i`-th discovered URL, in discovery order, classified from that URL's own scrape and post |
| Api.CountSent | backend.py:265-274 | the number of SENT entries, which is what the counter adds up; CountSentBounds bounds it |
| Api.CountSentBounds | backend.py:271-274 | the sent count is at most the entries, equals their number exactly when every entry is SENT, and is 0 exactly when none is |
| Api.ProcessUrls | backend.py:265-289 | on a scraper whose browser has not been quit, the loop builds exactly the per-URL entries in order, counts exactly the SENT entries, and pauses between items n−1 times |
| Api.Respond | backend.py:226-302 | the reference answer of the handler for a request, a browser launch and an HTTP client; the handler method is proved equal to it and the lemmas below state its properties |
| Api.ScrapeIndianKanoonApi | backend.py:226-302 | the response is the reference answer; no scraper is built for an invalid request, which touches nothing; once a scraper exists it holds the launched session, if any, and that session, live until then, is quit on every exit path and only after discovery and the loop have used it (the `finally` order); the pauses are one fewer than the URLs processed |
| Api.RejectsExactlyInvalid | backend.py:238-241 | a request without a truthy `url` or `webhook_url`, and only such a request, is answered 400 with the fixed message |
| Api.ServerErrorExactlyOnLaunchFailure | backend.py:251-298 | a failed browser launch, and only that, is answered 500 with `success=False`, the exception text and "Critical server error" |
| Api.EmptyDiscoverySucceeds | backend.py:255-263 | a run that finds no URLs answers 200 with `success=True`, zero counts and no entries |
| Api.ReportAccountsForEveryUrl | backend.py:255-290 | the report has one entry per found URL, in order, each classified from its own scrape and post; the sent count is the number of SENT entries, never more than the URLs found; the message states that count |
| Api.SentWhenScrapedAndAccepted | backend.py:269-274 | a URL whose document is scraped and whose payload the webhook answers with 200 is reported SENT |
| Api.AllDeliveredWhenAllSucceed | backend.py:265-289 | when every discovered document is scraped and the webhook answers every payload with 200, every entry is SENT and the sent count equals the URLs found |
| Api.TwoOfFiveExample | backend.py:226-290 | with `max_documents = 2`, five links, every document scraped and every post answered 200, the answer is 200 with the first two links SENT and the message "Successfully scraped and posted 2 judgments to n8n." |

## Left out

- Chrome options, Railway/Docker detection and binary paths (lines 52-83): deployment plumbing. The launch is an input: a session or an exception text.
- Selenium navigation, `WebDriverWait`, the XPath and class-name lookups and the page-load timeout: what the browser renders, including timeouts and failures, is fixed data of the `Driver`.
- The `time.sleep` delays: the settle delay is not modelled, and the inter-item delays are only counted (`pauses`).
- BeautifulSoup's `get_text(separator='\n', strip=True)`: its output is the container text given to the normalisation.
- `requests.post`, its headers and its timeout: the HTTP client is the parameter `post`, whose outcome is what the webhook decision depends on.
- Flask routing, CORS, the OPTIONS preflight, the `/health` endpoint, logging and the `__main__` bootstrap: framework and I/O, not program logic.
- A request body that is not a JSON object (`request.json` is None), and JSON values of the wrong type (a string `max_documents`, say): the request is modelled as typed fields that may be missing or null.
- Exceptions in the loop itself, outside the browser steps that the scrape absorbs: in the code they can only come from the framework or the runtime, and the model's 500 path is the failed launch.
- A `driver.quit()` that raises (line 215, called from the `finally` at lines 300-302): `Browser.Driver.Quit` always succeeds, so the model does not capture that such an exception would replace any answer, the 200 reports included, with the framework's error response.
- Calls on a browser that has been quit: in Selenium they raise. The model does not give them an outcome; instead, link discovery and the per-URL loop require a live session, which pins the close to after the work.
- Concurrency between requests: each request is modelled on its own session.
