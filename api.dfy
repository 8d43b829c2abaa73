/**
 * The `POST /scrape` handler `scrape_indian_kanoon_api`: request validation,
 * one browser session, link discovery, the per-URL scrape-then-post loop, the
 * run summary and the HTTP status, with the session closed on every exit path.
 */
module Api {
  import opened Wrappers
  import opened Browser
  import opened Scraper
  import Decimal

  /** A JSON field of the request body: missing, `null`, or a value. */
  datatype Field<T> = Absent | Null | Value(value: T)

  /** The JSON body of `POST /scrape`. */
  datatype ScrapeRequest = ScrapeRequest(url: Field<string>, webhookUrl: Field<string>, maxDocuments: Field<int>)

  const RequiredFieldsError := "Both 'url' (Indian Kanoon search) and 'webhook_url' (n8n) are required."
  const NoUrlsMessage := "No judgment URLs found on the search page."
  const CriticalMessage := "Critical server error"
  const DefaultMaxDocuments := 5

  /** `data.get(key)` is truthy: present, not null, not "". */
  predicate Truthy(f: Field<string>) {
    f.Value? && f.value != ""
  }

  /** The validation at the top of the handler. */
  predicate ValidRequest(req: ScrapeRequest) {
    Truthy(req.url) && Truthy(req.webhookUrl)
  }

  /** `data.get('max_documents', 5)`: 5 when missing, None when null. */
  function MaxDocuments(req: ScrapeRequest): Option<int> {
    match req.maxDocuments
    case Absent => Some(DefaultMaxDocuments)
    case Null => None
    case Value(n) => Some(n)
  }

  /** One element of `n8n_results`. */
  datatype Entry = Sent(url: string) | WebhookFailed(url: string) | ScrapeFailed(url: string, error: string)
  {
    /** The `status` key. */
    function Status(): string {
      match this
      case Sent(_) => "SENT"
      case WebhookFailed(_) => "WEBHOOK_FAILED"
      case ScrapeFailed(_, _) => "SCRAPE_FAILED"
    }
  }

  /** The `results` dictionary; `message` is only set once the loop has finished. */
  datatype Summary = Summary(
    success: bool,
    totalUrlsFound: nat,
    totalWebhooksSent: nat,
    n8nResults: seq<Entry>,
    message: Option<string>)

  /** The JSON bodies the handler returns. */
  datatype Body =
    | MissingFields(error: string)
    | NoUrls(success: bool, message: string, details: Summary)
    | Report(summary: Summary)
    | CriticalError(success: bool, error: string, message: string)

  datatype Response = Response(statusCode: int, body: Body)

  function SentMessage(sent: nat): string {
    "Successfully scraped and posted " + Decimal.ShowNat(sent) + " judgments to n8n."
  }

  // ---------------------------------------------------------------------------
  // The per-URL loop
  // ---------------------------------------------------------------------------

  /** The entry one loop iteration appends for `url`, given what the scrape returned. */
  function EntryFor(url: string, data: JudgmentResult, webhookUrl: Option<string>, post: (string, Payload) -> PostOutcome): (e: Entry)
    ensures e.url == url
    ensures e.Sent? <==> data.Success? && SendToWebhook(webhookUrl, data, post)
    ensures e.WebhookFailed? <==> data.Success? && !SendToWebhook(webhookUrl, data, post)
    ensures e.ScrapeFailed? <==> data.Failed?
    ensures e.ScrapeFailed? ==> e.error == data.error
  {
    if data.Success? then
      if SendToWebhook(webhookUrl, data, post) then Sent(url) else WebhookFailed(url)
    else ScrapeFailed(url, data.error)
  }

  /** The `n8n_results` list the loop builds over `urls`: one entry per URL, in order. */
  function RunEntries(driver: Driver?, webhookUrl: Option<string>, urls: seq<string>, post: (string, Payload) -> PostOutcome): (entries: seq<Entry>)
    ensures |entries| == |urls|
  {
    if urls == [] then []
    else
      var last := urls[|urls| - 1];
      RunEntries(driver, webhookUrl, urls[..|urls| - 1], post) + [EntryFor(last, ScrapeJudgment(driver, last), webhookUrl, post)]
  }

  /** Entry `i` is the one for `urls[i]`: it carries that URL and is classified from that URL's scrape and post. */
  lemma {:induction false} RunEntriesAt(driver: Driver?, webhookUrl: Option<string>, urls: seq<string>, post: (string, Payload) -> PostOutcome, i: nat)
    requires i < |urls|
    ensures RunEntries(driver, webhookUrl, urls, post)[i] == EntryFor(urls[i], ScrapeJudgment(driver, urls[i]), webhookUrl, post)
    ensures RunEntries(driver, webhookUrl, urls, post)[i].url == urls[i]
  {
    if i < |urls| - 1 {
      RunEntriesAt(driver, webhookUrl, urls[..|urls| - 1], post, i);
    }
  }

  /** The number of SENT entries. */
  function CountSent(entries: seq<Entry>): nat {
    if entries == [] then 0
    else CountSent(entries[..|entries| - 1]) + (if entries[|entries| - 1].Sent? then 1 else 0)
  }

  /** The SENT count is at most the number of entries, equal to it exactly when all are SENT, and 0 exactly when none is. */
  lemma {:induction false} CountSentBounds(entries: seq<Entry>)
    ensures CountSent(entries) <= |entries|
    ensures CountSent(entries) == |entries| <==> forall i :: 0 <= i < |entries| ==> entries[i].Sent?
    ensures CountSent(entries) == 0 <==> forall i :: 0 <= i < |entries| ==> !entries[i].Sent?
  {
    if entries != [] {
      var init := entries[..|entries| - 1];
      CountSentBounds(init);
      assert forall i :: 0 <= i < |init| ==> init[i] == entries[i];
    }
  }

  /** One more iteration appends the entry for the next URL. */
  lemma RunEntriesSnoc(driver: Driver?, webhookUrl: Option<string>, urls: seq<string>, i: nat, post: (string, Payload) -> PostOutcome,
                       entries: seq<Entry>, e: Entry)
    requires i < |urls|
    requires entries == RunEntries(driver, webhookUrl, urls[..i], post)
    requires e == EntryFor(urls[i], ScrapeJudgment(driver, urls[i]), webhookUrl, post)
    ensures entries + [e] == RunEntries(driver, webhookUrl, urls[..i + 1], post)
  {
    assert urls[..i + 1][..i] == urls[..i];
  }

  lemma CountSentSnoc(entries: seq<Entry>, e: Entry)
    ensures CountSent(entries + [e]) == CountSent(entries) + (if e.Sent? then 1 else 0)
  {
    assert (entries + [e])[..|entries|] == entries;
  }

  /** The loop of the handler (source lines 265-289). */
  method ProcessUrls(scraper: KanoonScraper, judgmentUrls: seq<string>, post: (string, Payload) -> PostOutcome)
    returns (n8nResults: seq<Entry>, totalWebhooksSent: nat, pauses: nat)
    requires scraper.driver != null ==> !scraper.driver.quit
    ensures n8nResults == RunEntries(scraper.driver, scraper.webhookUrl, judgmentUrls, post)
    ensures totalWebhooksSent == CountSent(n8nResults)
    ensures pauses == if judgmentUrls == [] then 0 else |judgmentUrls| - 1
  {
    var driver, webhookUrl := scraper.driver, scraper.webhookUrl;
    n8nResults := [];
    totalWebhooksSent := 0;
    pauses := 0;
    var i := 0;
    while i < |judgmentUrls|
      invariant 0 <= i <= |judgmentUrls|
      invariant n8nResults == RunEntries(driver, webhookUrl, judgmentUrls[..i], post)
      invariant totalWebhooksSent == CountSent(n8nResults)
      invariant i < |judgmentUrls| ==> pauses == i
      invariant i == |judgmentUrls| ==> pauses == if i == 0 then 0 else i - 1
    {
      var url := judgmentUrls[i];
      var judgmentData := ScrapeJudgment(driver, url);
      var entry;
      if judgmentData.Success? {
        if SendToWebhook(webhookUrl, judgmentData, post) {
          totalWebhooksSent := totalWebhooksSent + 1;
          entry := Sent(url);
        } else {
          entry := WebhookFailed(url);
        }
      } else {
        entry := ScrapeFailed(url, judgmentData.error);
      }
      assert entry == EntryFor(url, judgmentData, webhookUrl, post);
      RunEntriesSnoc(driver, webhookUrl, judgmentUrls, i, post, n8nResults, entry);
      CountSentSnoc(n8nResults, entry);
      n8nResults := n8nResults + [entry];
      if i < |judgmentUrls| - 1 {
        pauses := pauses + 1;   // time.sleep(2)
      }
      i := i + 1;
    }
    assert judgmentUrls[..i] == judgmentUrls;
  }

  // ---------------------------------------------------------------------------
  // The handler
  // ---------------------------------------------------------------------------

  /** The response `scrape_indian_kanoon_api` gives for a request, a browser launch and a webhook. */
  function Respond(req: ScrapeRequest, launch: Launch, post: (string, Payload) -> PostOutcome): Response {
    if !ValidRequest(req) then Response(400, MissingFields(RequiredFieldsError))
    else
      match launch
      case LaunchFailed(message) => Response(500, CriticalError(false, message, CriticalMessage))
      case Launched(session) =>
        var urls := SearchResults(session, req.url.value, MaxDocuments(req));
        if urls == [] then
          Response(200, NoUrls(true, NoUrlsMessage, Summary(false, 0, 0, [], None)))
        else
          var entries := RunEntries(session, Some(req.webhookUrl.value), urls, post);
          var sent := CountSent(entries);
          Response(200, Report(Summary(true, |urls|, sent, entries, Some(SentMessage(sent)))))
  }

  /** The drivers the handler may touch: the launched session, if any. */
  function Session(launch: Launch): set<Driver> {
    if launch.Launched? then {launch.session} else {}
  }

  /**
   * `scrape_indian_kanoon_api`. `scraper` is the scraper the handler built
   * (null when validation rejected the request) and `pauses` the number of
   * inter-item delays it took.
   */
  method ScrapeIndianKanoonApi(req: ScrapeRequest, launch: Launch, post: (string, Payload) -> PostOutcome)
    returns (resp: Response, ghost scraper: KanoonScraper?, ghost pauses: nat)
    requires launch.Launched? ==> !launch.session.quit
    modifies Session(launch)
    ensures resp == Respond(req, launch, post)
    ensures scraper == null <==> !ValidRequest(req)
    ensures !ValidRequest(req) ==> unchanged(Session(launch)) && pauses == 0
    ensures scraper != null ==> scraper.driver == (if launch.Launched? then launch.session else null)
    ensures scraper != null && scraper.driver != null ==> scraper.driver.quit
    ensures pauses == if resp.body.Report? then resp.body.summary.totalUrlsFound - 1 else 0
  {
    scraper, pauses := null, 0;
    if !ValidRequest(req) {
      return Response(400, MissingFields(RequiredFieldsError)), null, 0;
    }
    var searchUrl, webhookUrl, maxDocuments := req.url.value, req.webhookUrl.value, MaxDocuments(req);
    var s := new KanoonScraper(Some(webhookUrl));
    scraper := s;
    var failure := s.SetupDriver(launch);
    if failure.Some? {
      resp := Response(500, CriticalError(false, failure.value, CriticalMessage));
    } else {
      var judgmentUrls := s.ScrapeSearchResults(searchUrl, maxDocuments);
      if judgmentUrls == [] {
        resp := Response(200, NoUrls(true, NoUrlsMessage, Summary(false, 0, 0, [], None)));
      } else {
        var n8nResults, totalWebhooksSent, waits := ProcessUrls(s, judgmentUrls, post);
        var message := SentMessage(totalWebhooksSent);
        resp := Response(200, Report(Summary(true, |judgmentUrls|, totalWebhooksSent, n8nResults, Some(message))));
        pauses := waits;
      }
    }
    s.Close();   // the `finally` clause
  }

  // ---------------------------------------------------------------------------
  // What the handler promises
  // ---------------------------------------------------------------------------

  /** A request without a truthy `url` or `webhook_url` is answered 400, and only such a request. */
  lemma RejectsExactlyInvalid(req: ScrapeRequest, launch: Launch, post: (string, Payload) -> PostOutcome)
    ensures Respond(req, launch, post).statusCode == 400 <==> !ValidRequest(req)
    ensures !ValidRequest(req) ==> Respond(req, launch, post).body == MissingFields(RequiredFieldsError)
  {
  }

  /** A failed browser launch, and only that, is answered 500 with `success=False` and the exception text. */
  lemma ServerErrorExactlyOnLaunchFailure(req: ScrapeRequest, launch: Launch, post: (string, Payload) -> PostOutcome)
    ensures Respond(req, launch, post).statusCode == 500 <==> ValidRequest(req) && launch.LaunchFailed?
    ensures ValidRequest(req) && launch.LaunchFailed? ==>
      Respond(req, launch, post).body == CriticalError(false, launch.message, CriticalMessage)
  {
  }

  /** Discovering no links is a success: 200, `success=True`, zero counts and no entries. */
  lemma EmptyDiscoverySucceeds(req: ScrapeRequest, session: Driver, post: (string, Payload) -> PostOutcome)
    requires ValidRequest(req)
    requires SearchResults(session, req.url.value, MaxDocuments(req)) == []
    ensures var r := Respond(req, Launched(session), post);
      && r.statusCode == 200
      && r.body.NoUrls? && r.body.success
      && r.body.details.totalUrlsFound == 0 && r.body.details.totalWebhooksSent == 0
      && r.body.details.n8nResults == []
  {
  }

  /** Without `max_documents` in the request at most 5 URLs are found and reported. */
  lemma DefaultCapIsFive(req: ScrapeRequest, session: Driver, post: (string, Payload) -> PostOutcome)
    requires ValidRequest(req) && req.maxDocuments.Absent?
    ensures |SearchResults(session, req.url.value, MaxDocuments(req))| <= 5
    ensures var r := Respond(req, Launched(session), post);
      r.body.Report? ==> r.body.summary.totalUrlsFound <= 5
  {
    SelectedBound(session.searchPages(req.url.value), 5);
    if SearchResults(session, req.url.value, MaxDocuments(req)) != [] {
      RespondReport(req, session, post);
    }
  }

  /** An explicit `null` or `0` for `max_documents` means no cap: every present href of a readable page is found. */
  lemma NullOrZeroMeansNoCap(req: ScrapeRequest, session: Driver)
    requires ValidRequest(req) && (req.maxDocuments.Null? || req.maxDocuments == Value(0))
    requires session.searchPages(req.url.value).Rendered?
    requires Readable(session.searchPages(req.url.value).anchors)
    ensures SearchResults(session, req.url.value, MaxDocuments(req)) == Hrefs(session.searchPages(req.url.value).anchors)
  {
    SelectedUncapped(session.searchPages(req.url.value).anchors, MaxDocuments(req));
  }

  /**
   * A completed run reports one entry per discovered URL, in discovery order,
   * classified from its scrape and webhook outcome, and a sent count equal to
   * the number of SENT entries, never more than the URLs found.
   */
  lemma ReportAccountsForEveryUrl(req: ScrapeRequest, session: Driver, post: (string, Payload) -> PostOutcome)
    requires ValidRequest(req)
    requires SearchResults(session, req.url.value, MaxDocuments(req)) != []
    ensures var urls := SearchResults(session, req.url.value, MaxDocuments(req));
      var r := Respond(req, Launched(session), post);
      && r.statusCode == 200 && r.body.Report? && r.body.summary.success
      && r.body.summary.totalUrlsFound == |urls| == |r.body.summary.n8nResults|
      && (forall i :: 0 <= i < |urls| ==>
            var e := r.body.summary.n8nResults[i];
            var data := ScrapeJudgment(session, urls[i]);
            && e.url == urls[i]
            && (e.Sent? <==> data.Success? && SendToWebhook(Some(req.webhookUrl.value), data, post))
            && (e.WebhookFailed? <==> data.Success? && !SendToWebhook(Some(req.webhookUrl.value), data, post))
            && (e.ScrapeFailed? <==> data.Failed?)
            && (e.ScrapeFailed? ==> e.error == data.error))
      && r.body.summary.totalWebhooksSent == CountSent(r.body.summary.n8nResults)
      && r.body.summary.totalWebhooksSent <= r.body.summary.totalUrlsFound
      && r.body.summary.message == Some(SentMessage(r.body.summary.totalWebhooksSent))
  {
    var urls := SearchResults(session, req.url.value, MaxDocuments(req));
    var entries := RunEntries(session, Some(req.webhookUrl.value), urls, post);
    RespondReport(req, session, post);
    CountSentBounds(entries);
    forall i | 0 <= i < |urls|
      ensures entries[i] == EntryFor(urls[i], ScrapeJudgment(session, urls[i]), Some(req.webhookUrl.value), post)
    {
      RunEntriesAt(session, Some(req.webhookUrl.value), urls, post, i);
    }
  }

  /** A run that discovers links answers with the report built from their entries. */
  lemma RespondReport(req: ScrapeRequest, session: Driver, post: (string, Payload) -> PostOutcome)
    requires ValidRequest(req)
    requires SearchResults(session, req.url.value, MaxDocuments(req)) != []
    ensures var urls := SearchResults(session, req.url.value, MaxDocuments(req));
      var entries := RunEntries(session, Some(req.webhookUrl.value), urls, post);
      Respond(req, Launched(session), post)
        == Response(200, Report(Summary(true, |urls|, CountSent(entries), entries, Some(SentMessage(CountSent(entries))))))
  {
  }

  /**
   * When every discovered document loads with its content and the webhook
   * answers every payload with 200, every entry is SENT and the sent count equals the URLs found: the same
   * inputs always give the same all-SENT report.
   */
  lemma AllDeliveredWhenAllSucceed(req: ScrapeRequest, session: Driver, post: (string, Payload) -> PostOutcome)
    requires ValidRequest(req)
    requires forall u :: u in SearchResults(session, req.url.value, MaxDocuments(req)) ==>
      session.documents(u).Landed? && !Redirected(session.documents(u).currentUrl) && session.documents(u).container.Content?
    requires forall p :: post(req.webhookUrl.value, p) == Responded(200)
    requires SearchResults(session, req.url.value, MaxDocuments(req)) != []
    ensures var r := Respond(req, Launched(session), post);
      && r.body.Report?
      && (forall i :: 0 <= i < |r.body.summary.n8nResults| ==> r.body.summary.n8nResults[i].Sent?)
      && r.body.summary.totalWebhooksSent == r.body.summary.totalUrlsFound
  {
    var urls := SearchResults(session, req.url.value, MaxDocuments(req));
    var entries := RunEntries(session, Some(req.webhookUrl.value), urls, post);
    RespondReport(req, session, post);
    forall i | 0 <= i < |entries| ensures entries[i].Sent? {
      RunEntriesAt(session, Some(req.webhookUrl.value), urls, post, i);
      SentWhenScrapedAndAccepted(session, req.webhookUrl.value, urls[i], post);
    }
    CountSentBounds(entries);
  }

  /** A URL whose document is scraped and whose payload the webhook answers with 200 is reported SENT. */
  lemma SentWhenScrapedAndAccepted(driver: Driver, hook: string, u: string, post: (string, Payload) -> PostOutcome)
    requires hook != ""
    requires driver.documents(u).Landed? && !Redirected(driver.documents(u).currentUrl) && driver.documents(u).container.Content?
    requires post(hook, PayloadOf(ScrapeJudgment(driver, u))) == Responded(200)
    ensures EntryFor(u, ScrapeJudgment(driver, u), Some(hook), post) == Sent(u)
  {
    var data := ScrapeJudgment(driver, u);
    assert data.Success?;
    assert SendToWebhook(Some(hook), data, post);
  }

  /**
   * A worked run: `max_documents = 2` on a page of five links, every document
   * scraped (whatever its text) and every post answered 200, reports the first
   * two links as SENT.
   */
  lemma TwoOfFiveExample(session: Driver, post: (string, Payload) -> PostOutcome, landing: string, text: string)
    requires session.searchPages("search-page") == Rendered([Href("L1"), Href("L2"), Href("L3"), Href("L4"), Href("L5")])
    requires !Redirected(landing)
    requires forall u :: session.documents(u) == Landed(landing, Content(text))
    requires forall u, p :: post(u, p) == Responded(200)
    ensures Respond(ScrapeRequest(Value("search-page"), Value("hook"), Value(2)), Launched(session), post)
      == Response(200, Report(Summary(true, 2, 2, [Sent("L1"), Sent("L2")],
                                      Some("Successfully scraped and posted 2 judgments to n8n."))))
  {
    var req := ScrapeRequest(Value("search-page"), Value("hook"), Value(2));
    var entries := [Sent("L1"), Sent("L2")];
    assert ValidRequest(req) && MaxDocuments(req) == Some(2);
    assert SearchResults(session, "search-page", Some(2)) == ["L1", "L2"] by {
      ExampleUrls(session);
    }
    assert RunEntries(session, Some("hook"), ["L1", "L2"], post) == entries by {
      SentWhenScrapedAndAccepted(session, "hook", "L1", post);
      SentWhenScrapedAndAccepted(session, "hook", "L2", post);
      ExampleEntries(session, "hook", post, "L1", "L2");
    }
    assert CountSent(entries) == 2 by {
      CountTwoSent("L1", "L2");
    }
    ExampleReport(req, session, post, entries);
    TwoSentMessage();
  }

  lemma ExampleReport(req: ScrapeRequest, session: Driver, post: (string, Payload) -> PostOutcome, entries: seq<Entry>)
    requires ValidRequest(req)
    requires |SearchResults(session, req.url.value, MaxDocuments(req))| == 2
    requires RunEntries(session, Some(req.webhookUrl.value), SearchResults(session, req.url.value, MaxDocuments(req)), post) == entries
    requires CountSent(entries) == 2
    ensures Respond(req, Launched(session), post) == Response(200, Report(Summary(true, 2, 2, entries, Some(SentMessage(2)))))
  {
    RespondReport(req, session, post);
  }

  lemma CountTwoSent(a: string, b: string)
    ensures CountSent([Sent(a), Sent(b)]) == 2
  {
    assert [Sent(a), Sent(b)][..1] == [Sent(a)];
    assert [Sent(a)][..0] == [];
    assert CountSent([Sent(a)]) == 1;
  }

  lemma TwoSentMessage()
    ensures SentMessage(2) == "Successfully scraped and posted 2 judgments to n8n."
  {
    assert Decimal.ShowNat(2) == "2";
  }

  lemma ExampleUrls(session: Driver)
    requires session.searchPages("search-page") == Rendered([Href("L1"), Href("L2"), Href("L3"), Href("L4"), Href("L5")])
    ensures SearchResults(session, "search-page", Some(2)) == ["L1", "L2"]
  {
    SelectedFirstM([Href("L1"), Href("L2"), Href("L3"), Href("L4"), Href("L5")], 2);
  }

  lemma ExampleEntries(driver: Driver, hook: string, post: (string, Payload) -> PostOutcome, a: string, b: string)
    requires EntryFor(a, ScrapeJudgment(driver, a), Some(hook), post) == Sent(a)
    requires EntryFor(b, ScrapeJudgment(driver, b), Some(hook), post) == Sent(b)
    ensures RunEntries(driver, Some(hook), [a, b], post) == [Sent(a), Sent(b)]
  {
    assert [a, b][..1] == [a];
    assert [a][..0] == [];
  }
}
