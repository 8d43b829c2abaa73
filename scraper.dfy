/**
 * `KanoonScraper`: finding the judgment links on a search-results page,
 * extracting and classifying one judgment, and deciding whether the webhook
 * accepted a judgment. The browser is a `Browser.Driver`; the HTTP client is
 * the function `post`, which gives the outcome of one POST of a payload to a URL.
 */
module Scraper {
  import opened Wrappers
  import opened Text
  import opened Browser

  const TimeoutError := "Timeout waiting for judgment content"
  const RedirectError := "Link redirected to a search page or was not a document."
  /** `str(e)` of the AttributeError raised when `scrape_judgment_text` runs without a driver. */
  const NoDriverError := "'NoneType' object has no attribute 'set_page_load_timeout'"
  const SourceName := "KanoonScraper"

  // ---------------------------------------------------------------------------
  // Link selection (scrape_search_results)
  // ---------------------------------------------------------------------------

  /** The end of Python's slice `s[:stop]` on a sequence of length `len`. */
  function SliceStop(len: nat, stop: int): (k: nat)
    ensures k <= len
    ensures 0 <= stop <= len ==> k == stop
    ensures stop > len ==> k == len
    ensures stop < 0 && len + stop >= 0 ==> k == len + stop
    ensures stop < 0 && len + stop < 0 ==> k == 0
  {
    if stop >= 0 then (if stop <= len then stop else len)
    else if len + stop >= 0 then len + stop
    else 0
  }

  /** The anchors considered after `if max_documents and total_links > max_documents: ...[:max_documents]`. */
  function Capped(anchors: seq<Anchor>, maxDocuments: Option<int>): (r: seq<Anchor>)
    ensures |r| <= |anchors| && r == anchors[..|r|]
    ensures maxDocuments.Some? && 0 < maxDocuments.value < |anchors| ==> |r| == maxDocuments.value
    ensures maxDocuments.Some? && maxDocuments.value < 0 ==>
      |r| == (if |anchors| + maxDocuments.value >= 0 then |anchors| + maxDocuments.value else 0)
    ensures !(maxDocuments.Some? && maxDocuments.value != 0 && |anchors| > maxDocuments.value) ==> r == anchors
  {
    if maxDocuments.Some? && maxDocuments.value != 0 && |anchors| > maxDocuments.value then
      anchors[..SliceStop(|anchors|, maxDocuments.value)]
    else anchors
  }

  /** No anchor in `anchors` raises when its href is read. */
  predicate Readable(anchors: seq<Anchor>) {
    forall k :: 0 <= k < |anchors| ==> !anchors[k].Unreadable?
  }

  /** The hrefs that are present and non-empty (truthy in Python), in page order. */
  function Hrefs(anchors: seq<Anchor>): (r: seq<string>)
    ensures |r| <= |anchors|
    ensures forall i :: 0 <= i < |r| ==> r[i] != ""
  {
    if anchors == [] then [] else Present(anchors[0]) + Hrefs(anchors[1..])
  }

  /** The href of one anchor if it is present and non-empty. */
  function Present(a: Anchor): (r: seq<string>)
    ensures |r| <= 1
  {
    if a.Href? && a.url != "" then [a.url] else []
  }

  /** A URL is among the hrefs exactly when some anchor carries it and it is non-empty. */
  lemma {:induction false} HrefsMembership(anchors: seq<Anchor>, u: string)
    ensures u in Hrefs(anchors) <==> u != "" && Href(u) in anchors
  {
    if anchors != [] {
      HrefsMembership(anchors[1..], u);
      assert Href(u) in anchors <==> anchors[0] == Href(u) || Href(u) in anchors[1..];
    }
  }

  /** The URLs `scrape_search_results` returns for a page: any failure gives the empty list. */
  function SelectLinks(page: SearchPage, maxDocuments: Option<int>): seq<string> {
    match page
    case Unreachable(_) => []
    case Rendered(anchors) =>
      var considered := Capped(anchors, maxDocuments);
      if Readable(considered) then Hrefs(considered) else []
  }

  /** `scrape_search_results` on a scraper whose driver is `driver` (None makes `driver.get` raise). */
  function SearchResults(driver: Driver?, searchUrl: string, maxDocuments: Option<int>): seq<string> {
    if driver == null then [] else SelectLinks(driver.searchPages(searchUrl), maxDocuments)
  }

  lemma {:induction false} HrefsAppend(a: seq<Anchor>, b: seq<Anchor>)
    ensures Hrefs(a + b) == Hrefs(a) + Hrefs(b)
  {
    if a == [] {
      assert a + b == b;
    } else {
      var ab := a + b;
      assert ab[0] == a[0] && ab[1..] == a[1..] + b;
      HrefsAppend(a[1..], b);
      calc {
        Hrefs(ab);
        Present(a[0]) + Hrefs(a[1..] + b);
        Present(a[0]) + (Hrefs(a[1..]) + Hrefs(b));
        (Present(a[0]) + Hrefs(a[1..])) + Hrefs(b);
      }
    }
  }

  /** Reading one more readable anchor appends its href, if present, and keeps the prefix readable. */
  lemma HrefsSnoc(anchors: seq<Anchor>, i: nat, urls: seq<string>)
    requires i < |anchors| && !anchors[i].Unreadable?
    requires Readable(anchors[..i]) && urls == Hrefs(anchors[..i])
    ensures Readable(anchors[..i + 1]) && urls + Present(anchors[i]) == Hrefs(anchors[..i + 1])
  {
    assert anchors[..i + 1] == anchors[..i] + [anchors[i]];
    HrefsAppend(anchors[..i], [anchors[i]]);
  }

  lemma {:induction false} HrefsAllPresent(a: seq<Anchor>)
    requires forall k :: 0 <= k < |a| ==> a[k].Href? && a[k].url != ""
    ensures |Hrefs(a)| == |a|
    ensures forall k :: 0 <= k < |a| ==> Hrefs(a)[k] == a[k].url
  {
    if a != [] {
      HrefsAllPresent(a[1..]);
    }
  }

  /**
   * The selected links are the first links of the page's present hrefs, in
   * page order: a prefix (so an order-preserving subsequence) of all of them.
   */
  lemma SelectedArePagePrefix(anchors: seq<Anchor>, maxDocuments: Option<int>)
    ensures var r := SelectLinks(Rendered(anchors), maxDocuments);
      |r| <= |Hrefs(anchors)| && r == Hrefs(anchors)[..|r|]
  {
    var c := Capped(anchors, maxDocuments);
    assert anchors == c + anchors[|c|..];
    HrefsAppend(c, anchors[|c|..]);
  }

  /** A positive `max_documents` bounds the number of selected links; it may select fewer. */
  lemma SelectedBound(page: SearchPage, m: int)
    requires m > 0
    ensures |SelectLinks(page, Some(m))| <= m
  {
  }

  /** Without a cap (absent, None or 0) or with one the page does not exceed, every present href is selected. */
  lemma SelectedUncapped(anchors: seq<Anchor>, maxDocuments: Option<int>)
    requires maxDocuments.None? || maxDocuments.value == 0 || maxDocuments.value >= |anchors|
    requires Readable(anchors)
    ensures SelectLinks(Rendered(anchors), maxDocuments) == Hrefs(anchors)
  {
  }

  /** With `max_documents = m` and more than `m` links, all with an href, exactly the first `m` are selected. */
  lemma SelectedFirstM(anchors: seq<Anchor>, m: int)
    requires forall k :: 0 <= k < |anchors| ==> anchors[k].Href? && anchors[k].url != ""
    requires 0 < m < |anchors|
    ensures var r := SelectLinks(Rendered(anchors), Some(m));
      |r| == m && forall k :: 0 <= k < m ==> r[k] == anchors[k].url
  {
    var c := Capped(anchors, Some(m));
    assert |c| == m;
    HrefsAllPresent(c);
  }

  /**
   * With `max_documents = m` below the anchor count, the selection is the
   * present hrefs of exactly the first `m` anchors, whatever the anchors lack.
   */
  lemma SelectedFirstAnchors(anchors: seq<Anchor>, m: int)
    requires 0 < m < |anchors|
    requires Readable(anchors[..m])
    ensures SelectLinks(Rendered(anchors), Some(m)) == Hrefs(anchors[..m])
  {
  }

  /** A URL is selected exactly when the page loaded, no considered href raised, and it is a present href among the considered anchors. */
  lemma SelectedMembership(page: SearchPage, maxDocuments: Option<int>, u: string)
    ensures u in SelectLinks(page, maxDocuments) <==>
      && page.Rendered?
      && Readable(Capped(page.anchors, maxDocuments))
      && u != ""
      && Href(u) in Capped(page.anchors, maxDocuments)
  {
    if page.Rendered? {
      HrefsMembership(Capped(page.anchors, maxDocuments), u);
    }
  }

  // ---------------------------------------------------------------------------
  // One judgment (scrape_judgment_text)
  // ---------------------------------------------------------------------------

  /** The dictionary `scrape_judgment_text` returns. */
  datatype JudgmentResult = Success(url: string, fullText: string) | Failed(url: string, error: string)
  {
    /** The `status` key. */
    function Status(): string {
      if Success? then "success" else "failed"
    }

    /** The `full_text` key: None for a failure. */
    function FullText(): Option<string> {
      if Success? then Some(fullText) else None
    }
  }

  /** `str(e)` for the exception a browser step raised, with the fixed text for a timeout. */
  function FaultMessage(f: Fault): string {
    match f
    case Timeout => TimeoutError
    case Error(m) => m
  }

  /** `"search" in driver.current_url`. */
  predicate Redirected(currentUrl: string) {
    HasInfix(currentUrl, "search")
  }

  /** The load timed out, or the wait for the content container did. */
  predicate TimedOut(load: DocumentLoad) {
    || load == LoadFault(Timeout)
    || (load.Landed? && !Redirected(load.currentUrl) && load.container == Missing(Timeout))
  }

  /** The classification of one document load. */
  function Extract(url: string, load: DocumentLoad): (r: JudgmentResult)
    ensures r.url == url
    ensures r.Success? <==> load.Landed? && !Redirected(load.currentUrl) && load.container.Content?
    ensures r.Success? ==> r.fullText == Normalise(load.container.text) && IsNormalised(r.fullText)
    ensures load.Landed? && Redirected(load.currentUrl) ==> r == Failed(url, RedirectError)
    ensures TimedOut(load) ==> r == Failed(url, TimeoutError)
    ensures load.LoadFault? && load.fault.Error? ==> r == Failed(url, load.fault.message)
    ensures load.Landed? && !Redirected(load.currentUrl) && load.container.Missing? && load.container.fault.Error? ==>
      r == Failed(url, load.container.fault.message)
  {
    match load
    case LoadFault(f) => Failed(url, FaultMessage(f))
    case Landed(currentUrl, container) =>
      if Redirected(currentUrl) then Failed(url, RedirectError)
      else
        match container
        case Content(text) =>
          NormaliseIsNormalised(text);
          Success(url, Normalise(text))
        case Missing(f) => Failed(url, FaultMessage(f))
  }

  /** `scrape_judgment_text(url)` on a scraper whose driver is `driver`. */
  function ScrapeJudgment(driver: Driver?, url: string): (r: JudgmentResult)
    ensures r.url == url
    ensures driver == null ==> r == Failed(url, NoDriverError)
  {
    if driver == null then Failed(url, NoDriverError) else Extract(url, driver.documents(url))
  }

  // ---------------------------------------------------------------------------
  // Webhook (send_to_webhook)
  // ---------------------------------------------------------------------------

  /** The JSON body posted to the webhook. */
  datatype Payload = Payload(source: string, caseUrl: string, fullJudgmentText: Option<string>)

  /** What `requests.post` ends with: a response, a timeout, or another transport error. */
  datatype PostOutcome = Responded(statusCode: int) | PostTimedOut | PostError(message: string)

  /** The payload for one judgment: exactly the source tag, its URL and its text. */
  function PayloadOf(data: JudgmentResult): (p: Payload)
    ensures p.source == SourceName && p.caseUrl == data.url && p.fullJudgmentText == data.FullText()
  {
    Payload(SourceName, data.url, data.FullText())
  }

  /** `send_to_webhook`: no URL configured means no POST and failure; otherwise only a 200 response is success. */
  function SendToWebhook(webhookUrl: Option<string>, data: JudgmentResult, post: (string, Payload) -> PostOutcome): (delivered: bool)
    ensures (webhookUrl.None? || webhookUrl.value == "") ==> !delivered
    ensures webhookUrl.Some? && webhookUrl.value != "" ==>
      (delivered <==> post(webhookUrl.value, PayloadOf(data)) == Responded(200))
  {
    match webhookUrl
    case None => false
    case Some(target) =>
      if target == "" then false
      else
        match post(target, PayloadOf(data))
        case Responded(code) => code == 200
        case PostTimedOut => false
        case PostError(_) => false
  }

  /** The payload posted for a scraped judgment carries its URL and its normalised text. */
  lemma PostedPayloadCarriesText(driver: Driver, url: string)
    requires ScrapeJudgment(driver, url).Success?
    ensures var load := driver.documents(url);
      PayloadOf(ScrapeJudgment(driver, url)) == Payload(SourceName, url, Some(Normalise(load.container.text)))
  {
  }

  /** Without a webhook URL (None or "") the outcome is false, whatever the HTTP client would answer. */
  lemma NoUrlNeverPosts(data: JudgmentResult, post1: (string, Payload) -> PostOutcome, post2: (string, Payload) -> PostOutcome)
    ensures SendToWebhook(None, data, post1) == SendToWebhook(None, data, post2) == false
    ensures SendToWebhook(Some(""), data, post1) == SendToWebhook(Some(""), data, post2) == false
  {
  }

  // ---------------------------------------------------------------------------
  // The scraper object
  // ---------------------------------------------------------------------------

  class KanoonScraper {
    const webhookUrl: Option<string>
    var driver: Driver?

    constructor (webhookUrl: Option<string>)
      ensures this.webhookUrl == webhookUrl && driver == null
    {
      this.webhookUrl := webhookUrl;
      driver := null;
    }

    /** `setup_driver`: on success the scraper holds the session; on failure it reports the exception and keeps its driver. */
    method SetupDriver(launch: Launch) returns (failure: Option<string>)
      modifies this
      ensures failure == (if launch.LaunchFailed? then Some(launch.message) else None)
      ensures driver == (if launch.Launched? then launch.session else old(driver))
    {
      match launch
      case Launched(session) =>
        driver := session;
        failure := None;
      case LaunchFailed(message) =>
        failure := Some(message);
    }

    /** `scrape_search_results`: the capped, href-filtered links of the search page, or [] on any failure. */
    method ScrapeSearchResults(searchUrl: string, maxDocuments: Option<int>) returns (judgmentUrls: seq<string>)
      requires driver != null ==> !driver.quit
      ensures judgmentUrls == SearchResults(driver, searchUrl, maxDocuments)
    {
      if driver == null {
        return [];
      }
      var page := driver.searchPages(searchUrl);
      if page.Unreachable? {
        return [];
      }
      var judgmentLinks := page.anchors;
      if maxDocuments.Some? && maxDocuments.value != 0 && |judgmentLinks| > maxDocuments.value {
        judgmentLinks := judgmentLinks[..SliceStop(|judgmentLinks|, maxDocuments.value)];
      }
      judgmentUrls := [];
      var i := 0;
      while i < |judgmentLinks|
        invariant 0 <= i <= |judgmentLinks|
        invariant judgmentLinks == Capped(page.anchors, maxDocuments)
        invariant Readable(judgmentLinks[..i])
        invariant judgmentUrls == Hrefs(judgmentLinks[..i])
      {
        var link := judgmentLinks[i];
        if link.Unreadable? {
          return [];
        }
        HrefsSnoc(judgmentLinks, i, judgmentUrls);
        if link.Href? && link.url != "" {
          judgmentUrls := judgmentUrls + [link.url];
        }
        i := i + 1;
      }
      assert judgmentLinks[..i] == judgmentLinks;
    }

    /** `close`: quits the browser if one was acquired, and only then. */
    method Close()
      modifies driver
      ensures driver == old(driver)
      ensures driver != null ==> driver.quit
    {
      if driver != null {
        driver.Quit();
      }
    }
  }
}
