/**
 * The headless browser as the scraper sees it. A `Driver` is a stand-in for
 * the Selenium session: what it renders for each address is fixed data, and
 * its one piece of mutable state is whether it has been quit.
 */
module Browser {

  /** How a browser step fails: Selenium's `TimeoutException`, or any other exception with its text. */
  datatype Fault = Timeout | Error(message: string)

  /** What `link.get_attribute('href')` gives for one result-title anchor. */
  datatype Anchor =
    | Href(url: string)        // the attribute's value (possibly "")
    | NoHref                   // the attribute is absent: None
    | Unreadable(cause: string) // reading it raised (a stale element, say)

  /** The search-results page after `driver.get`: its result-title anchors in page order, or a failed load. */
  datatype SearchPage = Rendered(anchors: seq<Anchor>) | Unreachable(fault: Fault)

  /** The `judgments` container of a document page: the text of its markup, or the failure finding or reading it. */
  datatype Container = Content(text: string) | Missing(fault: Fault)

  /** Navigating to a document: the load fails, or it lands on `currentUrl` with the container outcome. */
  datatype DocumentLoad = LoadFault(fault: Fault) | Landed(currentUrl: string, container: Container)

  class Driver {
    /** What the browser shows for each search address. */
    const searchPages: string -> SearchPage
    /** What the browser shows for each document address. */
    const documents: string -> DocumentLoad
    /** `driver.quit()` has been called. */
    var quit: bool

    constructor (searchPages: string -> SearchPage, documents: string -> DocumentLoad)
      ensures this.searchPages == searchPages && this.documents == documents
      ensures !quit
    {
      this.searchPages := searchPages;
      this.documents := documents;
      quit := false;
    }

    /** Ends the browser process. */
    method Quit()
      modifies this
      ensures quit
    {
      quit := true;
    }
  }

  /** The outcome of `setup_driver`: a running session, or the exception that prevented it. */
  datatype Launch = Launched(session: Driver) | LaunchFailed(message: string)
}
