/**
 * The two fetchers of GoogleScholarSearcher (search_initial, search_details)
 * and what their futures complete with. The browser is a parameter: a
 * function from the address it is sent to, to what the page yields.
 */
module Fetchers {
  import opened Tables
  import opened Query
  import opened Citations

  /** How a future submitted to the pool completes: by raising, or with the fetcher's return value. */
  datatype Completion<T> = Raised | Returned(value: T)

  /**
   * What one task meets: whether `setup_driver` succeeds (it runs before the
   * `try`), what the browser yields for an address, and whether
   * `browser.quit()` in the `finally` clause succeeds.
   */
  datatype TaskEnv<!A, P> = TaskEnv(driverStarts: bool, browse: A -> P, quitSucceeds: bool)

  /** The search result page: the first result's href, or an exception anywhere in the lookup. */
  datatype SearchPage = FirstResult(href: Value) | LookupFailed

  /** The tuple search_initial returns: (id_value, name, organization, link_url). */
  datatype InitialOutcome = InitialOutcome(id: Value, name: Value, org: Value, link: Value)

  /** The citation history fragment: the year and count labels, or a parse exception. */
  datatype History = Spans(years: seq<string>, counts: seq<string>) | Unparsable

  /**
   * The profile page. `ProfileFailed` is an exception while loading it or
   * while locating the picture, profile or history containers. Within a
   * loaded page, `None` marks an absent element; the picture's `src` is a
   * value because the attribute may be None.
   */
  datatype ProfilePage =
    | ProfileFailed
    | Profile(img: Option<Value>, name: Option<string>, affiliation: Option<string>, history: History)

  /** The tuple search_details returns: (id_new, url, img_link, name, organization, citation_data). */
  datatype DetailsOutcome =
    DetailsOutcome(id: Value, url: Value, img: Value, name: Value, org: Value, citations: Value)

  /**
   * search_initial: look up the URL built from the name and organisation.
   * The id, name and organisation come back unchanged; the link is the first
   * result's href, or None when the lookup raised.
   */
  function SearchInitial(id: Value, name: Value, org: Value, browse: string -> SearchPage): (o: InitialOutcome)
    requires !name.Citations? && !org.Citations?
    ensures o.id == id && o.name == name && o.org == org
    ensures browse(SearchUrl(SearchQuery(Display(name), org))).LookupFailed? ==> o.link == Null
    ensures browse(SearchUrl(SearchQuery(Display(name), org))).FirstResult? ==>
              o.link == browse(SearchUrl(SearchQuery(Display(name), org))).href
  {
    var url := SearchUrl(SearchQuery(Display(name), org));
    match browse(url)
    case FirstResult(href) => InitialOutcome(id, name, org, href)
    case LookupFailed => InitialOutcome(id, name, org, Null)
  }

  /** An element's text, or '' when the element is absent. */
  function TextOrEmpty(e: Option<string>): Value {
    match e
    case Some(s) => Text(s)
    case None => Text("")
  }

  /**
   * search_details: load the profile at the url. A failed load returns the
   * id and url with the four other fields None; a loaded page never yields
   * None for the name, affiliation or citation data, and a history that
   * cannot be parsed yields the empty dict.
   */
  function SearchDetails(id: Value, url: Value, browse: Value -> ProfilePage): (o: DetailsOutcome)
    ensures o.id == id && o.url == url
    ensures browse(url).ProfileFailed? ==> o == DetailsOutcome(id, url, Null, Null, Null, Null)
    ensures browse(url).Profile? ==> o.name.Text? && o.org.Text? && o.citations.Citations?
    ensures browse(url).Profile? && browse(url).img.Some? ==> o.img == browse(url).img.value
    ensures browse(url).Profile? ==> o.name == TextOrEmpty(browse(url).name)
    ensures browse(url).Profile? ==> o.org == TextOrEmpty(browse(url).affiliation)
    ensures browse(url).Profile? && browse(url).img.None? ==> o.img == Text("")
    ensures browse(url).Profile? && browse(url).history.Unparsable? ==> o.citations == Citations(map[])
    ensures browse(url).Profile? && browse(url).history.Spans? ==>
              o.citations == Citations(ZipDict(browse(url).history.years, browse(url).history.counts))
  {
    match browse(url)
    case ProfileFailed => DetailsOutcome(id, url, Null, Null, Null, Null)
    case Profile(img, name, affiliation, history) =>
      var imgLink := match img case Some(src) => src case None => Text("");
      var citationData := match history
        case Spans(years, counts) => ZipDict(years, counts)
        case Unparsable => map[];
      DetailsOutcome(id, url, imgLink, TextOrEmpty(name), TextOrEmpty(affiliation), Citations(citationData))
  }

  /** A details outcome is a failure tuple exactly when its citation data is None. */
  lemma DetailsFailureShape(id: Value, url: Value, browse: Value -> ProfilePage)
    ensures SearchDetails(id, url, browse).citations == Null <==> browse(url).ProfileFailed?
  {
  }

  /**
   * The future of one search_initial task: it raises when the driver cannot
   * be set up or cannot quit, and otherwise returns the fetcher's tuple.
   */
  function InitialTask(id: Value, name: Value, org: Value, env: TaskEnv<string, SearchPage>): (c: Completion<InitialOutcome>)
    requires !name.Citations? && !org.Citations?
    ensures c.Returned? <==> env.driverStarts && env.quitSucceeds
    ensures c.Returned? ==> c.value == SearchInitial(id, name, org, env.browse)
  {
    if !env.driverStarts then Raised
    else
      var o := SearchInitial(id, name, org, env.browse);
      if env.quitSucceeds then Returned(o) else Raised
  }

  /** The future of one search_details task, raising under the same conditions. */
  function DetailsTask(id: Value, url: Value, env: TaskEnv<Value, ProfilePage>): (c: Completion<DetailsOutcome>)
    ensures c.Returned? <==> env.driverStarts && env.quitSucceeds
    ensures c.Returned? ==> c.value == SearchDetails(id, url, env.browse)
  {
    if !env.driverStarts then Raised
    else
      var o := SearchDetails(id, url, env.browse);
      if env.quitSucceeds then Returned(o) else Raised
  }
}
