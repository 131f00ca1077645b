/** The values the navigation engine of `middleware.ts` works with: the
    navigation model the server declares, the navigation and submit contexts,
    the fetched response, the committed entry and the browser effects the
    engine causes.

    A JavaScript string that may be `undefined`, `null` or empty is a `string`
    here, "" standing for all three: every use the engine makes of such a value
    is a truthiness test. */
module NavTypes {
  import opened Wrappers

  /** The identity of a page object the engine constructs (`new pageType.default(...)`). */
  type PageId = nat

  /** `NavigationModel.openGraph` */
  datatype OpenGraph = OpenGraph(
    ogType: string,
    title: string,
    image: string,
    url: string,
    siteName: string,
    description: string)

  /** Values of `NavigationModel.query` (`string | string[]`). */
  datatype QueryValue = Single(s: string) | Multiple(values: seq<string>)

  /** `NavigationModel`: the server-declared description of a page. */
  datatype NavigationModel = NavigationModel(
    pageType: string,             // page.type
    title: string,
    description: string,
    keywords: string,
    canonicalLink: string,
    openGraph: Option<OpenGraph>,
    bodyClass: string,
    validationToken: string,
    state: string,                // sent back in the `page-nav` request header
    query: map<string, QueryValue>,
    isAuthenticated: bool)

  /** `NavigationEntry`: the committed navigation. The `context` member of the
      source record is not kept. */
  datatype NavigationEntry = NavigationEntry(
    url: string,
    hash: string,
    model: NavigationModel,
    page: PageId)

  /** `context.source`; only "first" is ever tested. */
  datatype NavSource = First | Other

  /** The parts of `NavigateContext` the engine reads; `popstate` is
      `context.data.popstate`. */
  datatype NavContext = NavContext(
    url: string,
    hash: string,
    replace: bool,
    external: bool,
    source: NavSource,
    popstate: bool)

  /** The parts of `SubmitContext` the engine reads (the form itself is opaque). */
  datatype SubmitContext = SubmitContext(url: string, httpMethod: string)

  /** The outcome of parsing a response body (`insertAdjacentHTML` followed by
      `JSON.parse` of the `nav-data` script), which the model takes as given:
      the parsed model, `None` when the `nav-data` script is missing or its
      text is not a model, and whether the fragment holds a `page-content`
      element. */
  datatype Fragment = Fragment(navModel: Option<NavigationModel>, hasPageElement: bool)

  /** `AjaxResponse`: the status, the body type, the headers (names in lower
      case, `get` is a lookup and `has` a membership test), the raw body and
      its parse. */
  datatype Response = Response(
    status: int,
    kind: string,
    headers: map<string, string>,
    data: string,
    fragment: Fragment)

  /** What a response header set tells `__precessPageResponse` to do. */
  datatype PageAction =
    | NoAction                                   // neither header: returns false
    | ReloadPage                                 // page-action reset/reload
    | UnknownAction(action: string)              // page-action with another value: throws
    | HardRedirect(url: string, replace: bool)   // page-location with page-reload
    | SoftRedirect(url: string, replace: bool)   // page-location without page-reload

  /** How `navigate` classifies a fetched response (middleware.ts:161-191). */
  datatype ResponseClass =
    | StatusFallback                  // status != 200 and type != "html"
    | ReloadFallback                  // page-reload header
    | Handled(action: PageAction)     // __precessPageResponse returned true or threw
    | NotHtml                         // throws 'Nav response is not html.'
    | BadNavData                      // JSON.parse of a missing nav-data script throws
    | Content(model: NavigationModel, fragment: Fragment)

  /** The page implementation a page type name resolves to. */
  datatype PageDefinition = PageDefinition(implementation: string)
  datatype PageImpl = Registered(name: string, definition: PageDefinition) | GenericPage

  /** `WebsiteOptions`, with `None` for a property the object does not have. */
  datatype WebsiteOptions = WebsiteOptions(
    defaultPage: Option<string>,
    pages: Option<map<string, PageDefinition>>,
    components: Option<map<string, string>>,
    navMinTime: Option<int>,
    submitMinTime: Option<int>)

  /** Errors the engine throws. */
  datatype NavError =
    | DefaultPageNotRegistered        // constructor, :32
    | FirstNavDataNotFound            // :144
    | UnknownPageActionError          // :330
    | NavResponseNotHtml              // :176
    | NavDataUnreadable               // :185, JSON.parse of a missing script
    | NavNotSet                       // :363
    | PageDefinitionNotFound(name: string)  // :374
    | PageLoadFailed                  // the page factory rejected
    | PageElementNotFound             // :393, :400
    | PageConstructionFailed          // the page constructor threw
    | PageRenderFailed                // __render rejected
    | PageOutdated                    // :413
    | UnableToSubmit                  // :213
    | SubmitStatus(status: int)       // :243
    | SubmitNoHtml                    // :251

  /** How an async operation ends: normally or by throwing. */
  datatype Completion = Returned | Threw(error: NavError)

  /** Requests the engine sends through a request queue. */
  datatype Request =
    | NavRequest(url: string, sequence: nat, pageNav: string)
    | SubmitRequest(httpMethod: string, url: string, query: map<string, QueryValue>, pageNav: string)

  /** Observable effects on the browser, the pages and the application. */
  datatype Effect =
    | Assign(url: string)                       // location.assign
    | Replace(url: string)                      // location.replace
    | Reload                                    // location.reload
    | SoftNav(url: string, replace: bool)       // app.nav({ url, replace })
    | PushState(title: string, url: string)     // history.pushState
    | ReplaceState(title: string, url: string)  // history.replaceState
    | SetHash(hash: string)                     // location.hash = ...
    | ScrollTop                                 // window.scrollTo(0, 0)
    | Fetch(request: Request)                   // queue.enque
    | PageCreated(page: PageId, impl: PageImpl) // new pageType.default(app, nav)
    | PageRendered(page: PageId, hash: string)  // page.__render(elem, hash)
    | PageDestroyed(page: PageId)               // page.destroy()
    | PageHashChanged(page: PageId, newHash: string, oldHash: string)
    | PageSubmitted(page: PageId)               // page.__submitted(response)
    | ElementSwapped(oldPage: PageId, newPage: PageId)
    | CallNext                                  // await next()
}
