# BrandUp.Website: navigation engine, page object and head embedding

This project models three parts of BrandUp.Website in Dafny and proves what they guarantee.

- **The client-side navigation engine** `WebsiteMiddlewareImpl` (`middleware.ts`). It handles `navigate` and `submit`:
  - it decides between a full browser navigation, a hash-only change, the first load from the `nav-data` script, and a fetched page;
  - it acts on the `page-action`, `page-location`, `page-replace` and `page-reload` response headers;
  - it resolves and loads the page type, destroys the old page, then constructs and renders the new one;
  - it commits the new entry: head tags, body class, history and title;
  - it drops work that a newer navigation has superseded, using the navigation sequence counter.
- **The page object** `Page` (`pages/base.ts`). It renders once and keeps the current hash. It asks the website for the scripts of its content, builds URL parameters, and collects destroy callbacks that it runs once when destroyed.
- **The server-side tag helper** `EmbeddingTagHelperComponent` (C#). For every application page it fills `<head>` with these lines, in order: charset, viewport, title, description, keywords, canonical, the OpenGraph properties and the start-up script. It also gives `<body>` the loading-state class.

Modules:

- `Wrappers`: `Option`.
- `Text`: ASCII case folding, as `toLowerCase`, `toUpperCase` and `OrdinalIgnoreCase` are used.
- `NavTypes`: the engine's data.
- `NavRules`: the pure decisions of the engine, with lemmas.
- `Middleware`: the engine as a class whose fields are the browser state.
- `Pages`: the page object as a class.
- `Embedding`: the tag helper. Each head line is a value of `HeadLine`, and `Render` gives its exact text.

Each `await` of the engine is a point where other navigations may begin. The model takes from an environment record what happens at that point:
- the response;
- whether the page type loads, constructs and renders;
- how many navigations began meanwhile.

Each navigation that begins advances the sequence counter, and that is all the model keeps of it. The engine's effects on the browser and on pages go into an effect log:
- history calls and full navigations;
- requests;
- page creation, rendering and destruction;
- the call of the next middleware.

Some behaviours are kept exactly as the code has them:
- A `navigate` response counts as a status failure only when its status is not 200 **and** its type is not `"html"`. An HTML error page is therefore examined and rendered like a successful one (`ErrorStatusHtmlProceeds`).
- On a same-document navigation, `current.hash` is overwritten before `__changedHash(context.hash, current.hash)` is called. The page is therefore told the new hash twice (`PageHashChanged(p, h, h)`).
- The constructor calls `Object.assign(options, DEFAULT_OPTIONS)`, so a property present in the defaults overrides the caller's (`AssignOptions`).
- The minimum and maximum scales of the viewport are both emitted with the label `initial-scale=` (`ViewportParams`).
- A page type that finishes loading after a newer navigation has begun makes `__renderPage` return quietly. `navigate` then still calls `next()`.
- A `page-location` header that comes with `page-reload` never causes a hard redirect in `navigate`. The `page-reload` test runs first, and the engine falls back to a full navigation to its own URL (`NavigateNeverRedirectsHard`).
- The server's head lines carry no `id` (EmbeddingTagHelperComponent.cs:58-74), but the client finds the tags it manages by `id` (`page-meta-description`, `og-type`, ...; middleware.ts:447, :522). The first client-side commit therefore most likely adds a second description, keywords, canonical or OpenGraph tag next to the server's, rather than updating it. The client also writes `property="type"` where the server writes `og:type`. The model keeps the two sides apart: `Head` holds only the tags the client manages, and `Init` takes its starting value as given.

## Model

| member | source | states |
|---|---|---|
| Text.Lower | npm/brandup-ui-website/source/middleware.ts:98-99 | same length; each character folded to lower case, letters A-Z only |
| Text.Upper | npm/brandup-ui-website/source/middleware.ts:216 | same length; each character folded to upper case, letters a-z only |
| Text.LowerOfLowerCase | src/BrandUp.Website/TagHelpers/EmbeddingTagHelperComponent.cs:33 | a string with no upper-case letter is its own lower-case form |
| NavRules.ForceNavEffect | npm/brandup-ui-website/source/middleware.ts:353-358 | the fallback is `location.replace(url)` iff the context asks to replace and is not external, else `location.assign(url)` |
| NavRules.SameDocument | npm/brandup-ui-website/source/middleware.ts:98 | a current entry whose URL equals the target ignoring case, where one of the two hashes is non-empty |
| NavRules.HashOnly | npm/brandup-ui-website/source/middleware.ts:99-101 | the same document, hashes that differ ignoring case, and not a popstate |
| NavRules.ExternalAlwaysAssigns | npm/brandup-ui-website/source/middleware.ts:354-357 | an external navigation always assigns, never replaces |
| NavRules.HashFragment | npm/brandup-ui-website/source/middleware.ts:104 | empty iff the hash is empty, else '#' followed by the hash |
| NavRules.HashOnlyChangesHash | npm/brandup-ui-website/source/middleware.ts:98-107 | a hash-only navigation changes the hash; clearing it needs a current hash |
| NavRules.SameHashIgnoringCaseIsNotHashOnly | npm/brandup-ui-website/source/middleware.ts:98-101 | hashes equal ignoring case never take the hash-only branch |
| NavRules.PageActionOf | npm/brandup-ui-website/source/middleware.ts:320-351 | no action iff neither `page-action` nor `page-location` has a value; `page-action` yields a reload or an unknown action |
| NavRules.ActionEffects | npm/brandup-ui-website/source/middleware.ts:320-351 | reload → `location.reload`; hard redirect → replace or assign by `page-replace`; soft redirect → `app.nav` with the replace flag; none or unknown → nothing |
| NavRules.ActionBeforeLocation | npm/brandup-ui-website/source/middleware.ts:321-331 | with `page-action` set, the location is ignored; "reset" and "reload" reload, any other value is unknown |
| NavRules.RedirectKinds | npm/brandup-ui-website/source/middleware.ts:334-348 | a location with `page-reload` leaves the hard way (replace iff `page-replace`); without it the app navigates softly |
| NavRules.ClassifyResponse | npm/brandup-ui-website/source/middleware.ts:161-191 | a status fallback iff status is not 200 and type is not html; content only for an html response whose parsed model it carries |
| NavRules.NavigateNeverRedirectsHard | npm/brandup-ui-website/source/middleware.ts:167-172 | `navigate` never performs a hard redirect; `page-reload` makes it fall back |
| NavRules.ErrorStatusHtmlProceeds | npm/brandup-ui-website/source/middleware.ts:161-186 | a non-200 html response with a model and no header action is content to render |
| NavRules.StatusAccepted | npm/brandup-ui-website/source/middleware.ts:238-244 | a submit answer passes the status gate iff its status is 200 or 201 |
| NavRules.AssignOptions | npm/brandup-ui-website/source/middleware.ts:29 | each property the source object has overwrites the target's; the others are kept |
| NavRules.OptionsAccepted | npm/brandup-ui-website/source/middleware.ts:31-32 | the constructor accepts the options iff no default page is set or it is registered |
| NavRules.ResolvePageType | npm/brandup-ui-website/source/middleware.ts:365-377 | a named type resolves iff registered; no type and no default page gives the generic page |
| NavRules.DefaultPageResolution | npm/brandup-ui-website/source/middleware.ts:31-32 | with accepted options, resolution fails iff the model names an unregistered type; the default page applies when it names none |
| NavRules.OgId | npm/brandup-ui-website/source/middleware.ts:522 | the tag id is "og-" followed by the property name |
| NavRules.UpsertResult | npm/brandup-ui-website/source/middleware.ts:521-531 | the tag is present iff the value is non-empty, with that value; every other tag is unchanged |
| NavRules.HeadTagsInOrder | npm/brandup-ui-website/source/middleware.ts:447-482 | applying the head tags is the nine upserts in the source's order |
| NavRules.ApplyTagsResult | npm/brandup-ui-website/source/middleware.ts:447-482 | after the upserts each listed tag is present iff its value is non-empty, with that value; every other tag is untouched |
| NavRules.ApplyTagsIdempotent | npm/brandup-ui-website/source/middleware.ts:447-482 | committing the same tags twice gives the head of committing once |
| NavRules.HeadTagIdsDistinct | npm/brandup-ui-website/source/middleware.ts:447-482 | the nine managed tags have distinct ids |
| NavRules.CommitHead | npm/brandup-ui-website/source/middleware.ts:446-482 | the head after a commit holds each managed tag iff the model's value is non-empty; repeating the commit changes nothing |
| NavRules.BodyClassesAfter | npm/brandup-ui-website/source/middleware.ts:484-488 | the new body class is present; the old one is gone unless it is the new one; other classes are unchanged |
| NavRules.HistoryEffects | npm/brandup-ui-website/source/middleware.ts:499-518 | no history effect on the first load or on popstate |
| NavRules.ReplaceHistory | npm/brandup-ui-website/source/middleware.ts:497-501 | the history entry is replaced iff the context asks for it, it is the first load, or the URL is the current one |
| NavRules.HistoryCases | npm/brandup-ui-website/source/middleware.ts:499-518 | push or replace only without a hash; a hash is set instead; scroll to top iff it is a push-style navigation; navigating to the current URL never pushes |
| NavRules.HideDelay | npm/brandup-ui-website/source/middleware.ts:582-585 | the delay is non-negative, keeps the bar visible at least 500 ms, and is 0 once 500 ms have passed |
| Middleware.StripFragment | npm/brandup-ui-website/source/middleware.ts:106 | a prefix of the URL with no '#'; the URL itself when it has none |
| Middleware.FetchRoute | npm/brandup-ui-website/source/middleware.ts:152-159 | the navigation is superseded iff another navigation began during the fetch |
| Middleware.ResponseRoute | npm/brandup-ui-website/source/middleware.ts:161-191 | renders iff the response is content and the authentication flag did not flip; a known header action is performed; everything else falls back |
| Middleware.WebsiteMiddleware.Init | npm/brandup-ui-website/source/middleware.ts:20-40 | a fresh engine: counter 0, no current entry, no effects, no live page |
| Middleware.WebsiteMiddleware.Create | npm/brandup-ui-website/source/middleware.ts:28-32 | the defaults are assigned over the options; it throws iff the default page is set and not registered |
| Middleware.WebsiteMiddleware.IncNavSequence | npm/brandup-ui-website/source/middleware.ts:541-547 | a fresh id, one above the last; every earlier id is now outdated |
| Middleware.WebsiteMiddleware.IsNavOutdated | npm/brandup-ui-website/source/middleware.ts:545-547 | a navigation is outdated iff another one took a sequence id after it |
| Middleware.WebsiteMiddleware.Suspend | npm/brandup-ui-website/source/middleware.ts:152-158 | the navigations begun during an await advance the counter |
| Middleware.WebsiteMiddleware.ForceNav | npm/brandup-ui-website/source/middleware.ts:353-358 | appends the fallback navigation |
| Middleware.WebsiteMiddleware.PrecessPageResponse | npm/brandup-ui-website/source/middleware.ts:320-351 | returns true iff the headers carry an action; throws on an unknown action; performs the action's effects |
| Middleware.WebsiteMiddleware.SetOpenGraphProperty | npm/brandup-ui-website/source/middleware.ts:521-531 | upserts the `og-` tag |
| Middleware.WebsiteMiddleware.SetHeadTag | npm/brandup-ui-website/source/middleware.ts:447-475 | upserts one meta or link tag |
| Middleware.WebsiteMiddleware.UpdateHead | npm/brandup-ui-website/source/middleware.ts:447-482 | the head becomes the model's tags applied in order |
| Middleware.WebsiteMiddleware.UpdateBodyClass | npm/brandup-ui-website/source/middleware.ts:484-488 | the body classes become `BodyClassesAfter` |
| Middleware.WebsiteMiddleware.UpdateHistory | npm/brandup-ui-website/source/middleware.ts:499-518 | appends the history effects; title and URL change except on the first load or popstate |
| Middleware.WebsiteMiddleware.SetNavigation | npm/brandup-ui-website/source/middleware.ts:439-519 | outside the first load, head and body class follow the model; the entry becomes current; then the history step |
| Middleware.WebsiteMiddleware.DestroyPage | npm/brandup-ui-website/source/middleware.ts:404-405 | the page is no longer live and its destruction is logged |
| Middleware.WebsiteMiddleware.CreatePage | npm/brandup-ui-website/source/middleware.ts:409 | a fresh page identity becomes live and its creation is logged |
| Middleware.WebsiteMiddleware.LoadPageType | npm/brandup-ui-website/source/middleware.ts:361-382 | throws without a model, on an unregistered type or when loading fails; a page type is returned iff it loaded and the navigation is still current, and it is the resolved one |
| Middleware.WebsiteMiddleware.MountPage | npm/brandup-ui-website/source/middleware.ts:384-414 | mounts iff the element exists and the page constructs and renders in time; the old page is destroyed first; a stale render destroys the new page and throws |
| Middleware.WebsiteMiddleware.CommitPage | npm/brandup-ui-website/source/middleware.ts:416-434 | a new model commits the entry; a submit keeps the model and takes the page; the element swap comes after the commit |
| Middleware.WebsiteMiddleware.RenderPage | npm/brandup-ui-website/source/middleware.ts:360-437 | throws without a model or on an unregistered type; returns quietly when outdated after loading; on success exactly one live page and the full effect sequence; on failure nothing committed |
| Middleware.WebsiteMiddleware.RenderAndContinue | npm/brandup-ui-website/source/middleware.ts:194-205 | a page that mounts is committed and `next` runs; per `RenderOutcome`: one that does not changes nothing committed, logs only page lifecycle effects (no history step, no element swap) followed at most by `next` or the fallback navigation, and, unless first or outdated, ends in the fallback navigation |
| Middleware.WebsiteMiddleware.ExamineResponse | npm/brandup-ui-website/source/middleware.ts:161-191 | per route: fallback navigation, header action, or the model to render with no effect |
| Middleware.WebsiteMiddleware.NavigateFetch | npm/brandup-ui-website/source/middleware.ts:150-205 | the request comes first; superseded stops; then the fallback navigation or the header action, changing nothing committed; a page that mounts yields the exact effects (fetch, destroy the old page, create and render the new one, history step, element swap, next) and the new entry, head, body class, title and URL; one that does not commits nothing, logs only page lifecycle effects after the request followed at most by `next` or the fallback navigation, and, unless outdated, ends in the fallback navigation |
| Middleware.WebsiteMiddleware.NavigateHash | npm/brandup-ui-website/source/middleware.ts:98-131 | hash-only sets `location.hash` only; otherwise the entry takes the new hash, the page is told, and `next` runs |
| Middleware.WebsiteMiddleware.NavigateFirst | npm/brandup-ui-website/source/middleware.ts:139-205 | a missing `nav-data` throws and changes nothing; a page that mounts becomes current with the exact effects (destroy, create, render, next); one that does not commits nothing, logs only page lifecycle effects followed at most by `next`, and, unless outdated, is rethrown; head, body class, title and URL untouched |
| Middleware.WebsiteMiddleware.Navigate | npm/brandup-ui-website/source/middleware.ts:83-209 | per branch (external, hash-only, same document, first load, fetched): the exact effects and the new committed state; it throws only on the first load or when outdated |
| Middleware.WebsiteMiddleware.CopyQuery | npm/brandup-ui-website/source/middleware.ts:225-227 | the copy equals the model's query |
| Middleware.WebsiteMiddleware.SubmitAnswer | npm/brandup-ui-website/source/middleware.ts:236-264 | per `AnswerOutcome`: a status other than 200/201 throws; a header action is performed; an empty HTML answer throws; an HTML answer re-renders the page under the same model, and a render that does not mount logs only page lifecycle effects followed at most by `next`; any other answer goes to the page; nothing else committed changes |
| Middleware.WebsiteMiddleware.SubmitRender | npm/brandup-ui-website/source/middleware.ts:249-264 | when the page mounts, the current page is replaced by a fresh one under the same model and `next` runs; otherwise nothing committed changes, only page lifecycle effects followed at most by `next` are logged, and a current navigation throws |
| Middleware.WebsiteMiddleware.Submit | npm/brandup-ui-website/source/middleware.ts:211-269 | throws without a current entry; otherwise per `SubmitOutcome`: superseded, status gate 200/201, header action, empty html, html re-render keeping the model, or hand-off to the page |
| Pages.RequestedExactly | src/brandup-ui-website/source/pages/base.ts:103-111 | an element is asked for iff it is not marked as a widget and its script is known |
| Pages.WidgetEvents | src/brandup-ui-website/source/pages/base.ts:131-132 | one destroy per mounted widget, in order |
| Pages.CallbackEvents | src/brandup-ui-website/source/pages/base.ts:136-137 | one run per callback, in registration order |
| Pages.DestroyRunsEachCallbackOnce | src/brandup-ui-website/source/pages/base.ts:130-144 | callback i runs at its position after the widgets; a second destroy runs none |
| Pages.PreRequest | src/brandup-ui-website/source/pages/base.ts:22-28 | the token is added under the header name iff antiforgery is set and the method is non-empty and not GET; other headers are kept |
| Pages.RequestEvents | src/brandup-ui-website/source/pages/base.ts:110 | one script request per element asked for, in order |
| Pages.RequestEventsAppend | src/brandup-ui-website/source/pages/base.ts:104-120 | one more element adds one request at the end |
| Pages.Page.constructor | src/brandup-ui-website/source/pages/base.ts:9-30 | empty callback and widget lists, not rendered, null hash |
| Pages.Page.Render | src/brandup-ui-website/source/pages/base.ts:41-73 | only the first call acts: it sets the hash, requests the scripts and runs the render hook; later calls change nothing |
| Pages.Page.ChangedHash | src/brandup-ui-website/source/pages/base.ts:74-78 | the hash becomes the new one and the hook runs with both hashes |
| Pages.Page.Submit | src/brandup-ui-website/source/pages/base.ts:79-87 | submits the given form, else the document's, else throws without submitting |
| Pages.Page.BuildParams | src/brandup-ui-website/source/pages/base.ts:88-101 | the navigation query, overridden key by key by the given parameters |
| Pages.Page.RefreshScripts | src/brandup-ui-website/source/pages/base.ts:102-121 | pending and log grow by exactly the elements `Requested` selects |
| Pages.Page.ResolveScript | src/brandup-ui-website/source/pages/base.ts:110-118 | the resolved request leaves `pending`; the widget built on its element is mounted unless the page was destroyed |
| Pages.Page.AttachDestroyFunc | src/brandup-ui-website/source/pages/base.ts:123-125 | appends the callback iff the list is still there |
| Pages.Page.AttachDestroyElement | src/brandup-ui-website/source/pages/base.ts:126-128 | appends a callback destroying the element iff the list is still there |
| Pages.Page.DestroyWidgets | src/brandup-ui-website/source/pages/base.ts:131-134 | the log gains one destroy per widget, in order |
| Pages.Page.RunCallbacks | src/brandup-ui-website/source/pages/base.ts:136-139 | the log gains one entry per callback, in order |
| Pages.Page.Destroy | src/brandup-ui-website/source/pages/base.ts:130-144 | both lists nulled; the log gains the widget destroys, the callbacks in order, then queue and element |
| Embedding.BaseUrl | src/BrandUp.Website/TagHelpers/EmbeddingTagHelperComponent.cs:111 | the path base when it has a value, else "/" |
| Embedding.ClientModel | src/BrandUp.Website/TagHelpers/EmbeddingTagHelperComponent.cs:104-125 | antiforgery is set iff the service exists, from its tokens |
| Embedding.BodyClass | src/BrandUp.Website/TagHelpers/EmbeddingTagHelperComponent.cs:85-95 | existing classes, then the loading class, then the page class, space-separated, each only when present |
| Embedding.BodyClassHasLoading | src/BrandUp.Website/TagHelpers/EmbeddingTagHelperComponent.cs:89-92 | the loading class always occurs as a whole word |
| Embedding.Render | src/BrandUp.Website/TagHelpers/EmbeddingTagHelperComponent.cs:37-79 | every line starts with the four-space indent and ends with the newline |
| Embedding.ViewportParams | src/BrandUp.Website/TagHelpers/EmbeddingTagHelperComponent.cs:40-48 | width and initial scale, then min and max scale when set, each labelled `initial-scale=` |
| Embedding.Join | src/BrandUp.Website/TagHelpers/EmbeddingTagHelperComponent.cs:50 | empty for no items, the item for one |
| Embedding.JoinShape | src/BrandUp.Website/TagHelpers/EmbeddingTagHelperComponent.cs:50 | the join starts with the first item; its length is the items' lengths plus the separators |
| Embedding.ViewportLines | src/BrandUp.Website/TagHelpers/EmbeddingTagHelperComponent.cs:38-51 | one viewport line iff adaptivity is configured and enabled |
| Embedding.MetaLines | src/BrandUp.Website/TagHelpers/EmbeddingTagHelperComponent.cs:57-64 | description, keywords and canonical, in that order, each iff non-empty |
| Embedding.MetaLinesPresence | src/BrandUp.Website/TagHelpers/EmbeddingTagHelperComponent.cs:57-64 | each line is present iff its value is non-empty |
| Embedding.OgLines | src/BrandUp.Website/TagHelpers/EmbeddingTagHelperComponent.cs:66-75 | nothing without OpenGraph; type, image, title, url, then description iff not null |
| Embedding.OgLinesSelfClosing | src/BrandUp.Website/TagHelpers/EmbeddingTagHelperComponent.cs:69-74 | only the description line is self-closing |
| Embedding.HeadLayout | src/BrandUp.Website/TagHelpers/EmbeddingTagHelperComponent.cs:37-79 | charset first, then viewport, always the title, the meta lines, the OpenGraph lines, and the script last |
| Embedding.HeadIsNotBody | src/BrandUp.Website/TagHelpers/EmbeddingTagHelperComponent.cs:33-83 | no tag name is both "head" and "body" ignoring case |
| Embedding.TagHelperOutput.constructor | src/BrandUp.Website/TagHelpers/EmbeddingTagHelperComponent.cs:29 | empty post-content, the given attributes |
| Embedding.AppendViewport | src/BrandUp.Website/TagHelpers/EmbeddingTagHelperComponent.cs:38-51 | appends `ViewportLines` |
| Embedding.AppendMeta | src/BrandUp.Website/TagHelpers/EmbeddingTagHelperComponent.cs:57-64 | appends `MetaLines` |
| Embedding.AppendOpenGraph | src/BrandUp.Website/TagHelpers/EmbeddingTagHelperComponent.cs:66-75 | appends `OgLines` |
| Embedding.AppendHead | src/BrandUp.Website/TagHelpers/EmbeddingTagHelperComponent.cs:35-79 | appends exactly `HeadLines` |
| Embedding.SetBodyClass | src/BrandUp.Website/TagHelpers/EmbeddingTagHelperComponent.cs:85-97 | sets `class` to `BodyClass` of the existing value |
| Embedding.ProcessAsync | src/BrandUp.Website/TagHelpers/EmbeddingTagHelperComponent.cs:29-102 | for an application page, `<head>` gets the head lines and `<body>` the class; anything else is left alone |

## Left out

- Progress bar (`__showNavigationProgress`, `__hideNavigationProgress`): timers, widths and CSS classes are not modelled. Only the delay computation (`HideDelay`) is, because timers and the DOM have no counterpart here.
- `FuncHelper.minWaitAsync`, `navMinTime` and `submitMinTime`: minimum waits are timing only.
- Network I/O: the request queue is a `Fetch` effect. `queue.reset(true)` and `current.page.queue.reset(true)` (cancelling requests in flight) are not modelled; a superseded request shows only through the sequence counter.
- HTML and JSON parsing of a response (`insertAdjacentHTML`, `JSON.parse` of `nav-data`): taken as an opaque `Fragment` with the parsed model and whether a `page-content` element exists.
- `ScriptHelper` (preloading definitions, `scriptReplace`) and lazy script loading: a page type loads or fails as the environment says.
- `start` (DOM listeners, the loader element, `__prepareRequest` adding the antiforgery header), `stop`, `__onPopState`, `renderComponents`, `findComponent` and `prepareRequest`: DOM wiring or lookups into code outside this model. A popstate reaches `navigate` as `NavContext.popstate`.
- The `__queue` initialisation check at the top of `navigate`: the queue always exists after the constructor.
- Console logging.
- Page methods called by the engine (`__render`, `__changedHash`, `__submitted`, `destroy`): effects in the engine's log. Only the failure of `__render` (and of the page constructor) is modelled; `__changedHash`, `__submitted` and `destroy` are taken never to throw. `pages/base.ts` is an older page API with `render`/`changedHash`, and is modelled separately as `Pages.Page`.
- `Pages.Page.BuildParams`: returns the parameters only; `website.app.uri(path, params)` is not part of this model.
- `Pages.Page.Render`: the submit, invalid and change listeners it installs are not modelled.
- The document lookup `DOM.getElementByName("form")` of `Page.submit` is a parameter of `Pages.Page.Submit`.
- Tag helper: `websiteEvents` hooks (`RenderPageTitle`, `RenderHeadTag`, `RenderBodyTag`, `StartAsync`), `jsonHelper.Serialize`, dependency injection and `IAntiforgery.GetAndStoreTokens` are not part of this model. The rendered title, the serialized client model and the antiforgery tokens are parameters; `Environment.NewLine` is a parameter of `Render`.
- `Embedding.ClientModel`: the `Data` and `Nav` members of the client model come from code outside this model.
- `OpenGraphProperties` is not part of this model: its constants are taken to be "type", "image", "title", "url" and "description".
- Text.Lower: folds ASCII letters only, not the full Unicode case mapping of `toLowerCase` or `OrdinalIgnoreCase`.
- TagHelper attribute names are looked up case-sensitively here; ASP.NET compares them ignoring case.
- Response header names are taken as already lower case (`Headers.get`/`has` ignore case).
- JavaScript `undefined`, `null` and `""` are one value, `""`, wherever the code only tests truthiness.
- NavRules.BodyClassesAfter: a body class containing whitespace (the server emits `CssClass` as free text) makes `classList.remove`/`classList.add` throw `InvalidCharacterError` in the source. The throw comes after the head tags were written and before the entry is committed; the new page is then destroyed and `navigate` falls back to a full navigation. The model treats the whole string as one class and commits.
- Middleware.WebsiteMiddleware.UpdateBodyClass: does not model the `classList` throw on a class containing whitespace, for the reason given for `NavRules.BodyClassesAfter`. Modelling it would leave the head written on a failed commit, which the render path does not carry.
- Middleware.WebsiteMiddleware.RenderAndContinue: `next()` (middleware.ts:196) is taken never to throw. In the source, a rejection of the next middleware after a successful commit, in a navigation that is neither the first load nor outdated, reaches the catch at :198-201 and becomes `__forceNav(context)`: a full navigation after the page was already committed. On the first load or once outdated it is rethrown.
- Middleware.WebsiteMiddleware.NavigateFetch: `next()` is taken never to throw, as for `RenderAndContinue`.
- Middleware.WebsiteMiddleware.NavigateFirst: `next()` is taken never to throw; in the source its rejection on the first load is rethrown.
- Middleware.WebsiteMiddleware.NavigateHash: `next()` (middleware.ts:124) is taken never to throw; in the source its rejection propagates out of `navigate`.
- Middleware.WebsiteMiddleware.Navigate: `next()` is taken never to throw, in every branch; see `RenderAndContinue` and `NavigateHash` for what the source does instead.
- Middleware.WebsiteMiddleware.SubmitRender: `next()` (middleware.ts:264) is taken never to throw; in the source its rejection propagates out of `submit`.
- Middleware.WebsiteMiddleware.SubmitAnswer: `next()` and `__submitted` are taken never to throw; in the source their rejection propagates out of `submit`.
- Middleware.WebsiteMiddleware.Submit: `next()` is taken never to throw, as for `SubmitAnswer`.
- Middleware.WebsiteMiddleware.RenderPage: a navigation that begins while the page is suspended has no effect other than advancing the counter; the interleaving of its own effects is not modelled.
- The example site's `city.ts` middleware and the `BotRequestTest` integration test are callers and tests outside the modelled core.
