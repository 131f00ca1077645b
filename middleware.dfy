/** The navigation engine `WebsiteMiddlewareImpl` of `middleware.ts`.

    The browser is the state of the engine object: `location.href`,
    `document.title`, the managed head tags, the body class list and a log of
    the effects that cannot be undone (history calls, full navigations, page
    lifecycle calls, requests).

    `navigate` and `submit` are asynchronous: at each `await` other navigations
    may begin. The model takes what happens at those points from an environment
    record: the response, whether the page implementation loads, constructs and
    renders, and how many other navigations began meanwhile. A navigation that
    begins advances the sequence counter; that is all the model keeps of it. */
module Middleware {
  import opened Wrappers
  import opened Text
  import opened NavTypes
  import opened NavRules

  /** What happens while `__renderPage` is suspended. */
  datatype RenderEnv = RenderEnv(
    loads: bool,                    // pageDefinition.factory() resolves
    racesDuringLoad: nat,           // navigations begun while it was pending
    constructs: bool,               // new pageType.default(app, nav) returns
    renders: bool,                  // page.__render(elem, hash) resolves
    racesDuringRender: nat,         // navigations begun while it was pending
    documentHasPageElement: bool)   // document.getElementById("page-content")

  /** What happens while `navigate` is suspended. */
  datatype NavEnv = NavEnv(
    firstPayload: Option<NavigationModel>,  // the parsed nav-data script of the document
    response: Response,                     // the answer to the page request
    racesDuringFetch: nat,                  // navigations begun while it was pending
    render: RenderEnv)

  /** What happens while `submit` is suspended. */
  datatype SubmitEnv = SubmitEnv(
    response: Response,
    racesDuringFetch: nat,
    render: RenderEnv)

  /** The page the committed entry holds, as a set. */
  function PageOf(current: Option<NavigationEntry>): set<PageId> {
    if current.Some? then {current.value.page} else {}
  }

  /** `current?.page.destroy()` */
  function RetireEffects(current: Option<NavigationEntry>): seq<Effect> {
    if current.Some? then [PageDestroyed(current.value.page)] else []
  }

  /** The model `__renderPage` renders: the new one, else the current one's. */
  function NavOf(newNav: Option<NavigationModel>, current: Option<NavigationEntry>): Option<NavigationModel> {
    if newNav.Some? then newNav else if current.Some? then Some(current.value.model) else None
  }

  /** `current?.hash`, the hash the new page is rendered with. */
  function HashOf(current: Option<NavigationEntry>): string {
    if current.Some? then current.value.hash else ""
  }

  /** `url` up to its first '#'. */
  function StripFragment(url: string): (r: string)
    ensures '#' !in r
    ensures r <= url
    ensures '#' !in url ==> r == url
  {
    if url == [] then []
    else if url[0] == '#' then []
    else [url[0]] + StripFragment(url[1..])
  }

  /** `location.href` after `location.hash = x`: the fragment becomes `x`
      without its leading '#'. */
  function WithFragment(url: string, fragment: string): string {
    StripFragment(url) + "#" + fragment
  }

  /** `document.title` after a commit: the model's title, except on the first
      load and on `popstate`, which leave it alone. */
  function TitleAfter(ctx: NavContext, title: string, newTitle: string): string {
    if ctx.source == First || ctx.popstate then title else newTitle
  }

  /** `location.href` after the history step of a commit: the URL pushed or
      replaced, or the old one with the new fragment when there is a hash. */
  function HrefAfter(ctx: NavContext, href: string): string {
    if ctx.source == First || ctx.popstate then href
    else if ctx.hash == "" then ctx.url
    else WithFragment(href, ctx.hash)
  }

  /** The outcome of `page.__render` and the check after it. */
  predicate RenderSucceeds(env: RenderEnv) {
    env.loads && env.racesDuringLoad == 0 && env.constructs && env.renders && env.racesDuringRender == 0
  }

  /** `current?.model.state || ""`, sent back in the `page-nav` header. */
  function StateOf(current: Option<NavigationEntry>): string {
    if current.Some? then current.value.model.state else ""
  }

  /** Where a navigation that fetched its page goes (middleware.ts:158-192). */
  datatype NavRoute =
    | Superseded                        // a newer navigation began during the fetch
    | FetchFallback                     // the fetched response ends in `__forceNav`
    | FetchAction(action: PageAction)   // `__precessPageResponse` acted on the headers
    | Render(model: NavigationModel, content: Option<Fragment>)

  /** The route of a navigation that fetched its page (middleware.ts:152-192). */
  function FetchRoute(current: Option<NavigationEntry>, env: NavEnv): (route: NavRoute)
    ensures route.Superseded? <==> env.racesDuringFetch > 0
  {
    if env.racesDuringFetch > 0 then Superseded else ResponseRoute(current, env.response)
  }

  /** What `navigate` does with a response that arrived in time
      (middleware.ts:161-191). */
  function ResponseRoute(current: Option<NavigationEntry>, response: Response): (route: NavRoute)
    ensures route.FetchFallback? || route.FetchAction? || route.Render?
    ensures route.Render? ==>
              && ClassifyResponse(response) == Content(route.model, response.fragment)
              && route.content == Some(response.fragment)
              && !AuthFlipped(current, route.model)
    ensures route.FetchAction? ==> route.action.ReloadPage? || route.action.SoftRedirect?
    ensures ClassifyResponse(response).Content? && !AuthFlipped(current, ClassifyResponse(response).model) ==> route.Render?
    ensures ClassifyResponse(response).Handled? && !ClassifyResponse(response).action.UnknownAction? ==>
              route == FetchAction(ClassifyResponse(response).action)
  {
    match ClassifyResponse(response)
    case Handled(a) => if a.UnknownAction? then FetchFallback else (NavigateNeverRedirectsHard(response); FetchAction(a))
    case Content(m, f) => if AuthFlipped(current, m) then FetchFallback else Render(m, Some(f))
    case _ => FetchFallback
  }

  /** The page can be rendered and committed: its type resolves, it loads,
      constructs and renders with no navigation beginning meanwhile, and the
      page element is there. */
  predicate Mounts(options: WebsiteOptions, model: NavigationModel, content: Option<Fragment>, env: RenderEnv) {
    && ResolvePageType(model.pageType, options).Resolved?
    && RenderSucceeds(env)
    && (if content.Some? then content.value.hasPageElement else env.documentHasPageElement)
  }

  /** Effects of the page lifecycle only. */
  predicate LifecycleOnly(es: seq<Effect>) {
    forall e :: e in es ==> e.PageDestroyed? || e.PageCreated? || e.PageRendered?
  }

  /** The effects of a render that was discarded: page lifecycle effects
      only, then at most one effect out of `last` (the hand-off to the next
      middleware, or the fallback navigation). No history step, no element
      swap. */
  predicate Discarded(es: seq<Effect>, last: set<Effect>) {
    LifecycleOnly(es) || (|es| > 0 && LifecycleOnly(es[..|es| - 1]) && es[|es| - 1] in last)
  }

  /** Lifecycle effects followed by one effect out of `last` were discarded. */
  lemma DiscardedStep(base: seq<Effect>, es: seq<Effect>, x: Effect, last: set<Effect>)
    requires |base| <= |es| && LifecycleOnly(es[|base|..]) && x in last
    ensures Discarded((es + [x])[|base|..], last)
  {
    assert (es + [x])[|base|..][..|es| - |base|] == es[|base|..];
  }

  /** What a navigation may change, as it stood at some moment. */
  datatype Snapshot = Snapshot(current: Option<NavigationEntry>, href: string, title: string, head: Head,
                               bodyClasses: set<string>, effects: seq<Effect>, livePages: set<PageId>,
                               nextPageId: PageId)

  class WebsiteMiddleware {
    const options: WebsiteOptions
    /** `!!window.history && !!window.history.pushState` */
    const allowHistory: bool

    var navCounter: nat
    var current: Option<NavigationEntry>
    var href: string
    var title: string
    var head: Head
    var bodyClasses: set<string>
    var effects: seq<Effect>
    /** The pages constructed and not yet destroyed. */
    var livePages: set<PageId>
    var nextPageId: PageId

    /** The options passed the constructor check, and no page is alive but the
        one the current entry holds. */
    ghost predicate Valid()
      reads this
    {
      && OptionsAccepted(options)
      && livePages <= PageOf(current)
      && (current.Some? ==> current.value.page < nextPageId)
    }

    /** Nothing a navigation commits has changed. */
    twostate predicate CommitUnchanged()
      reads this
    {
      && current == old(current)
      && href == old(href)
      && title == old(title)
      && head == old(head)
      && bodyClasses == old(bodyClasses)
      && livePages == old(livePages)
      && nextPageId == old(nextPageId)
    }

    /** The state a navigation may change, everything but the counter. */
    ghost function Snap(): (s: Snapshot)
      reads this`current, this`href, this`title, this`head, this`bodyClasses, this`effects,
            this`livePages, this`nextPageId
      ensures s.current == current && s.effects == effects && s.livePages == livePages && s.nextPageId == nextPageId
      ensures s.href == href && s.title == title && s.head == head && s.bodyClasses == bodyClasses
    {
      Snapshot(current, href, title, head, bodyClasses, effects, livePages, nextPageId)
    }

    /** Nothing a navigation commits differs from `s`. */
    ghost predicate Unchanged(s: Snapshot)
      reads this
    {
      && current == s.current
      && href == s.href
      && title == s.title
      && head == s.head
      && bodyClasses == s.bodyClasses
      && livePages == s.livePages
      && nextPageId == s.nextPageId
    }

    constructor Init(options: WebsiteOptions, allowHistory: bool, href: string, title: string, head: Head, bodyClasses: set<string>)
      requires OptionsAccepted(options)
      ensures Valid()
      ensures this.options == options && this.allowHistory == allowHistory
      ensures navCounter == 0 && current == None && effects == [] && livePages == {}
      ensures this.href == href && this.title == title && this.head == head && this.bodyClasses == bodyClasses
    {
      this.options := options;
      this.allowHistory := allowHistory;
      this.href := href;
      this.title := title;
      this.head := head;
      this.bodyClasses := bodyClasses;
      navCounter := 0;
      current := None;
      effects := [];
      livePages := {};
      nextPageId := 0;
    }

    /** `new WebsiteMiddlewareImpl(options)`: the defaults are assigned over the
        caller's options, and a default page type that is not registered makes
        the constructor throw. */
    static method Create(options: WebsiteOptions, defaults: WebsiteOptions, allowHistory: bool,
                         href: string, title: string, head: Head, bodyClasses: set<string>)
      returns (m: WebsiteMiddleware?, err: Option<NavError>)
      ensures var merged := AssignOptions(options, defaults);
              && (OptionsAccepted(merged) ==> err == None && m != null && fresh(m) && m.Valid() && m.options == merged
                                              && m.navCounter == 0 && m.current == None && m.effects == [])
              && (!OptionsAccepted(merged) ==> err == Some(DefaultPageNotRegistered) && m == null)
    {
      var merged := AssignOptions(options, defaults);
      var defaultPage := if merged.defaultPage.Some? then merged.defaultPage.value else "";
      if defaultPage != "" && (merged.pages.None? || defaultPage !in merged.pages.value) {
        return null, Some(DefaultPageNotRegistered);
      }
      m := new WebsiteMiddleware.Init(merged, allowHistory, href, title, head, bodyClasses);
      err := None;
    }

    // -------------------------------------------------------------------------
    // Sequencing (middleware.ts:541-547)

    /** `__isNavOutdated(navSequence)` */
    predicate IsNavOutdated(navSequence: nat)
      reads this
    {
      navCounter != navSequence
    }

    /** `__incNavSequence()`: a fresh id, greater than every id issued before;
        every earlier id is now outdated. */
    method IncNavSequence() returns (navSequence: nat)
      modifies this`navCounter
      ensures navSequence == old(navCounter) + 1 && navCounter == navSequence
      ensures forall s: nat :: s <= old(navCounter) ==> IsNavOutdated(s)
      ensures !IsNavOutdated(navSequence)
    {
      navCounter := navCounter + 1;
      navSequence := navCounter;
    }

    /** An `await` during which `races` other navigations began. */
    method Suspend(races: nat)
      modifies this`navCounter
      ensures navCounter == old(navCounter) + races
    {
      navCounter := navCounter + races;
    }

    // -------------------------------------------------------------------------
    // Browser effects

    /** `__forceNav(context)` (middleware.ts:353-358) */
    method ForceNav(ctx: NavContext)
      modifies this`effects
      ensures effects == old(effects) + [ForceNavEffect(ctx)]
    {
      if ctx.replace && !ctx.external {
        effects := effects + [Replace(ctx.url)];
      } else {
        effects := effects + [Assign(ctx.url)];
      }
    }

    /** `__precessPageResponse(context, response)` (middleware.ts:320-351):
        returns true when the headers asked for an action or a redirect, which
        it has performed; an unknown action throws. */
    method PrecessPageResponse(response: Response) returns (handled: bool, r: Completion)
      modifies this`effects
      ensures handled <==> PageActionOf(response.headers) != NoAction
      ensures r == (if PageActionOf(response.headers).UnknownAction? then Threw(UnknownPageActionError) else Returned)
      ensures effects == old(effects) + ActionEffects(PageActionOf(response.headers))
    {
      var headers := response.headers;
      if PageActionHeader in headers && headers[PageActionHeader] != "" {
        var pageAction := headers[PageActionHeader];
        if pageAction == "reset" || pageAction == "reload" {
          effects := effects + [Reload];
          return true, Returned;
        }
        return true, Threw(UnknownPageActionError);
      }
      if PageLocationHeader in headers && headers[PageLocationHeader] != "" {
        var redirectUrl := headers[PageLocationHeader];
        var replace := PageReplaceHeader in headers;
        if PageReloadHeader in headers {
          if replace {
            effects := effects + [Replace(redirectUrl)];
          } else {
            effects := effects + [Assign(redirectUrl)];
          }
        } else {
          effects := effects + [SoftNav(redirectUrl, replace)];
        }
        return true, Returned;
      }
      return false, Returned;
    }

    /** `__setOpenGraphProperty(name, value)` (middleware.ts:521-531) */
    method SetOpenGraphProperty(name: string, value: string)
      modifies this`head
      ensures head == Upsert(old(head), OgId(name), value)
    {
      var id := "og-" + name;
      if value != "" {
        head := head[id := value];
      } else if id in head {
        head := head - {id};
      }
    }

    /** One meta or link tag of `__setNavigation`: created when missing and the
        value is non-empty, updated, or removed when the value is empty. */
    method SetHeadTag(id: string, value: string)
      modifies this`head
      ensures head == Upsert(old(head), id, value)
    {
      if value != "" {
        head := head[id := value];
      } else if id in head {
        head := head - {id};
      }
    }

    /** The meta, link and OpenGraph tags of `__setNavigation`
        (middleware.ts:447-482), in the order the source applies them. */
    method UpdateHead(newNav: NavigationModel)
      modifies this`head
      ensures head == ApplyTags(old(head), HeadTags(newNav))
    {
      ghost var h0 := head;
      SetHeadTag(DescriptionId, newNav.description);
      SetHeadTag(KeywordsId, newNav.keywords);
      SetHeadTag(CanonicalId, newNav.canonicalLink);
      var og := OgOf(newNav);
      SetOpenGraphProperty("type", og.ogType);
      SetOpenGraphProperty("title", og.title);
      SetOpenGraphProperty("image", og.image);
      SetOpenGraphProperty("url", og.url);
      SetOpenGraphProperty("site_name", og.siteName);
      SetOpenGraphProperty("description", og.description);
      HeadTagsInOrder(h0, newNav);
    }

    /** The body class step of `__setNavigation` (middleware.ts:484-488). */
    method UpdateBodyClass(cur: Option<NavigationEntry>, newNav: NavigationModel)
      modifies this`bodyClasses
      ensures bodyClasses == BodyClassesAfter(old(bodyClasses), cur, newNav)
    {
      if cur.Some? && cur.value.model.bodyClass != "" {
        bodyClasses := bodyClasses - {cur.value.model.bodyClass};
      }
      if newNav.bodyClass != "" {
        bodyClasses := bodyClasses + {newNav.bodyClass};
      }
    }

    /** The history step of `__setNavigation` (middleware.ts:499-518). */
    method UpdateHistory(ctx: NavContext, newTitle: string)
      modifies this`effects, this`title, this`href
      ensures effects == old(effects) + HistoryEffects(ctx, old(href), newTitle)
      ensures title == TitleAfter(ctx, old(title), newTitle)
      ensures href == HrefAfter(ctx, old(href))
    {
      var navUrl := ctx.url;
      var isFirst := ctx.source == First;
      var replace := ctx.replace;
      if isFirst || navUrl == href {
        replace := true;
      }
      assert replace == ReplaceHistory(ctx, old(href));

      if !isFirst && !ctx.popstate {
        if ctx.hash == "" {
          if replace {
            effects := effects + [ReplaceState(newTitle, navUrl)];
          } else {
            effects := effects + [PushState(newTitle, navUrl)];
          }
          href := navUrl;
        }
        if ctx.hash != "" {
          effects := effects + [SetHash("#" + ctx.hash)];
          href := WithFragment(href, ctx.hash);
        }
        title := newTitle;
        if !replace {
          effects := effects + [ScrollTop];
        }
      }
    }

    /** `__setNavigation(context, current, newNav, page)` (middleware.ts:439-519):
        outside the first load, the head tags and the body class follow the new
        model; the new entry becomes current; then the history step. */
    method SetNavigation(ctx: NavContext, cur: Option<NavigationEntry>, newNav: NavigationModel, page: PageId)
      modifies this`head, this`bodyClasses, this`current, this`effects, this`title, this`href
      ensures ctx.source != First ==> head == ApplyTags(old(head), HeadTags(newNav))
      ensures ctx.source != First ==> bodyClasses == BodyClassesAfter(old(bodyClasses), cur, newNav)
      ensures ctx.source == First ==> head == old(head) && bodyClasses == old(bodyClasses)
      ensures current == Some(NavigationEntry(ctx.url, ctx.hash, newNav, page))
      ensures effects == old(effects) + HistoryEffects(ctx, old(href), newNav.title)
      ensures title == TitleAfter(ctx, old(title), newNav.title)
      ensures href == HrefAfter(ctx, old(href))
    {
      if ctx.source != First {
        UpdateHead(newNav);
        UpdateBodyClass(cur, newNav);
      }
      current := Some(NavigationEntry(ctx.url, ctx.hash, newNav, page));
      UpdateHistory(ctx, newNav.title);
    }

    // -------------------------------------------------------------------------
    // Page lifecycle (__renderPage, middleware.ts:360-437)

    /** `page.destroy()` */
    method DestroyPage(p: PageId)
      modifies this`livePages, this`effects
      ensures livePages == old(livePages) - {p}
      ensures effects == old(effects) + [PageDestroyed(p)]
    {
      livePages := livePages - {p};
      effects := effects + [PageDestroyed(p)];
    }

    /** `new pageType.default(context.app, nav)` */
    method CreatePage(impl: PageImpl) returns (p: PageId)
      modifies this`livePages, this`effects, this`nextPageId
      ensures p == old(nextPageId) && nextPageId == p + 1
      ensures livePages == old(livePages) + {p}
      ensures effects == old(effects) + [PageCreated(p, impl)]
    {
      p := nextPageId;
      nextPageId := nextPageId + 1;
      livePages := livePages + {p};
      effects := effects + [PageCreated(p, impl)];
    }

    /** The part of `__renderPage` after the page type has loaded
        (middleware.ts:388-414): the page element is looked up, the previous
        page is destroyed, the new one constructed and rendered; a render that
        fails or goes stale destroys the new page and throws. Nothing is
        committed yet. */
    method MountPage(cur: Option<NavigationEntry>, navSequence: nat, newContent: Option<Fragment>,
                     impl: PageImpl, env: RenderEnv)
      returns (r: Completion, page: Option<PageId>)
      requires Valid() && cur == current
      modifies this`navCounter, this`livePages, this`effects, this`nextPageId
      ensures navCounter == old(navCounter) + (if env.constructs && (if newContent.Some? then newContent.value.hasPageElement else env.documentHasPageElement)
                                                then env.racesDuringRender else 0)
      ensures nextPageId >= old(nextPageId)
      ensures old(effects) <= effects
      ensures r.Threw? <==> page.None?
      ensures page.None? ==> Valid() && livePages <= old(livePages)
      ensures page.None? ==> forall e :: e in effects[|old(effects)|..] ==> e.PageDestroyed? || e.PageCreated? || e.PageRendered?
      ensures r == Threw(PageOutdated) ==>
                && IsNavOutdated(navSequence)
                && effects == old(effects) + RetireEffects(cur)
                   + [PageCreated(old(nextPageId), impl), PageRendered(old(nextPageId), HashOf(cur)), PageDestroyed(old(nextPageId))]
      ensures page.Some? ==>
                && r == Returned
                && !IsNavOutdated(navSequence)
                && page.value == old(nextPageId) && nextPageId == page.value + 1
                && livePages == {page.value}
                && effects == old(effects) + RetireEffects(cur) + [PageCreated(page.value, impl), PageRendered(page.value, HashOf(cur))]
      ensures page.Some? <==> env.constructs && env.renders && !IsNavOutdated(navSequence)
                              && (if newContent.Some? then newContent.value.hasPageElement else env.documentHasPageElement)
    {
      if newContent.Some? {
        if !newContent.value.hasPageElement {
          return Threw(PageElementNotFound), None;
        }
      } else {
        if !env.documentHasPageElement {
          return Threw(PageElementNotFound), None;
        }
      }

      if cur.Some? {
        DestroyPage(cur.value.page);
      }

      if !env.constructs {
        return Threw(PageConstructionFailed), None;
      }
      var p := CreatePage(impl);

      // await page.__render(newPageElem, current?.hash)
      Suspend(env.racesDuringRender);
      if !env.renders {
        DestroyPage(p);
        return Threw(PageRenderFailed), None;
      }
      effects := effects + [PageRendered(p, HashOf(cur))];
      if IsNavOutdated(navSequence) {
        DestroyPage(p);
        return Threw(PageOutdated), None;
      }
      return Returned, Some(p);
    }

    /** The commit of `__renderPage` (middleware.ts:416-436): the new model and
        page become current (a submit keeps the current model and takes the new
        page), then the old page element is replaced by the new one. */
    method CommitPage(ctx: NavContext, cur: Option<NavigationEntry>, newNav: Option<NavigationModel>,
                      p: PageId, swapFrom: Option<PageId>)
      requires newNav.Some? || cur.Some?
      modifies this`head, this`bodyClasses, this`current, this`effects, this`title, this`href
      ensures newNav.Some? ==> current == Some(NavigationEntry(ctx.url, ctx.hash, newNav.value, p))
      ensures newNav.None? ==> current == Some(cur.value.(page := p))
      ensures newNav.Some? && ctx.source != First ==>
                head == ApplyTags(old(head), HeadTags(newNav.value))
                && bodyClasses == BodyClassesAfter(old(bodyClasses), cur, newNav.value)
      ensures newNav.None? || ctx.source == First ==> head == old(head) && bodyClasses == old(bodyClasses)
      ensures newNav.Some? ==> title == TitleAfter(ctx, old(title), newNav.value.title) && href == HrefAfter(ctx, old(href))
      ensures newNav.None? ==> title == old(title) && href == old(href)
      ensures effects == old(effects)
                         + (if newNav.Some? then HistoryEffects(ctx, old(href), newNav.value.title) else [])
                         + (if swapFrom.Some? then [ElementSwapped(swapFrom.value, p)] else [])
    {
      if newNav.Some? {
        SetNavigation(ctx, cur, newNav.value, p);
      } else {
        current := Some(cur.value.(page := p));
      }
      if swapFrom.Some? {
        effects := effects + [ElementSwapped(swapFrom.value, p)];
      }
    }

    /** The start of `__renderPage` (middleware.ts:361-382): the model to
        render, the page type it names (or the default page), and the load of
        that type, after which a navigation begun meanwhile makes it return
        quietly. */
    method LoadPageType(cur: Option<NavigationEntry>, newNav: Option<NavigationModel>, navSequence: nat, env: RenderEnv)
      returns (r: Completion, impl: Option<PageImpl>)
      modifies this`navCounter
      ensures impl.Some? ==> r == Returned
      ensures NavOf(newNav, cur).None? ==> r == Threw(NavNotSet) && impl.None? && navCounter == old(navCounter)
      ensures NavOf(newNav, cur).Some? ==>
                var resolution := ResolvePageType(NavOf(newNav, cur).value.pageType, options);
                && (resolution.Unresolved? ==>
                      r == Threw(PageDefinitionNotFound(resolution.name)) && impl.None? && navCounter == old(navCounter))
                && (resolution.Resolved? ==> navCounter == old(navCounter) + env.racesDuringLoad)
                && (resolution.Resolved? && !env.loads ==> r == Threw(PageLoadFailed) && impl.None?)
                && (resolution.Resolved? && env.loads ==>
                      r == Returned && (impl.Some? <==> !IsNavOutdated(navSequence))
                      && (impl.Some? ==> impl.value == resolution.impl))
    {
      var nav: NavigationModel;
      if newNav.Some? {
        nav := newNav.value;
      } else if cur.Some? {
        nav := cur.value.model;
      } else {
        return Threw(NavNotSet), None;
      }

      var pageTypeName := nav.pageType;
      if pageTypeName == "" && options.defaultPage.Some? && options.defaultPage.value != "" {
        pageTypeName := options.defaultPage.value;
      }
      var resolved: PageImpl;
      if pageTypeName != "" {
        if options.pages.None? || pageTypeName !in options.pages.value {
          return Threw(PageDefinitionNotFound(pageTypeName)), None;
        }
        resolved := Registered(pageTypeName, options.pages.value[pageTypeName]);
      } else {
        resolved := GenericPage;
      }
      assert ResolvePageType(nav.pageType, options) == Resolved(resolved);

      // await pageDefinition.factory()
      Suspend(env.racesDuringLoad);
      if !env.loads {
        return Threw(PageLoadFailed), None;
      }
      if IsNavOutdated(navSequence) {
        return Returned, None;
      }
      return Returned, Some(resolved);
    }

    /** `__renderPage(context, current, newNav, navSequence, newContent)`
        (middleware.ts:360-437). The page type is resolved and loaded; a
        navigation begun meanwhile makes it return quietly; the previous page
        is destroyed before the new one is constructed; a render that fails or
        goes stale destroys the new page and throws; on success the new model
        is committed and only then is the old page element replaced. */
    method RenderPage(ctx: NavContext, cur: Option<NavigationEntry>, newNav: Option<NavigationModel>,
                      navSequence: nat, newContent: Option<Fragment>, env: RenderEnv)
      returns (r: Completion, page: Option<PageId>)
      requires Valid() && cur == current && navSequence <= navCounter
      modifies this`navCounter, this`livePages, this`effects, this`nextPageId,
               this`head, this`bodyClasses, this`current, this`title, this`href
      ensures Valid()
      ensures navCounter >= old(navCounter)
      ensures old(effects) <= effects
      ensures r.Threw? ==> page.None?
      ensures page.None? ==> && current == old(current) && href == old(href) && title == old(title)
                             && head == old(head) && bodyClasses == old(bodyClasses)
                             && livePages <= old(livePages) && nextPageId >= old(nextPageId)
      ensures page.None? ==> forall e :: e in effects[|old(effects)|..] ==> e.PageDestroyed? || e.PageCreated? || e.PageRendered?
      ensures page.None? && r == Returned ==> effects == old(effects) && livePages == old(livePages) && IsNavOutdated(navSequence)
      // the resolution of the page type
      ensures NavOf(newNav, cur).None? ==> r == Threw(NavNotSet) && effects == old(effects)
      ensures NavOf(newNav, cur).Some? && ResolvePageType(NavOf(newNav, cur).value.pageType, options).Unresolved? ==>
                r == Threw(PageDefinitionNotFound(ResolvePageType(NavOf(newNav, cur).value.pageType, options).name))
                && effects == old(effects)
      // a render that goes stale destroys the new page
      ensures r == Threw(PageOutdated) ==>
                && IsNavOutdated(navSequence)
                && NavOf(newNav, cur).Some?
                && ResolvePageType(NavOf(newNav, cur).value.pageType, options).Resolved?
                && effects == old(effects) + RetireEffects(cur)
                   + [PageCreated(old(nextPageId), ResolvePageType(NavOf(newNav, cur).value.pageType, options).impl),
                      PageRendered(old(nextPageId), HashOf(cur)),
                      PageDestroyed(old(nextPageId))]
      // success: destroy old, create and render new, commit, swap elements
      ensures page.Some? ==>
                && r == Returned
                && !IsNavOutdated(navSequence)
                && page.value == old(nextPageId)
                && livePages == {page.value}
                && NavOf(newNav, cur).Some?
                && ResolvePageType(NavOf(newNav, cur).value.pageType, options).Resolved?
                && effects == old(effects) + RetireEffects(cur)
                   + [PageCreated(page.value, ResolvePageType(NavOf(newNav, cur).value.pageType, options).impl),
                      PageRendered(page.value, HashOf(cur))]
                   + (if newNav.Some? then HistoryEffects(ctx, old(href), newNav.value.title) else [])
                   + (if newContent.Some? && cur.Some? then [ElementSwapped(cur.value.page, page.value)] else [])
      ensures page.Some? && newNav.Some? ==> current == Some(NavigationEntry(ctx.url, ctx.hash, newNav.value, page.value))
      ensures page.Some? && newNav.None? ==> cur.Some? && current == Some(cur.value.(page := page.value))
      ensures page.Some? && newNav.Some? && ctx.source != First ==>
                head == ApplyTags(old(head), HeadTags(newNav.value))
                && bodyClasses == BodyClassesAfter(old(bodyClasses), cur, newNav.value)
      ensures page.Some? && (newNav.None? || ctx.source == First) ==> head == old(head) && bodyClasses == old(bodyClasses)
      ensures page.Some? && newNav.Some? ==>
                title == TitleAfter(ctx, old(title), newNav.value.title) && href == HrefAfter(ctx, old(href))
      ensures page.Some? && newNav.None? ==> title == old(title) && href == old(href)
      ensures page.Some? ==> RenderSucceeds(env)
                             && (if newContent.Some? then newContent.value.hasPageElement else env.documentHasPageElement)
      ensures RenderSucceeds(env) && NavOf(newNav, cur).Some?
              && ResolvePageType(NavOf(newNav, cur).value.pageType, options).Resolved?
              && old(navCounter) == navSequence
              && (if newContent.Some? then newContent.value.hasPageElement else env.documentHasPageElement)
              ==> page.Some?
    {
      var impl;
      r, impl := LoadPageType(cur, newNav, navSequence, env);
      if impl.None? {
        return r, None;
      }

      var swapFrom: Option<PageId> := if newContent.Some? && cur.Some? then Some(cur.value.page) else None;
      r, page := MountPage(cur, navSequence, newContent, impl.value, env);
      if page.None? {
        return;
      }
      CommitPage(ctx, cur, newNav, page.value, swapFrom);
    }

    // -------------------------------------------------------------------------
    // navigate (middleware.ts:83-209)

    /** What `navigate`'s render step leaves, measured from `s`, the state when
        it began: a page that mounts is committed with the exact effects and
        the next middleware runs; one that does not commits nothing and logs
        only the page lifecycle, then, unless superseded, the fallback
        navigation (or, on the first load, a rethrow); an error is only ever
        rethrown on the first load or once superseded. */
    ghost predicate RenderOutcome(ctx: NavContext, cur: Option<NavigationEntry>, model: NavigationModel,
                              navSequence: nat, content: Option<Fragment>, env: RenderEnv, r: Completion, s: Snapshot)
      reads this
    {
      && s.effects <= effects
      && (r.Threw? ==> ctx.source == First || IsNavOutdated(navSequence))
      && (Mounts(options, model, content, env) ==>
            var p := s.nextPageId;
            && r == Returned
            && current == Some(NavigationEntry(ctx.url, ctx.hash, model, p))
            && livePages == {p}
            && (ctx.source != First ==> head == ApplyTags(s.head, HeadTags(model))
                                        && bodyClasses == BodyClassesAfter(s.bodyClasses, cur, model))
            && (ctx.source == First ==> head == s.head && bodyClasses == s.bodyClasses)
            && title == TitleAfter(ctx, s.title, model.title) && href == HrefAfter(ctx, s.href)
            && effects == s.effects + RetireEffects(cur)
               + [PageCreated(p, ResolvePageType(model.pageType, options).impl), PageRendered(p, HashOf(cur))]
               + HistoryEffects(ctx, s.href, model.title)
               + (if content.Some? && cur.Some? then [ElementSwapped(cur.value.page, p)] else [])
               + [CallNext])
      && (!Mounts(options, model, content, env) ==>
            && current == s.current && href == s.href && title == s.title
            && head == s.head && bodyClasses == s.bodyClasses && livePages <= s.livePages
            && Discarded(effects[|s.effects|..], if ctx.source == First then {CallNext} else {CallNext, ForceNavEffect(ctx)})
            && (!IsNavOutdated(navSequence) && ctx.source == First ==> r.Threw? && LifecycleOnly(effects[|s.effects|..]))
            && (!IsNavOutdated(navSequence) && ctx.source != First ==>
                  r == Returned && |effects| > |s.effects| && effects[|effects| - 1] == ForceNavEffect(ctx))
            && (IsNavOutdated(navSequence) && r == Returned ==> |effects| > |s.effects| && effects[|effects| - 1] == CallNext))
    }

    /** The end of `navigate`'s try block, `await this.__renderPage(...)` and
        `await next()`, with its catch (middleware.ts:194-205): an error of a
        navigation that is neither the first load nor outdated becomes a full
        navigation; any other is rethrown. */
    method RenderAndContinue(ctx: NavContext, cur: Option<NavigationEntry>, model: NavigationModel,
                             navSequence: nat, content: Option<Fragment>, env: RenderEnv)
      returns (r: Completion)
      requires Valid() && cur == current && navSequence == navCounter
      modifies this`navCounter, this`livePages, this`effects, this`nextPageId,
               this`head, this`bodyClasses, this`current, this`title, this`href
      ensures Valid()
      ensures navCounter >= old(navCounter)
      ensures RenderOutcome(ctx, cur, model, navSequence, content, env, r, old(Snap()))
    {
      var page;
      assert NavOf(Some(model), cur) == Some(model);
      r, page := RenderPage(ctx, cur, Some(model), navSequence, content, env);
      ghost var last := if ctx.source == First then {CallNext} else {CallNext, ForceNavEffect(ctx)};
      if r == Returned {
        if page.None? {
          DiscardedStep(old(effects), effects, CallNext, last);
        }
        effects := effects + [CallNext];
        return;
      }
      if ctx.source != First && !IsNavOutdated(navSequence) {
        DiscardedStep(old(effects), effects, ForceNavEffect(ctx), last);
        ForceNav(ctx);
        return Returned;
      }
    }

    /** The examination of a response that arrived in time
        (middleware.ts:161-191): the fallbacks, the header actions, and the
        model to render when there is one. */
    method ExamineResponse(ctx: NavContext, cur: Option<NavigationEntry>, response: Response)
      returns (model: Option<NavigationModel>)
      modifies this`effects
      ensures ResponseRoute(cur, response) == FetchFallback ==> model == None && effects == old(effects) + [ForceNavEffect(ctx)]
      ensures ResponseRoute(cur, response).FetchAction? ==>
                model == None && effects == old(effects) + ActionEffects(ResponseRoute(cur, response).action)
      ensures ResponseRoute(cur, response).Render? ==> model == Some(ResponseRoute(cur, response).model) && effects == old(effects)
    {
      if response.status != 200 && response.kind != "html" {
        ForceNav(ctx);
        return None;
      }
      if PageReloadHeader in response.headers {
        ForceNav(ctx);
        return None;
      }
      var handled, pr := PrecessPageResponse(response);
      if pr.Threw? {
        ForceNav(ctx);
        return None;
      }
      if handled {
        return None;
      }
      if response.kind != "html" {
        ForceNav(ctx);
        return None;
      }
      if response.fragment.navModel.None? {
        ForceNav(ctx);
        return None;
      }
      var navModel := response.fragment.navModel.value;
      if cur.Some? && cur.value.model.isAuthenticated != navModel.isAuthenticated {
        ForceNav(ctx);
        return None;
      }
      return Some(navModel);
    }

    /** What a navigation that fetches its page leaves, by route: the request
        is always the first effect; a superseded one stops there; a fallback
        adds the full navigation; a header action its effects; a page that
        mounts is committed and the next middleware runs; a page that does not
        leaves the committed state alone and, unless superseded meanwhile,
        ends in a full navigation. */
    ghost predicate FetchOutcome(ctx: NavContext, cur: Option<NavigationEntry>, navSequence: nat, env: NavEnv, r: Completion, s: Snapshot)
      reads this
    {
      var fetch := Fetch(NavRequest(ctx.url, navSequence, StateOf(cur)));
      var route := FetchRoute(cur, env);
      && |effects| > |s.effects| && effects[..|s.effects| + 1] == s.effects + [fetch]
      && (route == Superseded ==> r == Returned && Unchanged(s) && effects == s.effects + [fetch])
      && (route == FetchFallback ==> r == Returned && Unchanged(s) && effects == s.effects + [fetch, ForceNavEffect(ctx)])
      && (route.FetchAction? ==> r == Returned && Unchanged(s) && effects == s.effects + [fetch] + ActionEffects(route.action))
      && (route.Render? ==>
            RenderOutcome(ctx, cur, route.model, navSequence, route.content, env.render, r, s.(effects := s.effects + [fetch])))
    }

    /** The fetching part of `navigate` (middleware.ts:150-196): the page is
        requested, the response examined, and the page rendered when the
        response carries one. */
    method NavigateFetch(ctx: NavContext, cur: Option<NavigationEntry>, navSequence: nat, env: NavEnv)
      returns (r: Completion)
      requires Valid() && cur == current && navSequence == navCounter && ctx.source != First
      modifies this`navCounter, this`livePages, this`effects, this`nextPageId,
               this`head, this`bodyClasses, this`current, this`title, this`href
      ensures Valid()
      ensures navCounter >= old(navCounter)
      ensures r.Threw? ==> IsNavOutdated(navSequence)
      ensures FetchOutcome(ctx, cur, navSequence, env, r, old(Snap()))
    {
      var request := NavRequest(ctx.url, navSequence, StateOf(cur));
      effects := effects + [Fetch(request)];
      Suspend(env.racesDuringFetch);
      if IsNavOutdated(navSequence) {
        return Returned;
      }
      var model := ExamineResponse(ctx, cur, env.response);
      if model.None? {
        return Returned;
      }
      r := RenderAndContinue(ctx, cur, model.value, navSequence, Some(env.response.fragment), env.render);
    }

    /** A navigation that stays on the current document (middleware.ts:98-131):
        when the hashes differ ignoring case and it is not a `popstate`, only
        `location.hash` is set; otherwise the current entry takes the new hash,
        of which the page is told, and the next middleware runs. */
    method NavigateHash(ctx: NavContext)
      requires SameDocument(current, ctx)
      modifies this`current, this`effects, this`href
      ensures HashOnly(old(current), ctx) ==>
                current == old(current) && effects == old(effects) + [SetHash(HashFragment(ctx.hash))]
                && href == WithFragment(old(href), ctx.hash)
      ensures !HashOnly(old(current), ctx) ==>
                && current == Some(old(current).value.(hash := ctx.hash))
                && effects == old(effects) + [PageHashChanged(old(current).value.page, ctx.hash, ctx.hash), CallNext]
                && href == old(href)
    {
      var cur := current.value;
      var isHashEqual := Lower(cur.hash) == Lower(ctx.hash);
      if !isHashEqual && !ctx.popstate {
        var newHash := if ctx.hash != "" then "#" + ctx.hash else "";
        effects := effects + [SetHash(newHash)];
        href := WithFragment(href, ctx.hash);
        return;
      }
      cur := cur.(hash := ctx.hash);
      current := Some(cur);
      effects := effects + [PageHashChanged(cur.page, ctx.hash, cur.hash), CallNext];
    }

    /** What the first load leaves behind: without the `nav-data` payload it
        throws and changes nothing; a page that mounts is committed and the next
        middleware runs; one that does not leaves the committed state alone and,
        unless superseded meanwhile, is rethrown. The first load never touches
        the head, the body class, the title or the URL. */
    ghost predicate FirstOutcome(ctx: NavContext, navSequence: nat, env: NavEnv, r: Completion, s: Snapshot)
      reads this
    {
      && head == s.head && bodyClasses == s.bodyClasses && href == s.href && title == s.title
      && (env.firstPayload.None? ==> r == Threw(FirstNavDataNotFound) && effects == s.effects && Unchanged(s))
      && (env.firstPayload.Some? && Mounts(options, env.firstPayload.value, None, env.render) ==>
            && r == Returned
            && current == Some(NavigationEntry(ctx.url, ctx.hash, env.firstPayload.value, s.nextPageId))
            && livePages == {s.nextPageId}
            && effects == s.effects + RetireEffects(s.current)
               + [PageCreated(s.nextPageId, ResolvePageType(env.firstPayload.value.pageType, options).impl),
                  PageRendered(s.nextPageId, HashOf(s.current)), CallNext])
      && (env.firstPayload.Some? && !Mounts(options, env.firstPayload.value, None, env.render) ==>
            && current == s.current && livePages <= s.livePages
            && s.effects <= effects && Discarded(effects[|s.effects|..], {CallNext})
            && (!IsNavOutdated(navSequence) ==>
                  r.Threw? && s.effects <= effects && LifecycleOnly(effects[|s.effects|..])))
    }

    /** The first load (middleware.ts:139-148, 194-205): the model comes from
        the `nav-data` script of the document, whose absence throws. */
    method NavigateFirst(ctx: NavContext, navSequence: nat, env: NavEnv) returns (r: Completion)
      requires Valid() && navSequence == navCounter && ctx.source == First
      modifies this`navCounter, this`livePages, this`effects, this`nextPageId,
               this`head, this`bodyClasses, this`current, this`title, this`href
      ensures Valid()
      ensures navCounter >= old(navCounter)
      ensures old(effects) <= effects
      ensures FirstOutcome(ctx, navSequence, env, r, old(Snap()))
    {
      if env.firstPayload.None? {
        return Threw(FirstNavDataNotFound);
      }
      r := RenderAndContinue(ctx, current, env.firstPayload.value, navSequence, None, env.render);
    }

    /** `navigate(context, next)`: returns the sequence id the navigation took. */
    method Navigate(ctx: NavContext, env: NavEnv) returns (navSequence: nat, r: Completion)
      requires Valid()
      modifies this`navCounter, this`livePages, this`effects, this`nextPageId,
               this`head, this`bodyClasses, this`current, this`title, this`href
      ensures Valid()
      ensures navSequence == old(navCounter) + 1 && navCounter >= navSequence
      ensures r.Threw? ==> ctx.source == First || IsNavOutdated(navSequence)
      // external, or no history API: a full navigation and nothing else
      ensures ctx.external || !allowHistory ==>
                r == Returned && effects == old(effects) + [ForceNavEffect(ctx)] && CommitUnchanged()
      // the same document
      ensures !ctx.external && allowHistory && HashOnly(old(current), ctx) ==>
                && r == Returned && effects == old(effects) + [SetHash(HashFragment(ctx.hash))]
                && current == old(current) && href == WithFragment(old(href), ctx.hash)
                && title == old(title) && head == old(head) && bodyClasses == old(bodyClasses) && livePages == old(livePages)
      ensures !ctx.external && allowHistory && SameDocument(old(current), ctx) && !HashOnly(old(current), ctx) ==>
                && r == Returned
                && current == Some(old(current).value.(hash := ctx.hash))
                && effects == old(effects) + [PageHashChanged(old(current).value.page, ctx.hash, ctx.hash), CallNext]
                && href == old(href) && title == old(title) && head == old(head) && bodyClasses == old(bodyClasses)
                && livePages == old(livePages)
      // the first load renders the page of the document
      ensures !ctx.external && allowHistory && !SameDocument(old(current), ctx) && ctx.source == First ==>
                FirstOutcome(ctx, navSequence, env, r, old(Snap()))
      // any other navigation fetches its page
      ensures !ctx.external && allowHistory && !SameDocument(old(current), ctx) && ctx.source != First ==>
                FetchOutcome(ctx, old(current), navSequence, env, r, old(Snap()))
    {
      var cur := current;
      navSequence := IncNavSequence();

      if ctx.external || !allowHistory {
        ForceNav(ctx);
        return navSequence, Returned;
      }

      if SameDocument(cur, ctx) {
        NavigateHash(ctx);
        return navSequence, Returned;
      }

      if ctx.source == First {
        r := NavigateFirst(ctx, navSequence, env);
      } else {
        r := NavigateFetch(ctx, cur, navSequence, env);
      }
    }

    // -------------------------------------------------------------------------
    // submit (middleware.ts:211-269)

    /** The `for...in` copy of `current.model.query` (middleware.ts:225-227). */
    method CopyQuery(query: map<string, QueryValue>) returns (copy: map<string, QueryValue>)
      ensures copy == query
    {
      copy := map[];
      var keys := query.Keys;
      while keys != {}
        invariant keys <= query.Keys
        invariant copy.Keys == query.Keys - keys
        invariant forall k :: k in copy ==> copy[k] == query[k]
        decreases keys
      {
        var k :| k in keys;
        copy := copy[k := query[k]];
        keys := keys - {k};
      }
    }

    /** What the answer to a submit from the committed entry `cur` leaves,
        measured from `s`, the state once the request was sent and no other
        navigation began meanwhile: a status other than 200 or 201 throws; a
        header action is performed; an HTML answer without a body throws; an
        HTML answer replaces the page, keeping the model; any other answer is
        handed to the page. */
    ghost predicate AnswerOutcome(cur: NavigationEntry, navSequence: nat, response: Response, env: RenderEnv,
                                  r: Completion, s: Snapshot)
      reads this
    {
      var proceeds := StatusAccepted(response.status) && PageActionOf(response.headers) == NoAction;
      var p := s.nextPageId;
      && (!StatusAccepted(response.status) ==>
            r == Threw(SubmitStatus(response.status)) && Unchanged(s) && effects == s.effects)
      && (StatusAccepted(response.status) && PageActionOf(response.headers) != NoAction ==>
            && r == (if PageActionOf(response.headers).UnknownAction? then Threw(UnknownPageActionError) else Returned)
            && Unchanged(s) && effects == s.effects + ActionEffects(PageActionOf(response.headers)))
      && (proceeds && response.kind == "html" && response.data == "" ==>
            r == Threw(SubmitNoHtml) && Unchanged(s) && effects == s.effects)
      && (proceeds && response.kind != "html" ==>
            r == Returned && Unchanged(s) && effects == s.effects + [PageSubmitted(cur.page), CallNext])
      && (proceeds && response.kind == "html" && response.data != "" && Mounts(options, cur.model, Some(response.fragment), env) ==>
            && r == Returned
            && current == Some(cur.(page := p))
            && livePages == {p}
            && head == s.head && bodyClasses == s.bodyClasses && href == s.href && title == s.title
            && effects == s.effects + [PageDestroyed(cur.page),
                                       PageCreated(p, ResolvePageType(cur.model.pageType, options).impl),
                                       PageRendered(p, cur.hash), ElementSwapped(cur.page, p), CallNext])
      && (proceeds && response.kind == "html" && response.data != "" && !Mounts(options, cur.model, Some(response.fragment), env) ==>
            && current == s.current && head == s.head && bodyClasses == s.bodyClasses
            && href == s.href && title == s.title
            && s.effects <= effects && Discarded(effects[|s.effects|..], {CallNext})
            && (!IsNavOutdated(navSequence) ==> r.Threw?))
    }

    /** What a submit from the committed entry `cur` leaves: the request is
        always the first effect; a submit superseded during the request stops
        there; otherwise the answer is applied as `AnswerOutcome` states. */
    twostate predicate SubmitOutcome(ctx: SubmitContext, cur: NavigationEntry, navSequence: nat, env: SubmitEnv, r: Completion)
      reads this
    {
      var fetch := Fetch(SubmitRequest(Upper(ctx.httpMethod), ctx.url, cur.model.query, cur.model.state));
      && |effects| > |old(effects)| && effects[..|old(effects)| + 1] == old(effects) + [fetch]
      && (env.racesDuringFetch > 0 ==> r == Returned && CommitUnchanged() && effects == old(effects) + [fetch])
      && (env.racesDuringFetch == 0 ==>
            AnswerOutcome(cur, navSequence, env.response, env.render, r, old(Snap()).(effects := old(effects) + [fetch])))
    }

    /** `submit(context, next)`: sends the form of the current page and
        applies the answer. */
    method Submit(ctx: SubmitContext, env: SubmitEnv) returns (r: Completion)
      requires Valid()
      modifies this`navCounter, this`livePages, this`effects, this`nextPageId,
               this`head, this`bodyClasses, this`current, this`title, this`href
      ensures Valid()
      ensures navCounter >= old(navCounter)
      ensures old(current).None? ==> r == Threw(UnableToSubmit) && effects == old(effects) && navCounter == old(navCounter) && CommitUnchanged()
      ensures old(current).Some? ==> SubmitOutcome(ctx, old(current).value, old(navCounter) + 1, env, r)
    {
      if current.None? {
        return Threw(UnableToSubmit);
      }
      var httpMethod := Upper(ctx.httpMethod);
      var cur := current.value;
      var navSequence := IncNavSequence();

      var query := CopyQuery(cur.model.query);
      effects := effects + [Fetch(SubmitRequest(httpMethod, ctx.url, query, cur.model.state))];
      Suspend(env.racesDuringFetch);
      if IsNavOutdated(navSequence) {
        return Returned;
      }
      r := SubmitAnswer(ctx.url, cur, navSequence, env.response, env.render);
    }

    /** The answer of `submit` once the request came back to a navigation
        that is still current (middleware.ts:236-264). */
    method SubmitAnswer(url: string, cur: NavigationEntry, navSequence: nat, response: Response, env: RenderEnv)
      returns (r: Completion)
      requires Valid() && current == Some(cur) && !IsNavOutdated(navSequence)
      modifies this`navCounter, this`livePages, this`effects, this`nextPageId,
               this`head, this`bodyClasses, this`current, this`title, this`href
      ensures Valid()
      ensures navCounter >= old(navCounter)
      ensures AnswerOutcome(cur, navSequence, response, env, r, old(Snap()))
    {
      if !(response.status == 200 || response.status == 201) {
        return Threw(SubmitStatus(response.status));
      }
      var handled, pr := PrecessPageResponse(response);
      if pr.Threw? || handled {
        return pr;
      }
      if response.kind == "html" {
        if response.data == "" {
          return Threw(SubmitNoHtml);
        }
        r := SubmitRender(url, cur, navSequence, response.fragment, env);
        return;
      }
      effects := effects + [PageSubmitted(cur.page), CallNext];
      return Returned;
    }

    /** The HTML answer of `submit`: the current page is rendered again over
        the returned fragment, keeping its navigation model, and `next` runs
        once that succeeded. */
    method SubmitRender(url: string, cur: NavigationEntry, navSequence: nat, fragment: Fragment, env: RenderEnv)
      returns (r: Completion)
      requires Valid() && current == Some(cur) && !IsNavOutdated(navSequence)
      modifies this`navCounter, this`livePages, this`effects, this`nextPageId,
               this`head, this`bodyClasses, this`current, this`title, this`href
      ensures Valid()
      ensures navCounter >= old(navCounter)
      ensures old(effects) <= effects
      ensures Mounts(options, cur.model, Some(fragment), env) ==>
                && r == Returned
                && current == Some(cur.(page := old(nextPageId)))
                && livePages == {old(nextPageId)}
                && head == old(head) && bodyClasses == old(bodyClasses) && href == old(href) && title == old(title)
                && effects == old(effects) + [PageDestroyed(cur.page),
                                              PageCreated(old(nextPageId), ResolvePageType(cur.model.pageType, options).impl),
                                              PageRendered(old(nextPageId), cur.hash), ElementSwapped(cur.page, old(nextPageId)), CallNext]
      ensures !Mounts(options, cur.model, Some(fragment), env) ==>
                && current == old(current) && head == old(head) && bodyClasses == old(bodyClasses)
                && href == old(href) && title == old(title)
                && Discarded(effects[|old(effects)|..], {CallNext})
                && (!IsNavOutdated(navSequence) ==> r.Threw?)
    {
      var renderCtx := NavContext(url, "", false, false, Other, false);
      var page;
      r, page := RenderPage(renderCtx, current, None, navSequence, Some(fragment), env);
      if r.Threw? {
        return;
      }
      effects := effects + [CallNext];
      return Returned;
    }
  }
}
