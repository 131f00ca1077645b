/** The decisions the navigation engine of `middleware.ts` takes without
    touching the browser: the fallback navigation, the hash-only test, the
    classification of a fetched response, the resolution of a page type, the
    head-tag, body-class and history updates of a commit, and the delay before
    the progress bar is hidden. The engine in module Middleware performs them
    step by step; the lemmas here state what they guarantee. */
module NavRules {
  import opened Wrappers
  import opened Text
  import opened NavTypes

  // ---------------------------------------------------------------------------
  // Fallback navigation (__forceNav, middleware.ts:353-358)

  /** The full browser navigation `__forceNav` performs. */
  function ForceNavEffect(ctx: NavContext): (e: Effect)
    ensures e == Replace(ctx.url) || e == Assign(ctx.url)
    ensures e.Replace? <==> ctx.replace && !ctx.external
  {
    if ctx.replace && !ctx.external then Replace(ctx.url) else Assign(ctx.url)
  }

  /** An external navigation is never a replace, whatever the context asks. */
  lemma ExternalAlwaysAssigns(ctx: NavContext)
    requires ctx.external
    ensures ForceNavEffect(ctx) == Assign(ctx.url)
  {
  }

  // ---------------------------------------------------------------------------
  // Hash-only navigation (middleware.ts:98-131)

  /** `current && (current.hash || context.hash) && same url ignoring case`:
      the navigation stays on the current document. */
  predicate SameDocument(current: Option<NavigationEntry>, ctx: NavContext) {
    && current.Some?
    && (current.value.hash != "" || ctx.hash != "")
    && EqualsIgnoreCase(current.value.url, ctx.url)
  }

  /** The hashes differ ignoring case and the navigation does not come from
      `popstate`: only `location.hash` is set. */
  predicate HashOnly(current: Option<NavigationEntry>, ctx: NavContext) {
    && SameDocument(current, ctx)
    && !EqualsIgnoreCase(current.value.hash, ctx.hash)
    && !ctx.popstate
  }

  /** The value assigned to `location.hash` (middleware.ts:104). */
  function HashFragment(hash: string): (r: string)
    ensures hash == "" <==> r == ""
    ensures hash != "" ==> r[0] == '#' && r[1..] == hash
  {
    if hash != "" then "#" + hash else ""
  }

  /** A hash-only navigation really changes the hash, and setting it keeps the
      hash the context asked for. */
  lemma HashOnlyChangesHash(current: Option<NavigationEntry>, ctx: NavContext)
    requires HashOnly(current, ctx)
    ensures current.value.hash != ctx.hash
    ensures ctx.hash != "" ==> HashFragment(ctx.hash) == "#" + ctx.hash
    ensures ctx.hash == "" ==> current.value.hash != "" && HashFragment(ctx.hash) == ""
  {
  }

  /** A navigation to the same URL in another letter case whose hash differs
      only in letter case is not hash-only: the page is told about the hash. */
  lemma SameHashIgnoringCaseIsNotHashOnly(current: Option<NavigationEntry>, ctx: NavContext)
    requires SameDocument(current, ctx)
    requires Lower(current.value.hash) == Lower(ctx.hash)
    ensures !HashOnly(current, ctx)
  {
  }

  // ---------------------------------------------------------------------------
  // Response headers (__precessPageResponse, middleware.ts:320-351)

  const PageReloadHeader := "page-reload"
  const PageActionHeader := "page-action"
  const PageLocationHeader := "page-location"
  const PageReplaceHeader := "page-replace"

  /** `headers.get(name)` is truthy. */
  predicate HasValue(headers: map<string, string>, name: string) {
    name in headers && headers[name] != ""
  }

  /** What the headers of a response tell `__precessPageResponse` to do. */
  function PageActionOf(headers: map<string, string>): (a: PageAction)
    ensures a.NoAction? <==> !HasValue(headers, PageActionHeader) && !HasValue(headers, PageLocationHeader)
    ensures HasValue(headers, PageActionHeader) ==> a.ReloadPage? || a.UnknownAction?
  {
    if HasValue(headers, PageActionHeader) then
      var action := headers[PageActionHeader];
      if action == "reset" || action == "reload" then ReloadPage else UnknownAction(action)
    else if HasValue(headers, PageLocationHeader) then
      var replace := PageReplaceHeader in headers;
      if PageReloadHeader in headers
      then HardRedirect(headers[PageLocationHeader], replace)
      else SoftRedirect(headers[PageLocationHeader], replace)
    else
      NoAction
  }

  /** The browser effects of a page action; an unknown action throws instead. */
  function ActionEffects(a: PageAction): (es: seq<Effect>)
    ensures a.NoAction? || a.UnknownAction? ==> es == []
    ensures a.ReloadPage? ==> es == [Reload]
    ensures a.HardRedirect? ==> es == [if a.replace then Replace(a.url) else Assign(a.url)]
    ensures a.SoftRedirect? ==> es == [SoftNav(a.url, a.replace)]
  {
    match a
    case NoAction => []
    case UnknownAction(_) => []
    case ReloadPage => [Reload]
    case HardRedirect(url, replace) => [if replace then Replace(url) else Assign(url)]
    case SoftRedirect(url, replace) => [SoftNav(url, replace)]
  }

  /** `page-action` is looked at before `page-location`: with both present the
      location is ignored; "reset" and "reload" reload, any other value throws. */
  lemma ActionBeforeLocation(headers: map<string, string>)
    requires HasValue(headers, PageActionHeader)
    ensures var act := headers[PageActionHeader];
            PageActionOf(headers) == (if act == "reset" || act == "reload" then ReloadPage else UnknownAction(act))
    ensures PageActionOf(headers).ReloadPage? ==> ActionEffects(PageActionOf(headers)) == [Reload]
  {
  }

  /** A location with `page-reload` leaves the page the hard way, replacing the
      history entry iff `page-replace` is present; without `page-reload` the
      application navigates softly with the same replace flag. */
  lemma RedirectKinds(headers: map<string, string>)
    requires !HasValue(headers, PageActionHeader) && HasValue(headers, PageLocationHeader)
    ensures var loc := headers[PageLocationHeader];
            var replace := PageReplaceHeader in headers;
            && (PageReloadHeader in headers ==>
                  ActionEffects(PageActionOf(headers)) == [if replace then Replace(loc) else Assign(loc)])
            && (PageReloadHeader !in headers ==>
                  ActionEffects(PageActionOf(headers)) == [SoftNav(loc, replace)])
  {
  }

  // ---------------------------------------------------------------------------
  // Classification of a navigation response (middleware.ts:161-191)

  /** The order in which `navigate` examines a fetched response. */
  function ClassifyResponse(r: Response): (c: ResponseClass)
    ensures c.StatusFallback? <==> r.status != 200 && r.kind != "html"
    ensures c.Content? ==> r.kind == "html" && r.fragment.navModel == Some(c.model) && c.fragment == r.fragment
  {
    if r.status != 200 && r.kind != "html" then StatusFallback
    else if PageReloadHeader in r.headers then ReloadFallback
    else if PageActionOf(r.headers) != NoAction then Handled(PageActionOf(r.headers))
    else if r.kind != "html" then NotHtml
    else match r.fragment.navModel
      case None => BadNavData
      case Some(m) => Content(m, r.fragment)
  }

  /** `page-reload` is tested before `__precessPageResponse` runs, so a
      navigation never performs a hard redirect: a location that comes with
      `page-reload` makes `navigate` fall back to its own URL instead. */
  lemma NavigateNeverRedirectsHard(r: Response)
    ensures !(ClassifyResponse(r).Handled? && ClassifyResponse(r).action.HardRedirect?)
    ensures PageReloadHeader in r.headers && !(r.status != 200 && r.kind != "html") ==>
              ClassifyResponse(r) == ReloadFallback
  {
  }

  /** A non-200 response whose type is "html" is not a status fallback: it is
      examined like a successful one. */
  lemma ErrorStatusHtmlProceeds(r: Response)
    requires r.status != 200 && r.kind == "html"
    requires PageReloadHeader !in r.headers && PageActionOf(r.headers) == NoAction
    requires r.fragment.navModel.Some?
    ensures ClassifyResponse(r) == Content(r.fragment.navModel.value, r.fragment)
  {
  }

  /** The statuses `submit` lets through (middleware.ts:238-244). */
  predicate StatusAccepted(status: int) {
    status == 200 || status == 201
  }

  /** The authentication flag of the new model differs from the current one:
      `navigate` falls back to a full navigation instead of rendering. */
  predicate AuthFlipped(current: Option<NavigationEntry>, m: NavigationModel) {
    current.Some? && current.value.model.isAuthenticated != m.isAuthenticated
  }

  // ---------------------------------------------------------------------------
  // Options (constructor, middleware.ts:28-32)

  /** `Object.assign(target, source)`: every property `source` has overwrites
      the one of `target`. The constructor calls it with the caller's options
      as target and the defaults as source, so the defaults win. */
  function AssignOptions(target: WebsiteOptions, source: WebsiteOptions): (r: WebsiteOptions)
    ensures source.defaultPage.Some? ==> r.defaultPage == source.defaultPage
    ensures source.defaultPage.None? ==> r.defaultPage == target.defaultPage
    ensures source.pages.Some? ==> r.pages == source.pages
    ensures source.pages.None? ==> r.pages == target.pages
    ensures source.components.Some? ==> r.components == source.components
    ensures source.components.None? ==> r.components == target.components
    ensures source.navMinTime.Some? ==> r.navMinTime == source.navMinTime
    ensures source.navMinTime.None? ==> r.navMinTime == target.navMinTime
    ensures source.submitMinTime.Some? ==> r.submitMinTime == source.submitMinTime
    ensures source.submitMinTime.None? ==> r.submitMinTime == target.submitMinTime
  {
    WebsiteOptions(
      if source.defaultPage.Some? then source.defaultPage else target.defaultPage,
      if source.pages.Some? then source.pages else target.pages,
      if source.components.Some? then source.components else target.components,
      if source.navMinTime.Some? then source.navMinTime else target.navMinTime,
      if source.submitMinTime.Some? then source.submitMinTime else target.submitMinTime)
  }

  /** `options.defaultPage`, "" when absent. */
  function DefaultPage(o: WebsiteOptions): string {
    o.defaultPage.GetOr("")
  }

  /** Whether `name` is a registered page type (`options.pages[name]`). */
  predicate IsRegistered(o: WebsiteOptions, name: string) {
    o.pages.Some? && name in o.pages.value
  }

  /** The constructor check (middleware.ts:31-32): a default page type, when
      set, must be registered. */
  predicate OptionsAccepted(o: WebsiteOptions) {
    !(DefaultPage(o) != "" && !IsRegistered(o, DefaultPage(o)))
  }

  // ---------------------------------------------------------------------------
  // Page type resolution (__renderPage, middleware.ts:365-377)

  datatype Resolution = Resolved(impl: PageImpl) | Unresolved(name: string)

  /** The page implementation for a model whose `page.type` is `typeName`. */
  function ResolvePageType(typeName: string, o: WebsiteOptions): (r: Resolution)
    ensures typeName != "" ==>
              r == (if IsRegistered(o, typeName) then Resolved(Registered(typeName, o.pages.value[typeName]))
                    else Unresolved(typeName))
    ensures typeName == "" && DefaultPage(o) == "" ==> r == Resolved(GenericPage)
  {
    var name := if typeName == "" && DefaultPage(o) != "" then DefaultPage(o) else typeName;
    if name != "" then
      if IsRegistered(o, name) then Resolved(Registered(name, o.pages.value[name])) else Unresolved(name)
    else
      Resolved(GenericPage)
  }

  /** The default page applies exactly when the model names no type; with
      options the constructor accepted it always resolves, so only a model that
      names an unregistered type can fail. */
  lemma DefaultPageResolution(typeName: string, o: WebsiteOptions)
    requires OptionsAccepted(o)
    ensures ResolvePageType(typeName, o).Unresolved? <==> typeName != "" && !IsRegistered(o, typeName)
    ensures typeName == "" && DefaultPage(o) != "" ==>
              ResolvePageType(typeName, o) == Resolved(Registered(DefaultPage(o), o.pages.value[DefaultPage(o)]))
  {
  }

  // ---------------------------------------------------------------------------
  // Head tags (__setNavigation and __setOpenGraphProperty, middleware.ts:447-482, 521-531)

  /** The head of the document as the ids of the managed tags and their
      `content` (or `href`) attribute. */
  type Head = map<string, string>

  const DescriptionId := "page-meta-description"
  const KeywordsId := "page-meta-keywords"
  const CanonicalId := "page-link-canonical"

  /** The id of the tag for OpenGraph property `name` (`og-${name}`). */
  function OgId(name: string): (id: string)
    ensures |id| == |name| + 3 && id[..3] == "og-" && id[3..] == name
  {
    "og-" + name
  }

  /** Create, update or remove one tag: present with `value` when `value` is
      non-empty, absent otherwise. */
  function Upsert(head: Head, id: string, value: string): Head
  {
    if value != "" then head[id := value] else head - {id}
  }

  /** After an upsert the tag is present iff the value is non-empty, with
      that value, and every other tag is as it was. */
  lemma UpsertResult(head: Head, id: string, value: string)
    ensures id in Upsert(head, id, value) <==> value != ""
    ensures id in Upsert(head, id, value) ==> Upsert(head, id, value)[id] == value
    ensures forall k :: k != id ==>
              (k in Upsert(head, id, value) <==> k in head) &&
              (k in head ==> Upsert(head, id, value)[k] == head[k])
  {
  }

  /** The OpenGraph record of the model; without one every property reads
      as "" (`newNav.openGraph?.x` is undefined). */
  function OgOf(m: NavigationModel): OpenGraph {
    m.openGraph.GetOr(OpenGraph("", "", "", "", "", ""))
  }

  /** The tags a non-first commit manages, in the order it applies them. */
  function HeadTags(m: NavigationModel): seq<(string, string)> {
    [ (DescriptionId, m.description),
      (KeywordsId, m.keywords),
      (CanonicalId, m.canonicalLink),
      (OgId("type"), OgOf(m).ogType),
      (OgId("title"), OgOf(m).title),
      (OgId("image"), OgOf(m).image),
      (OgId("url"), OgOf(m).url),
      (OgId("site_name"), OgOf(m).siteName),
      (OgId("description"), OgOf(m).description) ]
  }

  /** Applies the upserts of `tags` in order. */
  function ApplyTags(head: Head, tags: seq<(string, string)>): Head
    decreases |tags|
  {
    if tags == [] then head
    else
      var last := tags[|tags| - 1];
      Upsert(ApplyTags(head, tags[..|tags| - 1]), last.0, last.1)
  }

  /** One more upsert extends the application of a prefix. */
  lemma ApplyTagsStep(head: Head, tags: seq<(string, string)>, k: nat)
    requires k < |tags|
    ensures ApplyTags(head, tags[..k + 1]) == Upsert(ApplyTags(head, tags[..k]), tags[k].0, tags[k].1)
  {
    assert tags[..k + 1][..k] == tags[..k];
  }

  /** Nine tags applied one after the other. */
  lemma ApplyNine(head: Head, tags: seq<(string, string)>)
    requires |tags| == 9
    ensures ApplyTags(head, tags) ==
      var h3 := Upsert(Upsert(Upsert(head, tags[0].0, tags[0].1), tags[1].0, tags[1].1), tags[2].0, tags[2].1);
      var h6 := Upsert(Upsert(Upsert(h3, tags[3].0, tags[3].1), tags[4].0, tags[4].1), tags[5].0, tags[5].1);
      Upsert(Upsert(Upsert(h6, tags[6].0, tags[6].1), tags[7].0, tags[7].1), tags[8].0, tags[8].1)
  {
    assert tags[..0] == [];
    ghost var h := head;
    ApplyTagsStep(head, tags, 0);
    h := Upsert(h, tags[0].0, tags[0].1);
    assert ApplyTags(head, tags[..1]) == h;
    ApplyTagsStep(head, tags, 1);
    h := Upsert(h, tags[1].0, tags[1].1);
    assert ApplyTags(head, tags[..2]) == h;
    ApplyTagsStep(head, tags, 2);
    h := Upsert(h, tags[2].0, tags[2].1);
    assert ApplyTags(head, tags[..3]) == h;
    ApplyTagsStep(head, tags, 3);
    h := Upsert(h, tags[3].0, tags[3].1);
    assert ApplyTags(head, tags[..4]) == h;
    ApplyTagsStep(head, tags, 4);
    h := Upsert(h, tags[4].0, tags[4].1);
    assert ApplyTags(head, tags[..5]) == h;
    ApplyTagsStep(head, tags, 5);
    h := Upsert(h, tags[5].0, tags[5].1);
    assert ApplyTags(head, tags[..6]) == h;
    ApplyTagsStep(head, tags, 6);
    h := Upsert(h, tags[6].0, tags[6].1);
    assert ApplyTags(head, tags[..7]) == h;
    ApplyTagsStep(head, tags, 7);
    h := Upsert(h, tags[7].0, tags[7].1);
    assert ApplyTags(head, tags[..8]) == h;
    ApplyTagsStep(head, tags, 8);
    h := Upsert(h, tags[8].0, tags[8].1);
    assert ApplyTags(head, tags[..9]) == h;
    assert tags[..9] == tags;
  }

  /** The head tags of a model applied one after the other, in the order of
      `HeadTags`. */
  lemma HeadTagsInOrder(head: Head, m: NavigationModel)
    ensures ApplyTags(head, HeadTags(m)) ==
      var og := OgOf(m);
      var h3 := Upsert(Upsert(Upsert(head, DescriptionId, m.description), KeywordsId, m.keywords), CanonicalId, m.canonicalLink);
      var h6 := Upsert(Upsert(Upsert(h3, OgId("type"), og.ogType), OgId("title"), og.title), OgId("image"), og.image);
      Upsert(Upsert(Upsert(h6, OgId("url"), og.url), OgId("site_name"), og.siteName), OgId("description"), og.description)
  {
    ApplyNine(head, HeadTags(m));
  }

  predicate DistinctIds(tags: seq<(string, string)>) {
    forall i, j :: 0 <= i < j < |tags| ==> tags[i].0 != tags[j].0
  }

  /** After the upserts every tag listed is present iff its value is non-empty,
      with that value, and every other tag of the head is untouched. */
  lemma {:induction false} ApplyTagsResult(head: Head, tags: seq<(string, string)>)
    requires DistinctIds(tags)
    ensures forall i :: 0 <= i < |tags| ==>
              (tags[i].0 in ApplyTags(head, tags) <==> tags[i].1 != "") &&
              (tags[i].1 != "" ==> ApplyTags(head, tags)[tags[i].0] == tags[i].1)
    ensures forall k :: (forall i :: 0 <= i < |tags| ==> tags[i].0 != k) ==>
              (k in ApplyTags(head, tags) <==> k in head) &&
              (k in head ==> ApplyTags(head, tags)[k] == head[k])
    decreases |tags|
  {
    if tags != [] {
      var n := |tags| - 1;
      var init := tags[..n];
      ApplyTagsResult(head, init);
      forall i | 0 <= i < |tags|
        ensures (tags[i].0 in ApplyTags(head, tags) <==> tags[i].1 != "")
        ensures tags[i].1 != "" ==> ApplyTags(head, tags)[tags[i].0] == tags[i].1
      {
        if i < n {
          assert init[i] == tags[i];
          assert tags[i].0 != tags[n].0;
        } else {
          forall j | 0 <= j < |init| ensures init[j].0 != tags[n].0 {
            assert init[j] == tags[j];
          }
        }
      }
      forall k | (forall i :: 0 <= i < |tags| ==> tags[i].0 != k)
        ensures (k in ApplyTags(head, tags) <==> k in head)
        ensures k in head ==> ApplyTags(head, tags)[k] == head[k]
      {
        assert tags[n].0 != k;
        forall j | 0 <= j < |init| ensures init[j].0 != k {
          assert init[j] == tags[j];
        }
      }
    }
  }

  /** Applying the same tags twice gives the same head as applying them once. */
  lemma ApplyTagsIdempotent(head: Head, tags: seq<(string, string)>)
    requires DistinctIds(tags)
    ensures ApplyTags(ApplyTags(head, tags), tags) == ApplyTags(head, tags)
  {
    var once := ApplyTags(head, tags);
    var twice := ApplyTags(once, tags);
    ApplyTagsResult(head, tags);
    ApplyTagsResult(once, tags);
    forall k ensures (k in twice <==> k in once) && (k in once ==> twice[k] == once[k]) {
      if i :| 0 <= i < |tags| && tags[i].0 == k {
      } else {
      }
    }
  }

  lemma HeadTagIdsDistinct(m: NavigationModel)
    ensures DistinctIds(HeadTags(m))
  {
  }

  /** The head a non-first commit leaves: each managed tag present iff the
      model's value is non-empty, with that value; the other tags untouched;
      committing the same model again changes nothing. */
  lemma CommitHead(head: Head, m: NavigationModel)
    ensures forall i :: 0 <= i < |HeadTags(m)| ==>
              var (id, value) := HeadTags(m)[i];
              (id in ApplyTags(head, HeadTags(m)) <==> value != "") &&
              (value != "" ==> ApplyTags(head, HeadTags(m))[id] == value)
    ensures ApplyTags(ApplyTags(head, HeadTags(m)), HeadTags(m)) == ApplyTags(head, HeadTags(m))
  {
    HeadTagIdsDistinct(m);
    ApplyTagsResult(head, HeadTags(m));
    ApplyTagsIdempotent(head, HeadTags(m));
  }

  // ---------------------------------------------------------------------------
  // Body class (middleware.ts:484-488)

  /** The body class list after a non-first commit from `current` to `m`. */
  function BodyClassesAfter(classes: set<string>, current: Option<NavigationEntry>, m: NavigationModel): (r: set<string>)
    ensures m.bodyClass != "" ==> m.bodyClass in r
    ensures current.Some? && current.value.model.bodyClass != "" && current.value.model.bodyClass != m.bodyClass ==>
              current.value.model.bodyClass !in r
    ensures forall c :: c != m.bodyClass && (current.None? || c != current.value.model.bodyClass) ==>
              (c in r <==> c in classes)
  {
    var removed := if current.Some? && current.value.model.bodyClass != "" then classes - {current.value.model.bodyClass} else classes;
    if m.bodyClass != "" then removed + {m.bodyClass} else removed
  }

  // ---------------------------------------------------------------------------
  // History (middleware.ts:499-518)

  /** `replace` at the history step: the context asks for it, it is the first
      load, or the URL is the current `location.href`. */
  predicate ReplaceHistory(ctx: NavContext, href: string) {
    ctx.replace || ctx.source == First || ctx.url == href
  }

  /** The browser effects of the history step of a commit. */
  function HistoryEffects(ctx: NavContext, href: string, title: string): (es: seq<Effect>)
    ensures ctx.source == First || ctx.popstate ==> es == []
  {
    var replace := ReplaceHistory(ctx, href);
    if ctx.source == First || ctx.popstate then []
    else
      (if ctx.hash == "" then [if replace then ReplaceState(title, ctx.url) else PushState(title, ctx.url)] else [])
      + (if ctx.hash != "" then [SetHash("#" + ctx.hash)] else [])
      + (if !replace then [ScrollTop] else [])
  }

  /** What the history step does, case by case: nothing on the first load or
      on popstate; otherwise one push or replace of the URL when there is no
      hash, or a `location.hash` assignment instead when there is one; a scroll
      to the top only after a push-style navigation. */
  lemma HistoryCases(ctx: NavContext, href: string, title: string)
    ensures var es := HistoryEffects(ctx, href, title);
            && (ctx.source == First || ctx.popstate ==> es == [])
            && (ctx.source != First && !ctx.popstate && ctx.hash == "" ==>
                  es[0] == (if ReplaceHistory(ctx, href) then ReplaceState(title, ctx.url) else PushState(title, ctx.url)))
            && (ctx.hash != "" ==> forall e :: e in es ==> !e.PushState? && !e.ReplaceState?)
            && (ctx.source != First && !ctx.popstate && ctx.hash != "" ==> es[0] == SetHash("#" + ctx.hash))
            && (ScrollTop in es <==> ctx.source != First && !ctx.popstate && !ReplaceHistory(ctx, href))
            && (ctx.url == href ==> forall e :: e in es ==> !e.PushState? && e != ScrollTop)
  {
  }

  // ---------------------------------------------------------------------------
  // Progress bar (__hideNavigationProgress, middleware.ts:582-585)

  /** The progress bar is shown for at least this many milliseconds. */
  const MinProgressTime := 500

  /** The delay before the bar finishes, given the time it was shown and now. */
  function HideDelay(now: int, shownAt: int): (d: int)
    ensures d >= 0
    ensures shownAt + MinProgressTime <= now + d
    ensures now - shownAt >= MinProgressTime ==> d == 0
    ensures now >= shownAt ==> d <= MinProgressTime
  {
    var d := MinProgressTime - (now - shownAt);
    if d < 0 then 0 else d
  }
}
