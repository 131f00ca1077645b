/** The page object of `pages/base.ts`: a small state machine that renders
    once, keeps the current hash, mounts the widgets of its content, collects
    destroy callbacks and runs them once when it is destroyed.

    DOM elements, widgets and callbacks are identities. What the page does to
    the outside world (running a callback, destroying a widget, asking the
    website for a script, calling its own hooks) is recorded in a log. */
module Pages {
  import opened Wrappers

  /** A callback registered with `attachDestroyFunc` or `attachDestroyElement`. */
  datatype DestroyCallback =
    | Func(func: nat)            // attachDestroyFunc(f)
    | DestroyElement(elem: nat)  // attachDestroyElement(elem): () => elem.destroy()

  /** An element matching `[data-content-script]`: its identity, whether it
      carries the `brandup-ui-element` attribute, and its script name ("" when
      the attribute is empty). */
  datatype ScriptElement = ScriptElement(elem: nat, marked: bool, scriptName: string)

  /** The parts of the navigation model a page reads. */
  datatype PageNav = PageNav(path: string, query: map<string, string>, validationToken: string)

  /** `AntiforgeryOptions`: the header the token travels in. */
  datatype Antiforgery = Antiforgery(headerName: string)

  datatype PageEvent =
    | ScriptRequested(elem: nat, name: string)   // website.getScript(name) resolved later
    | ContentRendered                            // onRenderContent()
    | HashChanged(newHash: string, oldHash: string)  // onChangedHash(newHash, oldHash)
    | FormSubmitted(form: nat, handler: string)  // website.submit(form, null, handler)
    | WidgetDestroyed(widget: nat)               // a mounted script's destroy()
    | CallbackRan(callback: DestroyCallback)     // a destroy callback
    | QueueDestroyed                             // this.queue.destroy()
    | ElementReleased                            // super.destroy()

  /** The outcome of `submit`. */
  datatype SubmitResult = Submitted(form: nat) | FormNotFound

  /** The elements `refreshScripts` asks a script for, in document order: those
      not yet marked as widgets whose script name the website knows. */
  function Requested(elements: seq<ScriptElement>, registry: set<string>): seq<ScriptElement>
    decreases |elements|
  {
    if elements == [] then []
    else
      var last := elements[|elements| - 1];
      Requested(elements[..|elements| - 1], registry) + (if !last.marked && last.scriptName in registry then [last] else [])
  }

  /** An element is asked for iff it is unmarked and its script is known. */
  lemma {:induction false} RequestedExactly(elements: seq<ScriptElement>, registry: set<string>)
    ensures forall e :: e in Requested(elements, registry) ==> e in elements && !e.marked && e.scriptName in registry
    ensures forall e :: e in elements && !e.marked && e.scriptName in registry ==> e in Requested(elements, registry)
    decreases |elements|
  {
    if elements != [] {
      var init := elements[..|elements| - 1];
      RequestedExactly(init, registry);
      assert elements == init + [elements[|elements| - 1]];
    }
  }

  /** One more element extends the selection of a prefix by that element
      when it is selected, and by nothing otherwise. */
  lemma RequestedStep(elements: seq<ScriptElement>, registry: set<string>, i: nat)
    requires i < |elements|
    ensures Requested(elements[..i + 1], registry)
            == Requested(elements[..i], registry)
               + (if !elements[i].marked && elements[i].scriptName in registry then [elements[i]] else [])
  {
    assert elements[..i + 1][..i] == elements[..i];
  }

  /** The log of running the destroy of each mounted widget, in order. */
  function WidgetEvents(widgets: seq<nat>): (es: seq<PageEvent>)
    ensures |es| == |widgets|
    ensures forall i :: 0 <= i < |widgets| ==> es[i] == WidgetDestroyed(widgets[i])
  {
    if widgets == [] then [] else WidgetEvents(widgets[..|widgets| - 1]) + [WidgetDestroyed(widgets[|widgets| - 1])]
  }

  /** The log of running each destroy callback, in registration order. */
  function CallbackEvents(callbacks: seq<DestroyCallback>): (es: seq<PageEvent>)
    ensures |es| == |callbacks|
    ensures forall i :: 0 <= i < |callbacks| ==> es[i] == CallbackRan(callbacks[i])
  {
    if callbacks == [] then [] else CallbackEvents(callbacks[..|callbacks| - 1]) + [CallbackRan(callbacks[|callbacks| - 1])]
  }

  /** The log of `destroy`, given the lists it finds (`None` once nulled). */
  function DestroyEvents(scripts: Option<seq<nat>>, callbacks: Option<seq<DestroyCallback>>): seq<PageEvent> {
    (if scripts.Some? then WidgetEvents(scripts.value) else [])
    + (if callbacks.Some? then CallbackEvents(callbacks.value) else [])
    + [QueueDestroyed, ElementReleased]
  }

  /** Each callback runs exactly once per destroy, in registration order, and
      a destroy that finds both lists nulled runs none. */
  lemma DestroyRunsEachCallbackOnce(scripts: Option<seq<nat>>, callbacks: seq<DestroyCallback>, i: nat)
    requires i < |callbacks|
    ensures var es := DestroyEvents(scripts, Some(callbacks));
            var offset := if scripts.Some? then |scripts.value| else 0;
            es[offset + i] == CallbackRan(callbacks[i])
    ensures forall c :: CallbackRan(c) !in DestroyEvents(None, None)
  {
  }

  /** The headers of a page request after the page's `preRequest` hook
      (base.ts:22-28): the antiforgery token is added under the configured
      header name iff antiforgery is configured and the method is non-empty
      and not "GET". */
  function PreRequest(antiforgery: Option<Antiforgery>, nav: PageNav, httpMethod: string,
                      headers: Option<map<string, string>>): (h: map<string, string>)
    ensures antiforgery.Some? && httpMethod != "GET" && httpMethod != "" ==>
              antiforgery.value.headerName in h && h[antiforgery.value.headerName] == nav.validationToken
    ensures !(antiforgery.Some? && httpMethod != "GET" && httpMethod != "") ==>
              h == (if headers.Some? then headers.value else map[])
    ensures forall k :: k in h && (antiforgery.None? || k != antiforgery.value.headerName) ==>
              headers.Some? && k in headers.value && h[k] == headers.value[k]
    ensures headers.Some? ==> forall k :: k in headers.value && (antiforgery.None? || k != antiforgery.value.headerName) ==>
              k in h && h[k] == headers.value[k]
  {
    var base := if headers.Some? then headers.value else map[];
    if antiforgery.Some? && httpMethod != "GET" && httpMethod != "" then
      base[antiforgery.value.headerName := nav.validationToken]
    else
      base
  }

  class Page {
    const nav: PageNav
    const antiforgery: Option<Antiforgery>
    /** `__destroyCallbacks`, `None` once destroyed. */
    var destroyCallbacks: Option<seq<DestroyCallback>>
    /** `__scripts`: the widgets mounted from the content, each named by the
        element it was built on; `None` once destroyed. */
    var scripts: Option<seq<nat>>
    var isRendered: bool
    /** `__hash`, `None` for null. */
    var hash: Option<string>
    /** Elements whose script was asked for and has not resolved yet; a
        resolution takes its element from here. */
    var pending: seq<ScriptElement>
    var log: seq<PageEvent>

    constructor (nav: PageNav, antiforgery: Option<Antiforgery>)
      ensures this.nav == nav && this.antiforgery == antiforgery
      ensures destroyCallbacks == Some([]) && scripts == Some([])
      ensures !isRendered && hash == None && pending == [] && log == []
    {
      this.nav := nav;
      this.antiforgery := antiforgery;
      destroyCallbacks := Some([]);
      scripts := Some([]);
      isRendered := false;
      hash := None;
      pending := [];
      log := [];
    }

    /** `render(hash)` (base.ts:41-73): only the first call does anything; it
        fixes the hash, asks for the scripts of the content and runs the
        render hook. */
    method Render(h: Option<string>, elements: seq<ScriptElement>, registry: set<string>)
      modifies this`isRendered, this`hash, this`pending, this`log
      ensures isRendered
      ensures old(isRendered) ==> hash == old(hash) && pending == old(pending) && log == old(log)
      ensures !old(isRendered) ==>
                && hash == h
                && pending == old(pending) + Requested(elements, registry)
                && log == old(log) + RequestEvents(Requested(elements, registry)) + [ContentRendered]
    {
      if isRendered {
        return;
      }
      isRendered := true;
      hash := h;
      RefreshScripts(elements, registry);
      log := log + [ContentRendered];
    }

    /** `changedHash(newHash, oldHash)` (base.ts:74-78) */
    method ChangedHash(newHash: string, oldHash: string)
      modifies this`hash, this`log
      ensures hash == Some(newHash)
      ensures log == old(log) + [HashChanged(newHash, oldHash)]
    {
      hash := Some(newHash);
      log := log + [HashChanged(newHash, oldHash)];
    }

    /** `submit(form?, handler?)` (base.ts:79-87): the given form, else the
        document's form named "form"; with neither it throws. */
    method Submit(form: Option<nat>, documentForm: Option<nat>, handler: string) returns (r: SubmitResult)
      modifies this`log
      ensures form.Some? ==> r == Submitted(form.value)
      ensures form.None? && documentForm.Some? ==> r == Submitted(documentForm.value)
      ensures form.None? && documentForm.None? ==> r == FormNotFound && log == old(log)
      ensures r.Submitted? ==> log == old(log) + [FormSubmitted(r.form, handler)]
    {
      var f := form;
      if f.None? {
        f := documentForm;
      }
      if f.None? {
        return FormNotFound;
      }
      log := log + [FormSubmitted(f.value, handler)];
      return Submitted(f.value);
    }

    /** The parameters `buildUrl(queryParams)` passes on with `nav.path`
        (base.ts:88-101): the navigation query, overridden key by key by
        `queryParams`. */
    method BuildParams(queryParams: Option<map<string, string>>) returns (params: map<string, string>)
      ensures queryParams.None? ==> params == nav.query
      ensures queryParams.Some? ==>
                && params.Keys == nav.query.Keys + queryParams.value.Keys
                && (forall k :: k in queryParams.value ==> params[k] == queryParams.value[k])
                && (forall k :: k in nav.query && k !in queryParams.value ==> params[k] == nav.query[k])
    {
      params := map[];
      var keys := nav.query.Keys;
      while keys != {}
        invariant keys <= nav.query.Keys
        invariant params.Keys == nav.query.Keys - keys
        invariant forall k :: k in params ==> params[k] == nav.query[k]
        decreases keys
      {
        var k :| k in keys;
        params := params[k := nav.query[k]];
        keys := keys - {k};
      }
      if queryParams.Some? {
        var given := queryParams.value;
        keys := given.Keys;
        while keys != {}
          invariant keys <= given.Keys
          invariant params.Keys == nav.query.Keys + (given.Keys - keys)
          invariant forall k :: k in given && k !in keys ==> params[k] == given[k]
          invariant forall k :: k in nav.query && k !in given ==> params[k] == nav.query[k]
          invariant forall k :: k in nav.query && k in keys ==> params[k] == nav.query[k]
          decreases keys
        {
          var k :| k in keys;
          params := params[k := given[k]];
          keys := keys - {k};
        }
      }
    }

    /** `refreshScripts()` (base.ts:102-121): every element not yet marked as
        a widget whose script the website knows is asked for. */
    method RefreshScripts(elements: seq<ScriptElement>, registry: set<string>)
      modifies this`pending, this`log
      ensures pending == old(pending) + Requested(elements, registry)
      ensures log == old(log) + RequestEvents(Requested(elements, registry))
    {
      var i := 0;
      var requested: seq<ScriptElement> := [];
      var events: seq<PageEvent> := [];
      while i < |elements|
        invariant 0 <= i <= |elements|
        invariant requested == Requested(elements[..i], registry)
        invariant events == RequestEvents(requested)
        invariant pending == old(pending) && log == old(log)
      {
        var elem := elements[i];
        RequestedStep(elements, registry, i);
        if !elem.marked && elem.scriptName in registry {
          RequestEventsAppend(requested, elem);
          requested := requested + [elem];
          events := events + [ScriptRequested(elem.elem, elem.scriptName)];
        }
        i := i + 1;
      }
      assert elements[..i] == elements;
      pending := pending + requested;
      log := log + events;
    }

    /** The script asked for by `refreshScripts` for `pending[i]` resolves
        (base.ts:110-118): the request is settled, and the widget built on
        that element is mounted, unless the page has been destroyed meanwhile. */
    method ResolveScript(i: nat)
      requires i < |pending|
      modifies this`scripts, this`pending
      ensures pending == old(pending[..i] + pending[i + 1..])
      ensures old(scripts).None? ==> scripts == None
      ensures old(scripts).Some? ==> scripts == Some(old(scripts).value + [old(pending[i]).elem])
    {
      var elem := pending[i];
      pending := pending[..i] + pending[i + 1..];
      if scripts.None? {
        return;
      }
      scripts := Some(scripts.value + [elem.elem]);
    }

    /** `attachDestroyFunc(f)` (base.ts:123-125): appends one callback; after
        destroy the list is null and the push throws. */
    method AttachDestroyFunc(f: nat) returns (ok: bool)
      modifies this`destroyCallbacks
      ensures ok <==> old(destroyCallbacks).Some?
      ensures ok ==> destroyCallbacks == Some(old(destroyCallbacks).value + [Func(f)])
      ensures !ok ==> destroyCallbacks == None
    {
      if destroyCallbacks.None? {
        return false;
      }
      destroyCallbacks := Some(destroyCallbacks.value + [Func(f)]);
      return true;
    }

    /** `attachDestroyElement(elem)` (base.ts:126-128): appends one callback
        that destroys `elem`. */
    method AttachDestroyElement(elem: nat) returns (ok: bool)
      modifies this`destroyCallbacks
      ensures ok <==> old(destroyCallbacks).Some?
      ensures ok ==> destroyCallbacks == Some(old(destroyCallbacks).value + [DestroyElement(elem)])
      ensures !ok ==> destroyCallbacks == None
    {
      if destroyCallbacks.None? {
        return false;
      }
      destroyCallbacks := Some(destroyCallbacks.value + [DestroyElement(elem)]);
      return true;
    }

    /** `destroy()` (base.ts:130-144): destroys every mounted widget, then runs
        every callback in registration order, nulls both lists, and destroys
        the request queue and the element. */
    method Destroy()
      modifies this`scripts, this`destroyCallbacks, this`log
      ensures scripts == None && destroyCallbacks == None
      ensures log == old(log) + DestroyEvents(old(scripts), old(destroyCallbacks))
    {
      if scripts.Some? {
        DestroyWidgets(scripts.value);
        scripts := None;
      }
      if destroyCallbacks.Some? {
        RunCallbacks(destroyCallbacks.value);
        destroyCallbacks := None;
      }
      log := log + [QueueDestroyed, ElementReleased];
    }

    /** `this.__scripts.map((elem) => { elem.destroy(); })` */
    method DestroyWidgets(widgets: seq<nat>)
      modifies this`log
      ensures log == old(log) + WidgetEvents(widgets)
    {
      var i := 0;
      while i < |widgets|
        invariant 0 <= i <= |widgets|
        invariant log == old(log) + WidgetEvents(widgets[..i])
      {
        assert widgets[..i + 1][..i] == widgets[..i];
        log := log + [WidgetDestroyed(widgets[i])];
        i := i + 1;
      }
      assert widgets[..i] == widgets;
    }

    /** `this.__destroyCallbacks.map((f) => { f(); })` */
    method RunCallbacks(callbacks: seq<DestroyCallback>)
      modifies this`log
      ensures log == old(log) + CallbackEvents(callbacks)
    {
      var i := 0;
      while i < |callbacks|
        invariant 0 <= i <= |callbacks|
        invariant log == old(log) + CallbackEvents(callbacks[..i])
      {
        assert callbacks[..i + 1][..i] == callbacks[..i];
        log := log + [CallbackRan(callbacks[i])];
        i := i + 1;
      }
      assert callbacks[..i] == callbacks;
    }
  }

  /** The log entries of the script requests of `refreshScripts`. */
  function RequestEvents(elements: seq<ScriptElement>): (es: seq<PageEvent>)
    ensures |es| == |elements|
    ensures forall i :: 0 <= i < |elements| ==> es[i] == ScriptRequested(elements[i].elem, elements[i].scriptName)
  {
    if elements == [] then []
    else RequestEvents(elements[..|elements| - 1]) + [ScriptRequested(elements[|elements| - 1].elem, elements[|elements| - 1].scriptName)]
  }

  lemma RequestEventsAppend(elements: seq<ScriptElement>, e: ScriptElement)
    ensures RequestEvents(elements + [e]) == RequestEvents(elements) + [ScriptRequested(e.elem, e.scriptName)]
  {
    assert (elements + [e])[..|elements|] == elements;
  }
}
