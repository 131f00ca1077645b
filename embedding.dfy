/** The server side of the website shell, `EmbeddingTagHelperComponent`: it
    fills the `<head>` of every application page with the charset, viewport,
    title, meta, canonical, OpenGraph and start-up script lines, and adds the
    loading state class (and the page's own class) to `<body>`.

    The page title and the serialized client model come from calls whose code
    is not part of this model (`websiteEvents.RenderPageTitle`,
    `jsonHelper.Serialize`); they are parameters here. */
module Embedding {
  import opened Wrappers
  import opened Text

  const LoadingClass := "bp-state-loading"
  /** The indentation every emitted line starts with. */
  const Indent := "    "

  /** `WebsiteOptions.Adaptive`; an empty scale stands for null or empty. */
  datatype AdaptiveOptions = AdaptiveOptions(
    enable: bool,
    width: string,
    initialScale: string,
    minimumScale: string,
    maximumScale: string)

  /** The part of the website options the head needs. */
  datatype SiteOptions = SiteOptions(adaptive: Option<AdaptiveOptions>)

  /** `AppPageModel.OpenGraph`: a null member prints as "", except that a null
      description omits its line. */
  datatype OpenGraphModel = OpenGraphModel(
    ogType: string,
    image: string,
    title: string,
    url: string,
    description: Option<string>)

  /** The members of `AppPageModel` the component reads; "" stands for null or
      empty. */
  datatype AppPageModel = AppPageModel(
    description: string,
    keywords: string,
    canonicalLink: string,
    openGraph: Option<OpenGraphModel>,
    cssClass: string)

  /** `ViewContext.ViewData.Model`: an application page model or anything else. */
  datatype ViewModel = AppPage(model: AppPageModel) | OtherModel

  /** `AntiforgeryModel` of the client model. */
  datatype AntiforgeryModel = AntiforgeryModel(headerName: string, formFieldName: string)

  /** The parts of `AppClientModel` built here; its `Data` and `Nav` members
      are filled by calls outside this model. */
  datatype AppClientModel = AppClientModel(baseUrl: string, antiforgery: Option<AntiforgeryModel>)

  /** The base URL of `GetAppClientModelAsync` (EmbeddingTagHelperComponent.cs:111):
      the request's path base when it has a value, else "/". */
  function BaseUrl(pathBase: string): (url: string)
    ensures url != ""
    ensures pathBase != "" ==> url == pathBase
    ensures pathBase == "" ==> url == "/"
  {
    if pathBase != "" then pathBase else "/"
  }

  /** `GetAppClientModelAsync` up to the calls whose code is not shown: the
      antiforgery member is set iff the antiforgery service exists, from the
      header and form field names of its tokens. */
  function ClientModel(pathBase: string, antiforgeryTokens: Option<AntiforgeryModel>): (m: AppClientModel)
    ensures m.baseUrl == BaseUrl(pathBase)
    ensures m.antiforgery.Some? <==> antiforgeryTokens.Some?
    ensures antiforgeryTokens.Some? ==> m.antiforgery.value == antiforgeryTokens.value
  {
    AppClientModel(BaseUrl(pathBase), antiforgeryTokens)
  }

  // ---------------------------------------------------------------------------
  // The body class (EmbeddingTagHelperComponent.cs:85-97)

  /** The `class` attribute of `<body>` after the component, from the existing
      one ("" when absent or empty) and the page's own class. */
  function BodyClass(existing: string, pageClass: string): (c: string)
    ensures existing != "" && pageClass != "" ==> c == existing + " " + LoadingClass + " " + pageClass
    ensures existing != "" && pageClass == "" ==> c == existing + " " + LoadingClass
    ensures existing == "" && pageClass != "" ==> c == LoadingClass + " " + pageClass
    ensures existing == "" && pageClass == "" ==> c == LoadingClass
  {
    var withLoading := if existing != "" then existing + " " + LoadingClass else LoadingClass;
    if pageClass != "" then withLoading + " " + pageClass else withLoading
  }

  /** `s` occurs in `t` at position `k`. */
  predicate OccursAt(s: string, t: string, k: nat) {
    k + |s| <= |t| && t[k..k + |s|] == s
  }

  /** The loading class is always in the body class, as a whole word: right
      after the existing classes and a space, or at the very start. */
  lemma BodyClassHasLoading(existing: string, pageClass: string)
    ensures var c := BodyClass(existing, pageClass);
            var k := if existing != "" then |existing| + 1 else 0;
            && OccursAt(LoadingClass, c, k)
            && (k == 0 || c[k - 1] == ' ')
            && (k + |LoadingClass| == |c| || c[k + |LoadingClass|] == ' ')
  {
    var c := BodyClass(existing, pageClass);
    var k := if existing != "" then |existing| + 1 else 0;
    var withLoading := if existing != "" then existing + " " + LoadingClass else LoadingClass;
    assert withLoading[k..k + |LoadingClass|] == LoadingClass;
    assert c[..|withLoading|] == withLoading;
    assert c[k..k + |LoadingClass|] == withLoading[k..k + |LoadingClass|];
  }

  // ---------------------------------------------------------------------------
  // The head lines (EmbeddingTagHelperComponent.cs:37-79)

  /** A line the component appends to `<head>`; `Render` gives its text. */
  datatype HeadLine =
    | Charset
    | Viewport(params: seq<string>)
    | Title(title: string)
    | MetaName(name: string, content: string)
    | Canonical(href: string)
    | OgProperty(name: string, content: string, selfClosing: bool)
    | InitScript(clientJson: string)

  /** The text of a line: indented, ended with `newLine` (`Environment.NewLine`). */
  function Render(l: HeadLine, newLine: string): (text: string)
    ensures |text| >= |Indent| + |newLine|
    ensures text[..|Indent|] == Indent && text[|text| - |newLine|..] == newLine
  {
    var body := match l
      case Charset => "<meta charset=\"utf-8\" />"
      case Viewport(ps) => "<meta name=\"viewport\" content=\"" + Join(", ", ps) + "\" />"
      case Title(t) => "<title>" + t + "</title>"
      case MetaName(name, content) => "<meta name=\"" + name + "\" content=\"" + content + "\">"
      case Canonical(href) => "<link rel=\"canonical\" href=\"" + href + "\">"
      case OgProperty(name, content, selfClosing) =>
        "<meta property=\"og:" + name + "\" content=\"" + content + "\"" + (if selfClosing then " />" else ">")
      case InitScript(json) => "<script>var appInitOptions = " + json + "</script>";
    assert (Indent + body + newLine)[..|Indent|] == Indent;
    assert (Indent + body + newLine)[|Indent + body|..] == newLine;
    Indent + body + newLine
  }

  /** The viewport parameters: width and initial scale, then the minimum and
      the maximum scale when set, both labelled `initial-scale=` as written. */
  function ViewportParams(a: AdaptiveOptions): (ps: seq<string>)
    ensures 2 <= |ps| <= 4
    ensures ps[0] == "width=" + a.width && ps[1] == "initial-scale=" + a.initialScale
    ensures |ps| == 2 + (if a.minimumScale != "" then 1 else 0) + (if a.maximumScale != "" then 1 else 0)
    ensures forall i :: 2 <= i < |ps| ==> |ps[i]| >= 14 && ps[i][..14] == "initial-scale="
    ensures a.minimumScale != "" ==> ps[2] == "initial-scale=" + a.minimumScale
    ensures a.maximumScale != "" ==> ps[|ps| - 1] == "initial-scale=" + a.maximumScale
  {
    ["width=" + a.width, "initial-scale=" + a.initialScale]
    + (if a.minimumScale != "" then ["initial-scale=" + a.minimumScale] else [])
    + (if a.maximumScale != "" then ["initial-scale=" + a.maximumScale] else [])
  }

  /** `string.Join(sep, items)` */
  function Join(sep: string, items: seq<string>): (s: string)
    ensures items == [] ==> s == ""
    ensures |items| == 1 ==> s == items[0]
    decreases |items|
  {
    if items == [] then ""
    else if |items| == 1 then items[0]
    else Join(sep, items[..|items| - 1]) + sep + items[|items| - 1]
  }

  /** The joined text starts with the first item, and its length is the items'
      lengths plus one separator between each two. */
  lemma {:induction false} JoinShape(sep: string, items: seq<string>)
    requires items != []
    ensures items[0] <= Join(sep, items)
    ensures |Join(sep, items)| == SumLengths(items) + (|items| - 1) * |sep|
    decreases |items|
  {
    if |items| > 1 {
      var init := items[..|items| - 1];
      JoinShape(sep, init);
      SumLengthsAppend(init, items[|items| - 1]);
      assert items == init + [items[|items| - 1]];
    }
  }

  function SumLengths(items: seq<string>): nat
    decreases |items|
  {
    if items == [] then 0 else SumLengths(items[..|items| - 1]) + |items[|items| - 1]|
  }

  lemma SumLengthsAppend(items: seq<string>, s: string)
    ensures SumLengths(items + [s]) == SumLengths(items) + |s|
  {
    assert (items + [s])[..|items|] == items;
  }

  /** The viewport line, emitted only when adaptivity is configured and enabled. */
  function ViewportLines(options: SiteOptions): (ls: seq<HeadLine>)
    ensures |ls| <= 1
    ensures |ls| == 1 <==> options.adaptive.Some? && options.adaptive.value.enable
    ensures |ls| == 1 ==> ls[0] == Viewport(ViewportParams(options.adaptive.value))
  {
    if options.adaptive.Some? && options.adaptive.value.enable then
      [Viewport(ViewportParams(options.adaptive.value))]
    else []
  }

  /** The description, keywords and canonical lines, each iff its value is
      non-empty, in that order. */
  function MetaLines(m: AppPageModel): (ls: seq<HeadLine>)
    ensures |ls| == (if m.description != "" then 1 else 0) + (if m.keywords != "" then 1 else 0)
                    + (if m.canonicalLink != "" then 1 else 0)
    ensures m.description != "" ==> ls[0] == MetaName("description", m.description)
    ensures m.canonicalLink != "" ==> ls[|ls| - 1] == Canonical(m.canonicalLink)
    ensures m.keywords != "" ==> ls[if m.description != "" then 1 else 0] == MetaName("keywords", m.keywords)
  {
    (if m.description != "" then [MetaName("description", m.description)] else [])
    + (if m.keywords != "" then [MetaName("keywords", m.keywords)] else [])
    + (if m.canonicalLink != "" then [Canonical(m.canonicalLink)] else [])
  }

  /** The OpenGraph lines: type, image, title and url, then the description
      when it is not null (the only self-closing one); none without OpenGraph. */
  function OgLines(og: Option<OpenGraphModel>): (ls: seq<HeadLine>)
    ensures og.None? ==> ls == []
    ensures og.Some? ==> |ls| == 4 + (if og.value.description.Some? then 1 else 0)
    ensures og.Some? ==> ls[..4] == [OgProperty("type", og.value.ogType, false),
                                     OgProperty("image", og.value.image, false),
                                     OgProperty("title", og.value.title, false),
                                     OgProperty("url", og.value.url, false)]
    ensures og.Some? && og.value.description.Some? ==>
              ls[4] == OgProperty("description", og.value.description.value, true)
  {
    match og
    case None => []
    case Some(g) =>
      [OgProperty("type", g.ogType, false),
       OgProperty("image", g.image, false),
       OgProperty("title", g.title, false),
       OgProperty("url", g.url, false)]
      + (if g.description.Some? then [OgProperty("description", g.description.value, true)] else [])
  }

  /** Each of the description, keywords and canonical lines is present exactly
      when its value is non-empty. */
  lemma MetaLinesPresence(m: AppPageModel)
    ensures MetaName("description", m.description) in MetaLines(m) <==> m.description != ""
    ensures MetaName("keywords", m.keywords) in MetaLines(m) <==> m.keywords != ""
    ensures Canonical(m.canonicalLink) in MetaLines(m) <==> m.canonicalLink != ""
  {
  }

  /** Every OpenGraph line is a property line, and only the description one is
      self-closing. */
  lemma OgLinesSelfClosing(og: Option<OpenGraphModel>)
    ensures forall l :: l in OgLines(og) ==> l.OgProperty? && (l.selfClosing <==> l.name == "description")
  {
  }

  /** Everything the component appends to `<head>`, in order. */
  function HeadLines(m: AppPageModel, options: SiteOptions, title: Option<string>, clientJson: string): seq<HeadLine> {
    [Charset]
    + ViewportLines(options)
    + [Title(title.GetOr(""))]
    + MetaLines(m)
    + OgLines(m.openGraph)
    + [InitScript(clientJson)]
  }

  /** The head starts with the charset line, then the viewport line when there
      is one, then always the title line (with "" for a null title); the
      start-up script comes last, and the meta and OpenGraph lines lie in
      between, in that order. */
  lemma HeadLayout(m: AppPageModel, options: SiteOptions, title: Option<string>, clientJson: string)
    ensures var ls := HeadLines(m, options, title, clientJson);
            var v := |ViewportLines(options)|;
            var k := 2 + v + |MetaLines(m)|;
            && |ls| == 3 + v + |MetaLines(m)| + |OgLines(m.openGraph)|
            && ls[0] == Charset
            && ls[1 + v] == Title(title.GetOr(""))
            && ls[2 + v..k] == MetaLines(m)
            && ls[k..|ls| - 1] == OgLines(m.openGraph)
            && ls[|ls| - 1] == InitScript(clientJson)
  {
    var v := ViewportLines(options);
    var meta := MetaLines(m);
    var og := OgLines(m.openGraph);
    var ls := HeadLines(m, options, title, clientJson);
    assert ls == [Charset] + v + [Title(title.GetOr(""))] + meta + og + [InitScript(clientJson)];
    assert ls[2 + |v|..2 + |v| + |meta|] == meta;
    assert ls[2 + |v| + |meta|..|ls| - 1] == og;
  }

  /** "head" and "body" are different tags whatever the case of the name. */
  lemma HeadIsNotBody(tagName: string)
    ensures !(EqualsIgnoreCase(tagName, "head") && EqualsIgnoreCase(tagName, "body"))
  {
    LowerOfLowerCase("head");
    LowerOfLowerCase("body");
    assert "head"[0] != "body"[0];
  }

  /** `TagHelperOutput`: the lines appended to the post-content (their text is
      `Render` of each) and the attributes of the tag. */
  class TagHelperOutput {
    var postContent: seq<HeadLine>
    var attributes: map<string, string>

    constructor (attributes: map<string, string>)
      ensures postContent == [] && this.attributes == attributes
    {
      postContent := [];
      this.attributes := attributes;
    }
  }

  /** The viewport step (EmbeddingTagHelperComponent.cs:38-51): the parameter
      list is built with `Add` and joined. */
  method AppendViewport(options: SiteOptions, output: TagHelperOutput)
    modifies output`postContent
    ensures output.postContent == old(output.postContent) + ViewportLines(options)
  {
    if options.adaptive.Some? && options.adaptive.value.enable {
      var a := options.adaptive.value;
      var viewportParams := ["width=" + a.width, "initial-scale=" + a.initialScale];
      if a.minimumScale != "" {
        viewportParams := viewportParams + ["initial-scale=" + a.minimumScale];
      }
      if a.maximumScale != "" {
        viewportParams := viewportParams + ["initial-scale=" + a.maximumScale];
      }
      assert viewportParams == ViewportParams(a);
      output.postContent := output.postContent + [Viewport(viewportParams)];
    }
  }

  /** The description, keywords and canonical step (EmbeddingTagHelperComponent.cs:57-64). */
  method AppendMeta(m: AppPageModel, output: TagHelperOutput)
    modifies output`postContent
    ensures output.postContent == old(output.postContent) + MetaLines(m)
  {
    if m.description != "" {
      output.postContent := output.postContent + [MetaName("description", m.description)];
    }
    if m.keywords != "" {
      output.postContent := output.postContent + [MetaName("keywords", m.keywords)];
    }
    if m.canonicalLink != "" {
      output.postContent := output.postContent + [Canonical(m.canonicalLink)];
    }
  }

  /** The OpenGraph step (EmbeddingTagHelperComponent.cs:66-75). */
  method AppendOpenGraph(openGraph: Option<OpenGraphModel>, output: TagHelperOutput)
    modifies output`postContent
    ensures output.postContent == old(output.postContent) + OgLines(openGraph)
  {
    if openGraph.Some? {
      var og := openGraph.value;
      output.postContent := output.postContent + [OgProperty("type", og.ogType, false)];
      output.postContent := output.postContent + [OgProperty("image", og.image, false)];
      output.postContent := output.postContent + [OgProperty("title", og.title, false)];
      output.postContent := output.postContent + [OgProperty("url", og.url, false)];
      if og.description.Some? {
        output.postContent := output.postContent + [OgProperty("description", og.description.value, true)];
      }
    }
  }

  /** The `<head>` branch of `ProcessAsync` (EmbeddingTagHelperComponent.cs:35-81). */
  method AppendHead(m: AppPageModel, options: SiteOptions, renderedTitle: Option<string>,
                    clientJson: string, output: TagHelperOutput)
    modifies output`postContent
    ensures output.postContent == old(output.postContent) + HeadLines(m, options, renderedTitle, clientJson)
  {
    ghost var before := output.postContent;
    output.postContent := output.postContent + [Charset];
    AppendViewport(options, output);
    output.postContent := output.postContent + [Title(renderedTitle.GetOr(""))];
    AppendMeta(m, output);
    AppendOpenGraph(m.openGraph, output);
    output.postContent := output.postContent + [InitScript(clientJson)];
    AppendSix(before, [Charset], ViewportLines(options), [Title(renderedTitle.GetOr(""))],
              MetaLines(m), OgLines(m.openGraph), [InitScript(clientJson)]);
  }

  /** Six appends one after the other append their concatenation. */
  lemma AppendSix<T>(s: seq<T>, a: seq<T>, b: seq<T>, c: seq<T>, d: seq<T>, e: seq<T>, f: seq<T>)
    ensures s + a + b + c + d + e + f == s + (a + b + c + d + e + f)
  {
  }

  /** The `<body>` branch of `ProcessAsync` (EmbeddingTagHelperComponent.cs:85-97). */
  method SetBodyClass(m: AppPageModel, output: TagHelperOutput)
    modifies output`attributes
    ensures output.attributes == old(output.attributes)["class" :=
              BodyClass(if "class" in old(output.attributes) then old(output.attributes)["class"] else "", m.cssClass)]
  {
    var cssClass := "";
    if "class" in output.attributes {
      cssClass := output.attributes["class"];
    }
    if cssClass != "" {
      cssClass := cssClass + " " + LoadingClass;
    } else {
      cssClass := LoadingClass;
    }
    if m.cssClass != "" {
      cssClass := cssClass + " " + m.cssClass;
    }
    output.attributes := output.attributes["class" := cssClass];
  }

  /** `ProcessAsync(context, output)` (EmbeddingTagHelperComponent.cs:29-102):
      for an application page, the `<head>` tag receives its lines and the
      `<body>` tag its class; any other tag or model is left alone. */
  method ProcessAsync(tagName: string, viewModel: ViewModel, options: SiteOptions, renderedTitle: Option<string>,
                      clientJson: string, output: TagHelperOutput)
    modifies output
    ensures viewModel.AppPage? && EqualsIgnoreCase(tagName, "head") ==>
              output.postContent == old(output.postContent) + HeadLines(viewModel.model, options, renderedTitle, clientJson)
              && output.attributes == old(output.attributes)
    ensures viewModel.AppPage? && EqualsIgnoreCase(tagName, "body") ==>
              output.postContent == old(output.postContent)
              && output.attributes == old(output.attributes)["class" :=
                   BodyClass(if "class" in old(output.attributes) then old(output.attributes)["class"] else "", viewModel.model.cssClass)]
    ensures viewModel.OtherModel? || (!EqualsIgnoreCase(tagName, "head") && !EqualsIgnoreCase(tagName, "body")) ==>
              output.postContent == old(output.postContent) && output.attributes == old(output.attributes)
  {
    HeadIsNotBody(tagName);
    if viewModel.AppPage? {
      if EqualsIgnoreCase(tagName, "head") {
        AppendHead(viewModel.model, options, renderedTitle, clientJson, output);
      } else if EqualsIgnoreCase(tagName, "body") {
        SetBodyClass(viewModel.model, output);
      }
    }
  }
}
