/**
 * The page-scoped tools and `wait`: the guard that every page-scoped tool
 * passes first (`getCurrentPage`), the arguments each tool reads with their
 * defaults, the library call it makes on the current page, and the text it
 * returns. The library call itself is opaque.
 */
module Tools {
  import opened Wrappers
  import opened Js
  import opened Engine
  import opened Dispatch

  const NoPageMessage := "No browser is running. Please launch a browser first."

  /** `getCurrentPage`: the current page, or the error every page-scoped tool throws without one. */
  function RequirePage(current: Option<Handle>): (r: Result<Handle>)
    ensures r.Failure? <==> current.None?
    ensures r.Failure? ==> r.error == NoPageMessage
    ensures r.Success? ==> current == Some(r.value)
  {
    if current.None? then Failure(NoPageMessage) else Success(current.value)
  }

  /** The tools whose handler starts with `getCurrentPage`. */
  predicate PageScoped(t: Tool) {
    !(t.LaunchBrowser? || t.CloseBrowser? || t.Wait? || t.NewTab? || t.SwitchTab? || t.CloseTab?)
  }

  /** What `scroll` asks the page to do. */
  datatype Motion = ToTop | ToBottom | ScrollBy(amount: JsValue, upward: bool) | Motionless

  /** The branches of `scroll`; a direction it does not recognise, or a falsy amount, does nothing. */
  function ScrollMotion(direction: JsValue, amount: JsValue): (m: Motion)
    ensures m.Motionless? <==>
      direction != Str("top") && direction != Str("bottom") &&
      !((direction == Str("down") || direction == Str("up")) && Truthy(amount))
    ensures m.ScrollBy? ==> m.amount == amount && (m.upward <==> direction == Str("up"))
  {
    if direction == Str("top") then ToTop
    else if direction == Str("bottom") then ToBottom
    else if direction == Str("down") && Truthy(amount) then ScrollBy(amount, false)
    else if direction == Str("up") && Truthy(amount) then ScrollBy(amount, true)
    else Motionless
  }

  /** The library call a page-scoped tool makes, with its options after defaulting. */
  datatype PageCall =
    | Goto(url: JsValue, waitUntil: JsValue)
    | ClickOn(selector: JsValue, clickCount: JsValue, delay: JsValue)
    | TypeInto(selector: JsValue, text: JsValue, delay: JsValue, clearFirst: bool)
    | ReadText(selector: JsValue, all: bool)
    | ShootElement(selector: JsValue, path: JsValue)
    | ShootPage(path: JsValue, fullPage: JsValue)
    | AwaitSelector(selector: JsValue, timeout: JsValue)
    | Evaluate(script: JsValue)
    | HistoryBack
    | HistoryForward
    | Reload
    | ReadContent
    | SelectIn(selector: JsValue, value: JsValue)
    | HoverOver(selector: JsValue)
    | Press(key: JsValue)
    | ScrollPage(direction: JsValue, motion: Motion)
    | ReadCookies
    | PutCookie(name: JsValue, value: JsValue, domain: JsValue)
    | WipeCookies
    | FillFields(fields: JsValue)
    | ReadLinks(filter: JsValue)
    | ReadTable(selector: JsValue, includeHeaders: bool)

  /** Whether the call reaches the library at all (a motionless scroll does not). */
  predicate ReachesLibrary(call: PageCall) {
    !(call.ScrollPage? && call.motion.Motionless?)
  }

  /** The tools that read no argument at all. */
  predicate ReadsNoArguments(t: Tool) {
    t.GoBack? || t.GoForward? || t.Refresh? || t.GetPageContent? || t.GetCookies? || t.ClearCookies?
  }

  /** The field a page-scoped tool reads first; reading it is what throws when there is no arguments object. */
  function FirstField(t: Tool): string
    requires PageScoped(t) && !ReadsNoArguments(t)
  {
    match t
    case Navigate => "url"
    case TypeText => "clear_first"
    case GetText => "all"
    case ExecuteJavascript => "script"
    case PressKey => "key"
    case Scroll => "direction"
    case SetCookie => "name"
    case FillForm => "fields"
    case ExtractLinks => "filter"
    case _ => "selector"
  }

  /** The library call each page-scoped tool builds from the fields of its arguments object. */
  function CallFor(t: Tool, f: map<string, JsValue>): PageCall
    requires PageScoped(t)
  {
    match t
    case Navigate => Goto(Field(f, "url"), Or(Field(f, "wait_until"), Str("networkidle2")))
    case Click => ClickOn(Field(f, "selector"), Or(Field(f, "click_count"), Num(1)), Or(Field(f, "delay"), Num(0)))
    case TypeText =>
      TypeInto(Field(f, "selector"), Field(f, "text"), Or(Field(f, "delay"), Num(0)), Truthy(Field(f, "clear_first")))
    case GetText => ReadText(Field(f, "selector"), Truthy(Field(f, "all")))
    case TakeScreenshot =>
      if Truthy(Field(f, "selector")) then ShootElement(Field(f, "selector"), Field(f, "filename"))
      else ShootPage(Field(f, "filename"), Or(Field(f, "full_page"), Bool(false)))
    case WaitForElement => AwaitSelector(Field(f, "selector"), Or(Field(f, "timeout"), Num(30000)))
    case ExecuteJavascript => Evaluate(Field(f, "script"))
    case GoBack => HistoryBack
    case GoForward => HistoryForward
    case Refresh => Reload
    case GetPageContent => ReadContent
    case SelectOption => SelectIn(Field(f, "selector"), Field(f, "value"))
    case Hover => HoverOver(Field(f, "selector"))
    case PressKey => Press(Field(f, "key"))
    case Scroll => ScrollPage(Field(f, "direction"), ScrollMotion(Field(f, "direction"), Field(f, "amount")))
    case GetCookies => ReadCookies
    case SetCookie => PutCookie(Field(f, "name"), Field(f, "value"), Field(f, "domain"))
    case ClearCookies => WipeCookies
    case FillForm => FillFields(Field(f, "fields"))
    case ExtractLinks => ReadLinks(Field(f, "filter"))
    case ExtractTable => ReadTable(Field(f, "selector"), NotFalse(Field(f, "include_headers")))
  }

  /**
   * The argument reads of a page-scoped tool: with no arguments object the
   * first read throws; otherwise every read succeeds and builds the call.
   */
  function Request(t: Tool, args: Args): (r: Result<PageCall>)
    requires PageScoped(t)
    ensures r.Failure? <==> args.NoArgs? && !ReadsNoArguments(t)
    ensures r.Failure? ==> r.error == ReadError(FirstField(t))
  {
    match args
    case NoArgs => if ReadsNoArguments(t) then Success(CallFor(t, map[])) else Failure(ReadError(FirstField(t)))
    case Fields(f) => Success(CallFor(t, f))
  }

  /** The calls whose reply is data produced by the library rather than a fixed sentence. */
  predicate RepliesWithData(call: PageCall) {
    call.ReadText? || call.Evaluate? || call.ReadContent? || call.ReadCookies? || call.ReadLinks? || call.ReadTable?
  }

  /** The text a page-scoped tool returns after its library call completes. */
  function Reply(call: PageCall, output: string): (r: string)
    ensures RepliesWithData(call) ==> r == output
    ensures !RepliesWithData(call) ==> |r| > 0
  {
    match call
    case Goto(url, _) => "Navigated to " + ToJsString(url)
    case ClickOn(selector, _, _) => "Clicked " + ToJsString(selector)
    case TypeInto(selector, _, _, _) => "Typed text into " + ToJsString(selector)
    case ShootElement(_, path) => "Screenshot saved to " + ToJsString(path)
    case ShootPage(path, _) => "Screenshot saved to " + ToJsString(path)
    case AwaitSelector(selector, _) => "Element " + ToJsString(selector) + " appeared"
    case HistoryBack => "Navigated back"
    case HistoryForward => "Navigated forward"
    case Reload => "Page refreshed"
    case SelectIn(selector, value) => "Selected " + ToJsString(value) + " in " + ToJsString(selector)
    case HoverOver(selector) => "Hovered over " + ToJsString(selector)
    case Press(key) => "Pressed " + ToJsString(key)
    case ScrollPage(direction, _) => "Scrolled " + ToJsString(direction)
    case PutCookie(name, _, _) => "Cookie " + ToJsString(name) + " set"
    case WipeCookies => "All cookies cleared"
    case FillFields(_) => "Form filled successfully"
    case ReadText(_, _) => output
    case Evaluate(_) => output
    case ReadContent => output
    case ReadCookies => output
    case ReadLinks(_) => output
    case ReadTable(_, _) => output
  }

  /**
   * The handler of a page-scoped tool: the guard, then the argument reads,
   * then the library call on the current page, then the reply.
   */
  function Forward(t: Tool, args: Args, current: Option<Handle>, call: Effect, output: string): (c: Completion)
    requires PageScoped(t)
    ensures current.None? ==> c == Threw(NoPageMessage)
    ensures current.Some? && args.NoArgs? && !ReadsNoArguments(t) ==> c.Threw? && c.message == Request(t, args).error
    ensures current.Some? && Request(t, args).Success? ==>
      var pc := Request(t, args).value;
      c == if ReachesLibrary(pc) && call.Fails? then Threw(call.message) else Returned(Reply(pc, output))
  {
    match RequirePage(current)
    case Failure(e) => Threw(e)
    case Success(_) =>
      match Request(t, args)
      case Failure(e) => Threw(e)
      case Success(pc) =>
        if ReachesLibrary(pc) && call.Fails? then Threw(call.message) else Returned(Reply(pc, output))
  }

  /** Without a current page, every page-scoped tool throws the same error, whatever its arguments and the library do. */
  lemma GuardComesFirst(t: Tool, args: Args, call: Effect, output: string)
    requires PageScoped(t)
    ensures Wrap(Forward(t, args, None, call, output)).content[0].text == "Error: " + NoPageMessage
  {
  }

  /** A tool that reads arguments throws when there is no arguments object, naming the first field its handler reads. */
  lemma MissingArgumentsThrow(t: Tool)
    requires PageScoped(t)
    ensures Request(t, NoArgs).Failure? <==> !ReadsNoArguments(t)
    ensures t.Navigate? ==> Request(t, NoArgs).error == ReadError("url")
    ensures t.TypeText? ==> Request(t, NoArgs).error == ReadError("clear_first")
    ensures t.Click? ==> Request(t, NoArgs).error == ReadError("selector")
    ensures t.Scroll? ==> Request(t, NoArgs).error == ReadError("direction")
  {
  }

  /** With an arguments object, argument reads never throw. */
  lemma ArgumentsObjectNeverThrows(t: Tool, fields: map<string, JsValue>)
    requires PageScoped(t)
    ensures Request(t, Fields(fields)).Success?
  {
  }

  /** The `||` defaults replace every falsy value, 0 and "" included. */
  lemma OrDefaults(fields: map<string, JsValue>)
    ensures var r := Request(Navigate, Fields(fields)).value;
      !Truthy(Field(fields, "wait_until")) ==> r.waitUntil == Str("networkidle2")
    ensures var r := Request(Click, Fields(fields)).value;
      (!Truthy(Field(fields, "click_count")) ==> r.clickCount == Num(1)) &&
      (!Truthy(Field(fields, "delay")) ==> r.delay == Num(0))
    ensures var r := Request(TypeText, Fields(fields)).value;
      !Truthy(Field(fields, "delay")) ==> r.delay == Num(0)
    ensures var r := Request(WaitForElement, Fields(fields)).value;
      (!Truthy(Field(fields, "timeout")) ==> r.timeout == Num(30000)) &&
      (Truthy(Field(fields, "timeout")) ==> r.timeout == Field(fields, "timeout"))
    ensures var r := Request(TakeScreenshot, Fields(fields)).value;
      !Truthy(Field(fields, "selector")) ==> r.ShootPage? && (!Truthy(Field(fields, "full_page")) ==> r.fullPage == Bool(false))
  {
  }

  /** `include_headers` is on unless it is exactly false. */
  lemma IncludeHeadersDefault(fields: map<string, JsValue>)
    ensures var r := Request(ExtractTable, Fields(fields)).value;
      r.includeHeaders <==> Field(fields, "include_headers") != Bool(false)
    ensures "include_headers" !in fields ==> Request(ExtractTable, Fields(fields)).value.includeHeaders
  {
  }

  /** The options `launch_browser` hands to `puppeteer.launch`. */
  datatype LaunchConfig = LaunchConfig(headless: JsValue, width: JsValue, height: JsValue)

  /** `headless`, `viewport_width` and `viewport_height`, each defaulted with `??`. */
  function LaunchOptions(args: Args): (r: Result<LaunchConfig>)
    ensures r.Failure? <==> args.NoArgs?
    ensures r.Failure? ==> r.error == ReadError("headless")
  {
    match args
    case NoArgs => Failure(ReadError("headless"))
    case Fields(f) =>
      Success(LaunchConfig(
        Coalesce(Field(f, "headless"), Bool(false)),
        Coalesce(Field(f, "viewport_width"), Num(1920)),
        Coalesce(Field(f, "viewport_height"), Num(1080))))
  }

  /** The `??` defaults fill in only missing or null options: false, 0 and "" are passed on unchanged. */
  lemma LaunchDefaults(fields: map<string, JsValue>)
    ensures var cfg := LaunchOptions(Fields(fields)).value;
      && (IsNullish(Field(fields, "headless")) ==> cfg.headless == Bool(false))
      && (!IsNullish(Field(fields, "headless")) ==> cfg.headless == Field(fields, "headless"))
      && (IsNullish(Field(fields, "viewport_width")) ==> cfg.width == Num(1920))
      && (!IsNullish(Field(fields, "viewport_width")) ==> cfg.width == Field(fields, "viewport_width"))
      && (IsNullish(Field(fields, "viewport_height")) ==> cfg.height == Num(1080))
      && (!IsNullish(Field(fields, "viewport_height")) ==> cfg.height == Field(fields, "viewport_height"))
    ensures var cfg := LaunchOptions(Fields(map["headless" := Bool(false), "viewport_width" := Num(0)])).value;
      cfg.headless == Bool(false) && cfg.width == Num(0) && cfg.height == Num(1080)
  {
  }

  /** The `wait` handler: it sleeps for `duration` (time is not modelled) and reports it. */
  function WaitReply(args: Args): (c: Completion)
    ensures args.NoArgs? ==> c == Threw(ReadError("duration"))
    ensures args.Fields? ==> c == Returned("Waited " + ToJsString(Field(args.fields, "duration")) + "ms")
  {
    match Prop(args, "duration")
    case Failure(e) => Threw(e)
    case Success(d) => Returned("Waited " + ToJsString(d) + "ms")
  }

  /** The identifier `tab_${Date.now()}` that `new_tab` generates from a clock reading. */
  function GeneratedTabId(clock: nat): (id: string)
    ensures |id| > 4 && id[..4] == "tab_" && id[4..] == NatToString(clock)
  {
    "tab_" + NatToString(clock)
  }

  /** Generated identifiers collide exactly when the clock readings are equal. */
  lemma GeneratedTabIdsDistinct(c1: nat, c2: nat)
    ensures GeneratedTabId(c1) == GeneratedTabId(c2) <==> c1 == c2
  {
    if GeneratedTabId(c1) == GeneratedTabId(c2) {
      NatToStringInjective(c1, c2);
    }
  }
}
