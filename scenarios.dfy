/**
 * Sequences of tool calls on a fresh server, and what they are proved to do.
 * Each builds its own server, so none changes any state the caller can see.
 * The library calls succeed unless a scenario says otherwise.
 */
module Scenarios {
  import opened Wrappers
  import opened Js
  import opened JsMap
  import opened Engine
  import opened Dispatch
  import Tools
  import opened Server

  function TabArgs(id: string): Args {
    Fields(map["tab_id" := Str(id)])
  }

  /** Two launches without a close: the second reports the running browser and leaves the tabs as they were. */
  method LaunchTwice() returns (second: Completion, tabsBefore: seq<(JsValue, Handle)>, tabsAfter: seq<(JsValue, Handle)>)
    ensures second == Returned("Browser is already running")
    ensures tabsBefore == tabsAfter && |tabsAfter| == 1 && tabsAfter[0].0 == Str("main")
  {
    var s := new WebAutomationServer();
    var first := s.LaunchBrowser(Fields(map[]), Succeeds, Succeeds);
    tabsBefore := s.pages;
    second := s.LaunchBrowser(Fields(map[]), Succeeds, Succeeds);
    tabsAfter := s.pages;
  }

  /** A second close is a no-op that reports that no browser is running. */
  method CloseTwice() returns (first: Completion, second: Completion, tabs: seq<(JsValue, Handle)>)
    ensures first == Returned("Browser closed successfully")
    ensures second == Returned(NoBrowserMessage)
    ensures tabs == []
  {
    var s := new WebAutomationServer();
    var launched := s.LaunchBrowser(Fields(map[]), Succeeds, Succeeds);
    first := s.CloseBrowser(Succeeds);
    second := s.CloseBrowser(Succeeds);
    tabs := s.pages;
  }

  /** Before any launch, every page-scoped tool answers with the no-browser error. */
  method NeverLaunched(name: string, args: Args, world: World) returns (r: Envelope)
    requires ToolNamed(name).Some? && Tools.PageScoped(ToolNamed(name).value)
    ensures |r.content| == 1 && r.content[0].text == "Error: " + Tools.NoPageMessage
  {
    var s := new WebAutomationServer();
    ghost var c;
    r, c := s.CallTool(name, args, world);
  }

  /** An unknown tool name is answered in-band and changes nothing. */
  method UnknownName(name: string, args: Args, world: World) returns (r: Envelope, running: bool)
    requires ToolNamed(name).None?
    ensures r.content == [TextItem("text", "Error: Unknown tool: " + name)]
    ensures running
  {
    var s := new WebAutomationServer();
    var launched := s.LaunchBrowser(Fields(map[]), Succeeds, Succeeds);
    ghost var c;
    r, c := s.CallTool(name, args, world);
    running := s.browser.Some?;
  }

  /** launch, new_tab "t2", switch_tab "t2", close_tab "t2": the current page falls back to "main". */
  method FallBackToMain(url: JsValue) returns (current: Option<Handle>, main: Option<Handle>)
    ensures current.Some? && current == main
  {
    var s := new WebAutomationServer();
    var c := s.LaunchBrowser(Fields(map[]), Succeeds, Succeeds);
    var first := s.pages;
    c := s.NewTab(Fields(map["tab_id" := Str("t2"), "url" := url]), Succeeds, 0, Succeeds);
    SetAppends(first, Str("t2"), s.pages[1].1);
    var two := s.pages;
    c := s.SwitchTab(TabArgs("t2"), Succeeds);
    c := s.CloseTab(TabArgs("t2"), Succeeds);
    DeleteRemovesEntry(two, 1);
    current := s.currentPage;
    main := Get(s.pages, Str("main"));
  }

  /** switch_tab to a missing identifier throws "Tab missing not found" and keeps the current page. */
  method SwitchToMissing() returns (c: Completion, before: Option<Handle>, after: Option<Handle>)
    ensures c == Threw("Tab " + "missing" + " not found")
    ensures before.Some? && before == after
  {
    var s := new WebAutomationServer();
    c := s.LaunchBrowser(Fields(map[]), Succeeds, Succeeds);
    before := s.currentPage;
    c := s.SwitchTab(TabArgs("missing"), Succeeds);
    after := s.currentPage;
  }

  /**
   * launch, then new_tab reusing the identifier "main", then close_tab:
   * the second page replaces the main page in the registry while the
   * current page still is the old main page, and closing "main" closes the
   * new page. The server ends with no tabs and a current page no
   * identifier reaches.
   */
  method Orphan() returns (s: WebAutomationServer)
    ensures fresh(s) && s.Valid()
    ensures s.browser.Some? && s.pages == [] && s.currentPage.Some?
  {
    s := new WebAutomationServer();
    var c := s.LaunchBrowser(Fields(map[]), Succeeds, Succeeds);
    c := s.NewTab(TabArgs("main"), Succeeds, 0, Succeeds);
    c := s.CloseTab(Fields(map[]), Succeeds);
  }

  /** Page-scoped tools still act on the orphaned current page: navigate succeeds. */
  method OrphanedCurrentPage() returns (current: Option<Handle>, tabs: seq<(JsValue, Handle)>, nav: Envelope)
    ensures current.Some? && current.value !in Values(tabs)
    ensures tabs == []
    ensures |nav.content| == 1 && nav.content[0].text == "Navigated to " + "https://example.com"
  {
    var s := Orphan();
    current := s.currentPage;
    tabs := s.pages;
    var args := Fields(map["url" := Str("https://example.com")]);
    assert Tools.Request(Navigate, args) == Success(Tools.Goto(Str("https://example.com"), Str("networkidle2")));
    NameRoundTrip(Navigate);
    assert ToolNamed(Name(Navigate)) == Some(Navigate);
    ghost var outcome;
    nav, outcome := s.CallTool(Name(Navigate), args, World(Succeeds, Succeeds, Succeeds, 0, ""));
    assert outcome == Tools.Forward(Navigate, args, current, Succeeds, "");
    assert outcome == Returned(Tools.Reply(Tools.Goto(Str("https://example.com"), Str("networkidle2")), ""));
  }

  /** A failing navigation in new_tab is reported as an error, yet the tab stays registered. */
  method NavigationFailureKeepsTab(message: string) returns (r: Envelope, tab: Option<Handle>)
    ensures |r.content| == 1 && r.content[0].text == "Error: " + message
    ensures tab.Some?
  {
    var s := new WebAutomationServer();
    var c := s.LaunchBrowser(Fields(map[]), Succeeds, Succeeds);
    c := s.NewTab(Fields(map["tab_id" := Str("t"), "url" := Str("https://unreachable.test")]), Succeeds, 0, Fails(message));
    r := Wrap(c);
    tab := Get(s.pages, Str("t"));
  }

  /**
   * Two new_tab calls without an identifier at the same clock reading get
   * the same identifier: the second replaces the first, so only two tabs exist.
   */
  method SameClockCollides(clock: nat) returns (first: Completion, second: Completion, count: nat)
    ensures first == second == Returned("New tab opened with ID: " + Tools.GeneratedTabId(clock))
    ensures count == 2
  {
    var s := new WebAutomationServer();
    var c := s.LaunchBrowser(Fields(map[]), Succeeds, Succeeds);
    var main, h := s.pages, s.nextHandle;
    var id := Str(Tools.GeneratedTabId(clock));
    first := s.NewTab(Fields(map[]), Succeeds, clock, Succeeds);
    SetAppends(main, id, h);
    var both := s.pages;
    var h2 := s.nextHandle;
    second := s.NewTab(Fields(map[]), Succeeds, clock, Succeeds);
    SetKeepsPosition(both, 1, h2);
    count := |s.pages|;
  }

  /** After the last tab is closed the browser still runs, but page-scoped tools fail as if it did not. */
  method AllTabsClosed() returns (running: bool, r: Envelope)
    ensures running
    ensures |r.content| == 1 && r.content[0].text == "Error: " + Tools.NoPageMessage
  {
    var s := new WebAutomationServer();
    var c := s.LaunchBrowser(Fields(map[]), Succeeds, Succeeds);
    c := s.CloseTab(Fields(map[]), Succeeds);
    running := s.browser.Some?;
    NameRoundTrip(GetPageContent);
    ghost var outcome;
    r, outcome := s.CallTool(Name(GetPageContent), NoArgs, World(Succeeds, Succeeds, Succeeds, 0, ""));
  }

  /** new_tab before any launch throws "No browser is running", which the envelope reports as an error, and adds no tab. */
  method NewTabWithoutBrowser(args: Args, world: World) returns (r: Envelope, tabs: seq<(JsValue, Handle)>)
    ensures |r.content| == 1 && r.content[0].text == "Error: " + NoBrowserMessage
    ensures tabs == []
  {
    var s := new WebAutomationServer();
    NameRoundTrip(NewTab);
    ghost var outcome;
    r, outcome := s.CallTool(Name(NewTab), args, world);
    tabs := s.pages;
  }

  /** close_browser before any launch returns the same sentence as a plain text, not as an error. */
  method CloseWithoutBrowser(args: Args, world: World) returns (r: Envelope)
    ensures r.content == [TextItem("text", NoBrowserMessage)]
  {
    var s := new WebAutomationServer();
    NameRoundTrip(CloseBrowser);
    ghost var outcome;
    r, outcome := s.CallTool(Name(CloseBrowser), args, world);
  }
}
