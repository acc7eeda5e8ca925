/**
 * The session and tab state of the server and the handlers that change it:
 * `launch_browser`, `close_browser`, `new_tab`, `switch_tab`, `close_tab`,
 * and the CallTool handler that routes every tool call and turns every
 * outcome into an envelope.
 */
module Server {
  import opened Wrappers
  import opened Js
  import opened JsMap
  import opened Engine
  import Dispatch
  import Tools

  const NoBrowserMessage := "No browser is running"

  /** The message `switch_tab` and `close_tab` throw for an identifier with no tab. */
  function TabNotFound(id: JsValue): string {
    "Tab " + ToJsString(id) + " not found"
  }

  /** The identifier `new_tab` registers: `args.tab_id || tab_${Date.now()}`. */
  function NewTabId(fields: map<string, JsValue>, clock: nat): (id: JsValue)
    ensures Truthy(Field(fields, "tab_id")) ==> id == Field(fields, "tab_id")
    ensures !Truthy(Field(fields, "tab_id")) ==> id == Str(Tools.GeneratedTabId(clock))
  {
    Or(Field(fields, "tab_id"), Str(Tools.GeneratedTabId(clock)))
  }

  /** The identifier `close_tab` closes: `args.tab_id || 'main'`. */
  function ClosedTabId(fields: map<string, JsValue>): (id: JsValue)
    ensures Truthy(Field(fields, "tab_id")) ==> id == Field(fields, "tab_id")
    ensures !Truthy(Field(fields, "tab_id")) ==> id == Str("main")
  {
    Or(Field(fields, "tab_id"), Str("main"))
  }

  class WebAutomationServer {
    /** The running browser, if any. */
    var browser: Option<Handle>
    /** The tab registry: the `pages` Map in insertion order. */
    var pages: seq<(JsValue, Handle)>
    /** The page that page-scoped tools act on. */
    var currentPage: Option<Handle>
    /** The library's allocation of objects: every handle issued so far is below this. */
    var nextHandle: Handle

    /** With no browser there are no tabs and no current page. */
    predicate BrowserOwnsTabs()
      reads this
    {
      browser.None? ==> pages == [] && currentPage.None?
    }

    /**
     * The invariant every handler keeps. Note what it does not say: the
     * current page need not be registered in `pages`.
     */
    ghost predicate Valid()
      reads this
    {
      && DistinctKeys(pages)
      && DistinctValues(pages)
      && (forall h: Handle :: h in Values(pages) ==> h < nextHandle)
      && (currentPage.Some? ==> currentPage.value < nextHandle)
      && (browser.Some? ==> browser.value < nextHandle)
      && BrowserOwnsTabs()
    }

    /** A fresh server: no browser, no tabs, no current page. */
    constructor ()
      ensures Valid()
      ensures browser.None? && pages == [] && currentPage.None?
    {
      browser := None;
      pages := [];
      currentPage := None;
      nextHandle := 0;
    }

    /** A new object from the library, different from every object issued before. */
    method Allocate() returns (h: Handle)
      modifies this`nextHandle
      ensures h == old(nextHandle) && nextHandle == h + 1
    {
      h := nextHandle;
      nextHandle := nextHandle + 1;
    }

    /**
     * `launch_browser`. With a browser already running it reports so and
     * changes nothing. Otherwise it launches one with the options of
     * `Tools.LaunchOptions`, opens one page and registers it as "main" and
     * as the current page.
     */
    twostate predicate LaunchBrowserOutcome(args: Args, launch: Effect, newPage: Effect, c: Dispatch.Completion)
      reads this
    {
      && (old(browser).Some? ==> c == Dispatch.Returned("Browser is already running") && unchanged(this))
      && (old(browser).None? && args.NoArgs? ==>
            c == Dispatch.Threw(ReadError("headless")) && unchanged(this))
      && (old(browser).None? && args.Fields? && launch.Fails? ==>
            c == Dispatch.Threw(launch.message) && unchanged(this))
      && (old(browser).None? && args.Fields? && launch.Succeeds? && newPage.Fails? ==>
            && c == Dispatch.Threw(newPage.message)
            && browser.Some? && pages == [] && currentPage.None?)
      && (old(browser).None? && args.Fields? && launch.Succeeds? && newPage.Succeeds? ==>
            && c == Dispatch.Returned("Browser launched successfully")
            && browser.Some? && currentPage.Some?
            && currentPage.value >= old(nextHandle)
            && pages == [(Str("main"), currentPage.value)])
    }

    method LaunchBrowser(args: Args, launch: Effect, newPage: Effect) returns (c: Dispatch.Completion)
      requires Valid()
      modifies this
      ensures Valid()
      ensures LaunchBrowserOutcome(args, launch, newPage, c)
    {
      if browser.Some? {
        return Dispatch.Returned("Browser is already running");
      }
      var options := Tools.LaunchOptions(args);
      if options.Failure? {
        return Dispatch.Threw(options.error);
      }
      if launch.Fails? {
        return Dispatch.Threw(launch.message);
      }
      var b := Allocate();
      browser := Some(b);
      if newPage.Fails? {
        return Dispatch.Threw(newPage.message);
      }
      var p := Allocate();
      currentPage := Some(p);
      pages := Set(pages, Str("main"), p);
      c := Dispatch.Returned("Browser launched successfully");
    }

    /**
     * `close_browser`. With no browser it reports so (without throwing) and
     * changes nothing. Otherwise, once the browser has closed, the browser,
     * every tab and the current page are gone.
     */
    twostate predicate CloseBrowserOutcome(close: Effect, c: Dispatch.Completion)
      reads this
    {
      && (old(browser).None? ==> c == Dispatch.Returned(NoBrowserMessage) && unchanged(this))
      && (old(browser).Some? && close.Fails? ==> c == Dispatch.Threw(close.message) && unchanged(this))
      && (old(browser).Some? && close.Succeeds? ==>
            && c == Dispatch.Returned("Browser closed successfully")
            && browser.None? && pages == [] && currentPage.None?
            && nextHandle == old(nextHandle))
    }

    method CloseBrowser(close: Effect) returns (c: Dispatch.Completion)
      requires Valid()
      modifies this
      ensures Valid()
      ensures CloseBrowserOutcome(close, c)
    {
      if browser.None? {
        return Dispatch.Returned(NoBrowserMessage);
      }
      if close.Fails? {
        return Dispatch.Threw(close.message);
      }
      browser := None;
      currentPage := None;
      pages := [];
      c := Dispatch.Returned("Browser closed successfully");
    }

    /**
     * `new_tab`. It needs a browser. It opens a page, then binds the
     * identifier of `NewTabId` to it, replacing any page that identifier
     * had, and only then navigates when a url is given: a failing
     * navigation is reported but the tab stays registered. The current page
     * is never changed.
     */
    twostate predicate NewTabOutcome(args: Args, newPage: Effect, clock: nat, navigate: Effect, c: Dispatch.Completion)
      reads this
    {
      && browser == old(browser) && currentPage == old(currentPage)
      && (old(browser).None? ==> c == Dispatch.Threw(NoBrowserMessage) && unchanged(this))
      && (old(browser).Some? && newPage.Fails? ==> c == Dispatch.Threw(newPage.message) && unchanged(this))
      && (old(browser).Some? && newPage.Succeeds? && args.NoArgs? ==>
            c == Dispatch.Threw(ReadError("tab_id")) && pages == old(pages))
      && (old(browser).Some? && newPage.Succeeds? && args.Fields? ==>
            var id := NewTabId(args.fields, clock);
            && pages == Set(old(pages), id, old(nextHandle))
            && Get(pages, id) == Some(old(nextHandle))
            && (forall k :: k != id ==> Get(pages, k) == Get(old(pages), k))
            && (Truthy(Field(args.fields, "url")) && navigate.Fails? ==> c == Dispatch.Threw(navigate.message))
            && (!(Truthy(Field(args.fields, "url")) && navigate.Fails?) ==>
                  c == Dispatch.Returned("New tab opened with ID: " + ToJsString(id))))
    }

    method NewTab(args: Args, newPage: Effect, clock: nat, navigate: Effect) returns (c: Dispatch.Completion)
      requires Valid()
      modifies this
      ensures Valid()
      ensures NewTabOutcome(args, newPage, clock, navigate, c)
    {
      if browser.None? {
        return Dispatch.Threw(NoBrowserMessage);
      }
      if newPage.Fails? {
        return Dispatch.Threw(newPage.message);
      }
      var p := Allocate();
      if args.NoArgs? {
        return Dispatch.Threw(ReadError("tab_id"));
      }
      var id := NewTabId(args.fields, clock);
      SetPreserves(pages, id, p);
      SetKeys(pages, id, p);
      forall k ensures Get(Set(pages, id, p), k) == if k == id then Some(p) else Get(pages, k) {
        GetSet(pages, id, p, k);
      }
      pages := Set(pages, id, p);
      if Truthy(Field(args.fields, "url")) && navigate.Fails? {
        return Dispatch.Threw(navigate.message);
      }
      c := Dispatch.Returned("New tab opened with ID: " + ToJsString(id));
    }

    /**
     * `switch_tab`. An identifier with no tab throws and changes nothing.
     * Otherwise the current page becomes that tab's page, before the
     * page is brought to the front, so it stays switched when that fails.
     */
    twostate predicate SwitchTabOutcome(args: Args, bringToFront: Effect, c: Dispatch.Completion)
      reads this
    {
      && browser == old(browser) && pages == old(pages) && nextHandle == old(nextHandle)
      && (args.NoArgs? ==> c == Dispatch.Threw(ReadError("tab_id")) && unchanged(this))
      && (args.Fields? && Get(pages, Field(args.fields, "tab_id")).None? ==>
            c == Dispatch.Threw(TabNotFound(Field(args.fields, "tab_id"))) && unchanged(this))
      && (args.Fields? && Get(pages, Field(args.fields, "tab_id")).Some? ==>
            && currentPage == Get(pages, Field(args.fields, "tab_id"))
            && c == if bringToFront.Fails? then Dispatch.Threw(bringToFront.message)
                    else Dispatch.Returned("Switched to tab " + ToJsString(Field(args.fields, "tab_id"))))
    }

    method SwitchTab(args: Args, bringToFront: Effect) returns (c: Dispatch.Completion)
      requires Valid()
      modifies this
      ensures Valid()
      ensures SwitchTabOutcome(args, bringToFront, c)
    {
      if args.NoArgs? {
        return Dispatch.Threw(ReadError("tab_id"));
      }
      var id := Field(args.fields, "tab_id");
      var page := Get(pages, id);
      if page.None? {
        return Dispatch.Threw(TabNotFound(id));
      }
      currentPage := page;
      if bringToFront.Fails? {
        return Dispatch.Threw(bringToFront.message);
      }
      c := Dispatch.Returned("Switched to tab " + ToJsString(id));
    }

    /**
     * `close_tab`. The identifier is `ClosedTabId`. An identifier with no
     * tab throws and changes nothing. Otherwise, once the page has closed,
     * exactly that entry is removed; when its page was the current page,
     * the current page becomes the oldest remaining tab's page, or none.
     */
    twostate predicate CloseTabOutcome(args: Args, closePage: Effect, c: Dispatch.Completion)
      reads this
    {
      && browser == old(browser) && nextHandle == old(nextHandle)
      && (args.NoArgs? ==> c == Dispatch.Threw(ReadError("tab_id")) && unchanged(this))
      && (args.Fields? && Get(old(pages), ClosedTabId(args.fields)).None? ==>
            c == Dispatch.Threw(TabNotFound(ClosedTabId(args.fields))) && unchanged(this))
      && (args.Fields? && Get(old(pages), ClosedTabId(args.fields)).Some? && closePage.Fails? ==>
            c == Dispatch.Threw(closePage.message) && unchanged(this))
      && (args.Fields? && Get(old(pages), ClosedTabId(args.fields)).Some? && closePage.Succeeds? ==>
            var id := ClosedTabId(args.fields);
            var page := Get(old(pages), id).value;
            && c == Dispatch.Returned("Tab " + ToJsString(id) + " closed")
            && pages == Delete(old(pages), id)
            && Get(pages, id).None?
            && page !in Values(pages)
            && (forall k :: k != id ==> Get(pages, k) == Get(old(pages), k))
            && currentPage == if old(currentPage) == Some(page) then First(pages) else old(currentPage))
    }

    method CloseTab(args: Args, closePage: Effect) returns (c: Dispatch.Completion)
      requires Valid()
      modifies this
      ensures Valid()
      ensures CloseTabOutcome(args, closePage, c)
    {
      if args.NoArgs? {
        return Dispatch.Threw(ReadError("tab_id"));
      }
      var id := ClosedTabId(args.fields);
      var page := Get(pages, id);
      if page.None? {
        return Dispatch.Threw(TabNotFound(id));
      }
      if closePage.Fails? {
        return Dispatch.Threw(closePage.message);
      }
      DeletePreserves(pages, id);
      DeleteKeys(pages, id);
      forall k ensures Get(Delete(pages, id), k) == if k == id then None else Get(pages, k) {
        GetDelete(pages, id, k);
      }
      pages := Delete(pages, id);
      if currentPage == page {
        currentPage := First(pages);
      }
      c := Dispatch.Returned("Tab " + ToJsString(id) + " closed");
    }

    /**
     * What the `switch` of the CallTool handler does once the name has
     * selected tool `t`: the five session and tab tools run their handlers,
     * `wait` only replies, and every other tool is forwarded to the
     * current page and changes nothing.
     */
    twostate predicate RunOutcome(t: Dispatch.Tool, args: Args, world: World, c: Dispatch.Completion)
      reads this
    {
      if t.LaunchBrowser? then LaunchBrowserOutcome(args, world.launch, world.newPage, c)
      else if t.CloseBrowser? then CloseBrowserOutcome(world.call, c)
      else if t.NewTab? then NewTabOutcome(args, world.newPage, world.clock, world.call, c)
      else if t.SwitchTab? then SwitchTabOutcome(args, world.call, c)
      else if t.CloseTab? then CloseTabOutcome(args, world.call, c)
      else if t.Wait? then unchanged(this) && c == Tools.WaitReply(args)
      else unchanged(this) && c == Tools.Forward(t, args, currentPage, world.call, world.output)
    }

    method RunTool(t: Dispatch.Tool, args: Args, world: World) returns (c: Dispatch.Completion)
      requires Valid()
      modifies this
      ensures Valid()
      ensures RunOutcome(t, args, world, c)
    {
      if t.LaunchBrowser? {
        c := LaunchBrowser(args, world.launch, world.newPage);
      } else if t.CloseBrowser? {
        c := CloseBrowser(world.call);
      } else if t.NewTab? {
        c := NewTab(args, world.newPage, world.clock, world.call);
      } else if t.SwitchTab? {
        c := SwitchTab(args, world.call);
      } else if t.CloseTab? {
        c := CloseTab(args, world.call);
      } else if t.Wait? {
        c := Tools.WaitReply(args);
      } else {
        c := Tools.Forward(t, args, currentPage, world.call, world.output);
      }
    }

    /**
     * The CallTool request handler. It routes the name to its handler and
     * wraps whatever the handler returns or throws (`c`); it never fails itself.
     */
    method CallTool(name: string, args: Args, world: World) returns (r: Dispatch.Envelope, ghost c: Dispatch.Completion)
      requires Valid()
      modifies this
      ensures Valid()
      ensures r == Dispatch.Wrap(c)
      ensures |r.content| == 1 && r.content[0].kind == "text"
      ensures Dispatch.ToolNamed(name).None? ==>
        c == Dispatch.UnknownTool(name) && r.content[0].text == "Error: Unknown tool: " + name && unchanged(this)
      ensures Dispatch.ToolNamed(name).Some? ==> RunOutcome(Dispatch.ToolNamed(name).value, args, world, c)
    {
      var tool := Dispatch.ToolNamed(name);
      var outcome;
      if tool.None? {
        outcome := Dispatch.UnknownTool(name);
      } else {
        outcome := RunTool(tool.value, args, world);
      }
      c := outcome;
      r := Dispatch.Wrap(outcome);
    }
  }
}
