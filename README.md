# web-automation-mcp: the session and tab state machine

The server exposes browser automation as tools of the Model Context
Protocol. Almost every tool forwards to Puppeteer. The one piece with
behaviour of its own is the session and tab state of the
`WebAutomationServer` class. It has three fields:

- the running `browser`, which may be absent;
- the `pages` Map from tab identifier to page;
- the `currentPage` that page-scoped tools act on.

Five handlers change that state: `launchBrowser`, `closeBrowser`, `newTab`,
`switchTab` and `closeTab`. The `CallTool` request handler routes a tool
name to its handler. Every outcome, a thrown error included, becomes a text
envelope.

The model has eight modules:

- `Js` (`js.dfy`): JavaScript primitive values, truthiness, and the `||`,
  `??` and `!== false` operators that the argument defaults use. It also
  holds the string form that template literals insert, and property reads on
  the `arguments` object. That object may be absent, since the protocol makes
  it optional, and reading a property of an absent object throws a
  `TypeError`.
- `JsMap` (`js_map.dfy`): the JavaScript `Map` as an insertion-ordered list
  of entries.
  - `Set` on a present key replaces the value in place; on a new key it
    appends.
  - `Delete` removes the entry.
  - `First` is `values().next().value`.
- `Engine` (`engine.dfy`): Puppeteer objects are opaque `nat` handles. Each
  library call a handler makes is covered by an `Effect` parameter, which
  either succeeds or throws with a message; a handler that awaits several
  calls gets one `Effect` for all of them. `Date.now()` is the `clock` parameter.
- `Dispatch` (`dispatch.dfy`): the 27 tool names, the `switch` over them, and
  the `try`/`catch` envelope.
- `Tools` (`tools.dfy`): the `getCurrentPage` guard, and for each
  page-scoped tool:
  - the arguments it reads, in order, with their defaults;
  - the library call it makes, as a value;
  - the text it returns.

  It also covers `wait`, and the launch options with their `??` defaults.
- `Server` (`server.dfy`): the class `WebAutomationServer`, with the three
  fields and the handlers as methods. A fourth field, `nextHandle`, stands for
  the library's object allocation, so every new page is a handle never issued
  before and `this.currentPage === page` is handle equality.
- `Scenarios` (`scenarios.dfy`): sequences of calls on a fresh server, with
  what each is proved to do.
- `Wrappers` (`wrappers.dfy`): `Option` and `Result`, shared by the others.

## Where the code and the design description disagree

The model follows the code in each case below.

- The design describes an invariant: the current page, when present, is a
  registered tab. The code does not keep it.
  - `new_tab` with an identifier already in use, `"main"` say, replaces that
    entry while `currentPage` still holds the old page (src/index.ts:786-787).
  - A later `close_tab` of that identifier closes the new page. Its handle is
    not the current one, so `currentPage` keeps a page that no identifier
    reaches (src/index.ts:823-824).
  - Page-scoped tools go on using that page.

  `Valid()` therefore does not claim the invariant.
  `Scenarios.OrphanedCurrentPage` exhibits the failure.
- The design asks for identifiers that `new_tab` generates to be unique. The
  code uses `tab_${Date.now()}`. Two calls at the same clock reading get the
  same identifier, and the second replaces the first
  (`Scenarios.SameClockCollides`, `Tools.GeneratedTabIdsDistinct`).
- The design leaves the choice of tab after the current tab is closed
  open. The code takes the oldest remaining entry in insertion order, and
  the model does the same.
- `new_tab` registers the tab before its optional navigation. A failing
  navigation is reported as an error, yet the tab stays registered
  (`Scenarios.NavigationFailureKeepsTab`).
- `close_browser` without a browser returns "No browser is running" as an
  ordinary result. `new_tab` without a browser throws the same words, so its
  envelope reads "Error: No browser is running"
  (`Scenarios.CloseWithoutBrowser`, `Scenarios.NewTabWithoutBrowser`).

## Model

| member | source | states |
|---|---|---|
| `Js.Or` | src/index.ts:562 | `a \|\| b` yields the left operand when it is truthy and the right operand otherwise; the result is one of the two |
| `Js.Coalesce` | src/index.ts:527-530 | `a ?? b` yields the right operand only when the left is undefined or null |
| `Js.OrVersusCoalesce` | src/index.ts:527-530 | `\|\|` and `??` differ exactly on the falsy values that are not nullish (0, "", false), where `\|\|` takes the default and `??` keeps the value |
| `Js.FalsyValues` | src/index.ts:573-574 | undefined, null, false, 0 and "" are falsy; "0", "false" and -1 are truthy |
| `Js.NotFalseOnlyRejectsFalse` | src/index.ts:908 | `v !== false` is false only for the boolean false; undefined, 0 and "" leave it true |
| `Js.NatToString` | src/index.ts:786 | the decimal text of a clock reading is non-empty and consists of digits only |
| `Js.NatToStringInjective` | src/index.ts:786 | different numbers have different decimal texts |
| `Js.IntToString` | src/index.ts:801 | a number inserted into a template literal is its decimal text, with a leading "-" when negative |
| `Js.IntToStringInjective` | src/index.ts:801 | different integers insert different texts, the sign included |
| `Js.ToJsString` | src/index.ts:566 | the text a template literal inserts for a value; only the empty string inserts nothing |
| `Js.ToJsStringInjectiveWithinKind` | src/index.ts:801 | two numbers, two strings or two booleans insert the same text only when equal; across kinds they can clash, as the number 1 and the string "1" do |
| `Js.Prop` | src/index.ts:786 | `args.key` throws the Node.js TypeError naming the key when there is no arguments object; otherwise it reads the field, and a missing field reads as undefined |
| `JsMap.Get` | src/index.ts:799 | `map.get(k)` finds a value exactly when `k` is a key, and that value is stored in the map |
| `JsMap.First` | src/index.ts:824 | `values().next().value` is absent exactly for an empty map, and is otherwise the value of the oldest entry |
| `JsMap.Set` | src/index.ts:787 | after `set(k, v)`, `k` reads `v`; the map keeps its size when `k` was a key and grows by one otherwise |
| `JsMap.Delete` | src/index.ts:821 | `delete(k)` shrinks the map by one when `k` is a key and keeps its size otherwise |
| `JsMap.GetSet` | src/index.ts:787 | after `set(k, v)`, `k` reads `v` and every other key reads what it read before |
| `JsMap.GetDelete` | src/index.ts:821 | after `delete(k)`, `k` reads nothing and every other key reads what it read before |
| `JsMap.SetAppends` | src/index.ts:787 | `set` on a new key appends the entry at the end of the insertion order |
| `JsMap.SetKeepsPosition` | src/index.ts:787 | `set` on a present key replaces its value at the same position; no other entry moves |
| `JsMap.DeleteRemovesEntry` | src/index.ts:821 | `delete` of a present key removes exactly that entry and keeps the order of the rest |
| `JsMap.DeleteMissing` | src/index.ts:821 | `delete` of an absent key leaves the map unchanged |
| `JsMap.SetPreserves` | src/index.ts:787 | `set` keeps keys distinct; it keeps values distinct when the new value is not already stored |
| `JsMap.DeletePreserves` | src/index.ts:821 | `delete` keeps keys and values distinct; with distinct values, the deleted page is no longer stored under any key |
| `Dispatch.ToolNamed` | src/index.ts:448-505 | a name selects a tool exactly when it is that tool's name; a name no tool has selects none, which is the `default` branch |
| `Dispatch.NamesDistinct` | src/index.ts:448-502 | no two tools share a name |
| `Dispatch.NameRoundTrip` | src/index.ts:448-502 | every tool is reached through its own name |
| `Dispatch.UnknownTool` | src/index.ts:503-504 | the `default` case throws "Unknown tool: " followed by the name |
| `Dispatch.Wrap` | src/index.ts:506-514 | every outcome becomes exactly one text item; a returned text passes through unchanged, and a thrown message becomes "Error: " followed by the message |
| `Dispatch.FailureIsInBand` | src/index.ts:506-514 | a thrown error yields the same envelope as a returned text that starts with "Error: ", so only the text tells a failure apart |
| `Tools.RequirePage` | src/index.ts:915-920 | the guard fails exactly when there is no current page, with "No browser is running. Please launch a browser first.", and otherwise yields the current page |
| `Tools.ScrollMotion` | src/index.ts:725-733 | scroll does nothing exactly when the direction is none of top and bottom, and is not down or up with a truthy amount; scrolling by an amount goes upward exactly for "up" |
| `Tools.Forward` | src/index.ts:559-737 | a page-scoped tool with no current page throws the guard's error whatever its arguments and the library do; with a current page, an absent arguments object throws the TypeError of the first field read; a library failure is passed on verbatim; otherwise the tool's reply text is returned |
| `Tools.Request` | src/index.ts:559-912 | the argument reads of a page-scoped tool, with the defaults of `CallFor`: with no arguments object they throw exactly for the tools that read arguments, with the TypeError naming the first field read; with an arguments object they never throw |
| `Tools.Reply` | src/index.ts:565-857 | the text of a page-scoped tool once its library call completes: the library's data for the data tools, and otherwise the tool's own non-empty sentence ("Navigated to <url>", "All cookies cleared", "Form filled successfully" and the rest) |
| `Tools.GuardComesFirst` | src/index.ts:915-920 | with no current page, every page-scoped tool's envelope reads "Error: " followed by the guard's message |
| `Tools.MissingArgumentsThrow` | src/index.ts:559-562 | without an arguments object, exactly the tools that read arguments throw, each naming the first field its handler reads (`url` for navigate, `clear_first` for type_text, `direction` for scroll) |
| `Tools.ArgumentsObjectNeverThrows` | src/index.ts:559-737 | with an arguments object, reading arguments never throws |
| `Tools.OrDefaults` | src/index.ts:562-642 | `wait_until` defaults to 'networkidle2', `click_count` to 1, `delay` to 0, `timeout` to 30000 and `full_page` to false, for every falsy value including 0 and ""; a truthy timeout is kept |
| `Tools.IncludeHeadersDefault` | src/index.ts:908 | `extract_table` includes headers unless `include_headers` is exactly false, so also when it is missing |
| `Tools.LaunchOptions` | src/index.ts:526-532 | launching throws exactly when there is no arguments object, naming `headless` |
| `Tools.LaunchDefaults` | src/index.ts:527-530 | `headless` defaults to false, and the viewport to 1920 by 1080, only when missing or null; headless false and width 0 are passed on as given |
| `Tools.WaitReply` | src/index.ts:740-746 | `wait` throws without an arguments object and otherwise reports "Waited <duration>ms" |
| `Tools.GeneratedTabId` | src/index.ts:786 | a generated identifier is "tab_" followed by the decimal clock reading |
| `Tools.GeneratedTabIdsDistinct` | src/index.ts:786 | two generated identifiers are equal exactly when the clock readings are equal |
| `Server.TabNotFound` | src/index.ts:801 | the message `switch_tab` and `close_tab` throw: "Tab <id> not found" |
| `Server.WebAutomationServer.Valid` | src/index.ts:519-830 | the invariant every handler requires and ensures: `BrowserOwnsTabs` (no browser means no tabs and no current page), distinct tab identifiers, distinct pages across tabs, and every page, the current page and the browser issued before `nextHandle`. It does not claim that the current page is a registered tab |
| `Server.NewTabId` | src/index.ts:786 | `new_tab` uses `tab_id` when it is truthy, and otherwise the generated identifier |
| `Server.ClosedTabId` | src/index.ts:813 | `close_tab` uses `tab_id` when it is truthy, and otherwise "main" |
| `Server.WebAutomationServer.constructor` | src/index.ts:12-14 | a new server has no browser, no tabs and no current page |
| `Server.WebAutomationServer.LaunchBrowser` | src/index.ts:519-540 | its contract is `LaunchBrowserOutcome`: with a browser running: "Browser is already running" and nothing changes. Otherwise a missing arguments object or a failing launch throws and changes nothing; a failing `newPage` leaves a browser with no tabs. On success the browser is present, `pages` is exactly [("main", p)] for a fresh page p, and p is current. The invariant `Valid` holds throughout |
| `Server.WebAutomationServer.CloseBrowser` | src/index.ts:542-557 | its contract is `CloseBrowserOutcome`: with no browser: the plain result "No browser is running" and nothing changes; a failing close throws and changes nothing; otherwise the browser, every tab and the current page are cleared |
| `Server.WebAutomationServer.NewTab` | src/index.ts:780-796 | its contract is `NewTabOutcome`: without a browser it throws "No browser is running" and changes nothing. Otherwise the new page is bound to `NewTabId` by a Map `set`, replacing any earlier binding of it, and no other key changes. The browser and the current page do not change. A failing navigation throws after the tab is registered |
| `Server.WebAutomationServer.SwitchTab` | src/index.ts:798-810 | its contract is `SwitchTabOutcome`: an identifier with no tab throws "Tab <id> not found" and nothing changes; otherwise the current page becomes that tab's page, even when bringing it to the front then fails; `pages` and the browser never change |
| `Server.WebAutomationServer.CloseTab` | src/index.ts:812-830 | its contract is `CloseTabOutcome`: an identifier with no tab (`tab_id` defaulting to "main") throws "Tab <id> not found" and nothing changes, as does a failing page close. Otherwise exactly that entry is removed, no other key changes, and its page is stored under no key. The current page becomes the oldest remaining page, or none, when the removed page was current, and is unchanged otherwise |
| `Server.WebAutomationServer.RunTool` | src/index.ts:448-502 | the switch on the selected tool (`RunOutcome`): launch_browser, close_browser, new_tab, switch_tab and close_tab end exactly as their handlers' contracts say, with the matching library effects of the call; `wait` changes nothing and answers as `Tools.WaitReply`; every other tool changes nothing and answers as `Tools.Forward` does with the current page. The invariant `Valid` is kept |
| `Server.WebAutomationServer.CallTool` | src/index.ts:444-516 | every call yields one text item, the envelope of the handler's outcome `c`, and keeps the invariant `Valid`. An unknown name yields "Error: Unknown tool: <name>" and changes nothing. A known name ends as `RunOutcome` says for its tool, so each of the 27 names reaches its own handler |
| `Scenarios.LaunchTwice` | src/index.ts:519-524 | a second launch reports "Browser is already running" and leaves the one "main" tab as it was |
| `Scenarios.CloseTwice` | src/index.ts:542-557 | after one close, a second close is a no-op that reports "No browser is running" |
| `Scenarios.NeverLaunched` | src/index.ts:915-920 | before any launch, every page-scoped tool answers with "Error: " followed by the guard's message |
| `Scenarios.UnknownName` | src/index.ts:503-504 | an unknown name is answered in-band and the browser keeps running |
| `Scenarios.FallBackToMain` | src/index.ts:812-830 | launch, new_tab "t2", switch_tab "t2", close_tab "t2" leaves the "main" page current |
| `Scenarios.SwitchToMissing` | src/index.ts:798-802 | switch_tab "missing" throws "Tab missing not found" and keeps the current page |
| `Scenarios.Orphan` | src/index.ts:780-830 | launch, new_tab "main" and close_tab (default "main") leave a running browser with no tabs and a current page |
| `Scenarios.OrphanedCurrentPage` | src/index.ts:786-787 | new_tab "main" and then close_tab leave a current page that no tab holds, and navigate through CallTool still uses it |
| `Scenarios.NavigationFailureKeepsTab` | src/index.ts:787-790 | a new tab whose navigation fails answers "Error: " followed by the message, yet stays registered |
| `Scenarios.SameClockCollides` | src/index.ts:786 | two new tabs without an identifier at one clock reading get the same identifier, so only two tabs exist |
| `Scenarios.NewTabWithoutBrowser` | src/index.ts:780-784 | new_tab through CallTool before any launch answers "Error: No browser is running" and adds no tab |
| `Scenarios.CloseWithoutBrowser` | src/index.ts:542-546 | close_browser through CallTool before any launch answers "No browser is running" as a plain text, not as an error |
| `Scenarios.AllTabsClosed` | src/index.ts:812-830 | after the last tab is closed the browser still runs, yet page-scoped tools answer with the no-browser error |

## Left out

- MCP server construction, the stdio transport and `run`
  (src/index.ts:1-30, 922-930). They are input/output plumbing.
- The tool catalogue returned for ListTools (src/index.ts:33-442). It is
  declarative schema data, and nothing validates arguments against it.
- The work of Puppeteer itself: navigation, clicking, typing, element text,
  screenshots, waiting, history, content, select, hover, keys, cookies, the
  `fill_form` loop, and the in-page code of `scroll`, `extract_links` and
  `extract_table`.
  - Each library call is one `Effect` parameter. The data it returns is one
    opaque `output` text.
  - The model records which call is made, with its defaulted options
    (`Tools.PageCall`), but not what the call does in the browser.
- `Tools.Forward`: a handler that awaits several library calls is modelled
  with one `Effect` covering them all. Examples are `type_text` with
  `clear_first`, the element branch of `take_screenshot`, and the `fill_form`
  loop.
- `Tools.Reply`: the `JSON.stringify` formatting of data results is not
  modelled (src/index.ts:606, 655, 753, 877, 911). `execute_javascript`
  can produce no text at all when the script yields undefined; the model
  always has a text.
- `wait` does not model the timer (src/index.ts:740-746). The model takes
  the sleep to complete.
- `Date.now()` is not modelled. The clock reading is a parameter.
- async/await is not modelled. The model assumes tool calls do not overlap;
  the server does not enforce this. The CallTool handler is `async`
  (src/index.ts:444) and handlers await between a test and the update it
  guards: `launchBrowser` tests `this.browser` (src/index.ts:520) and assigns
  it only after `await puppeteer.launch` (src/index.ts:526), so two
  overlapping `launch_browser` calls would each launch a browser.
- `Js.JsValue` does not model JavaScript numbers beyond integers: no
  fractions, NaN, infinities or -0. Objects and arrays as argument values are
  not modelled either.
- `Js.IntToString`: `Num` holds any integer, while a JavaScript number is a
  double. Integers beyond 2^53 are not held exactly (two such `Num` values
  can be the same number, and so the same Map key), and from 1e21 up a
  template literal writes exponent form ("1e+21"); the model always writes
  the full decimal. This reaches "Tab <id> not found", "New tab opened with
  ID: <id>" and "Waited <duration>ms".
- `Tools.Forward`: `fill_form` is modelled as one library call with the
  `fields` value passed on opaque. The source iterates `args.fields`
  (src/index.ts:835): an absent, null, boolean or number `fields` throws a
  TypeError by itself, and a string `fields` ends without any library call;
  the model instead lets the one `Effect` decide, so with a succeeding effect
  it answers "Form filled successfully" in those cases.
- Page objects are always truthy in JavaScript, so `if (!page)` and
  `|| null` are modelled as tests for absence.
- `Server.WebAutomationServer.LaunchBrowser`: the launch options are
  computed, and their failure is modelled, but the engine's behaviour does
  not depend on them in the model.
