/**
 * The CallTool request handler: the tool names it recognises, and the
 * conversion of every handler outcome, including a thrown error, into a
 * text envelope.
 */
module Dispatch {
  import opened Wrappers

  datatype Tool =
    | LaunchBrowser | CloseBrowser | Navigate | Click | TypeText | GetText
    | TakeScreenshot | WaitForElement | ExecuteJavascript | GoBack | GoForward
    | Refresh | GetPageContent | SelectOption | Hover | PressKey | Scroll | Wait
    | GetCookies | SetCookie | ClearCookies | NewTab | SwitchTab | CloseTab
    | FillForm | ExtractLinks | ExtractTable

  /** The protocol name of each tool, as the `switch` of the handler spells it. */
  function Name(t: Tool): string {
    match t
    case LaunchBrowser => "launch_browser"
    case CloseBrowser => "close_browser"
    case Navigate => "navigate"
    case Click => "click"
    case TypeText => "type_text"
    case GetText => "get_text"
    case TakeScreenshot => "take_screenshot"
    case WaitForElement => "wait_for_element"
    case ExecuteJavascript => "execute_javascript"
    case GoBack => "go_back"
    case GoForward => "go_forward"
    case Refresh => "refresh"
    case GetPageContent => "get_page_content"
    case SelectOption => "select_option"
    case Hover => "hover"
    case PressKey => "press_key"
    case Scroll => "scroll"
    case Wait => "wait"
    case GetCookies => "get_cookies"
    case SetCookie => "set_cookie"
    case ClearCookies => "clear_cookies"
    case NewTab => "new_tab"
    case SwitchTab => "switch_tab"
    case CloseTab => "close_tab"
    case FillForm => "fill_form"
    case ExtractLinks => "extract_links"
    case ExtractTable => "extract_table"
  }

  /** Every tool, in the order of the handler's `switch`. */
  const AllTools: seq<Tool> := [
    LaunchBrowser, CloseBrowser, Navigate, Click, TypeText, GetText,
    TakeScreenshot, WaitForElement, ExecuteJavascript, GoBack, GoForward,
    Refresh, GetPageContent, SelectOption, Hover, PressKey, Scroll, Wait,
    GetCookies, SetCookie, ClearCookies, NewTab, SwitchTab, CloseTab,
    FillForm, ExtractLinks, ExtractTable]

  /** The first tool of `ts` called `name`. */
  function Find(name: string, ts: seq<Tool>): (r: Option<Tool>)
    ensures r.Some? ==> Name(r.value) == name && r.value in ts
    ensures r.None? ==> forall t :: t in ts ==> Name(t) != name
  {
    if ts == [] then None
    else if Name(ts[0]) == name then Some(ts[0])
    else Find(name, ts[1..])
  }

  lemma AllToolsListed(t: Tool)
    ensures t in AllTools
  {
  }

  /** The `switch (name)` of the handler: the tool a name selects, or none for the `default` case. */
  function ToolNamed(name: string): (r: Option<Tool>)
    ensures r.Some? ==> Name(r.value) == name
    ensures r.None? ==> forall t: Tool :: Name(t) != name
  {
    var r := Find(name, AllTools);
    assert r.None? ==> forall t: Tool :: Name(t) != name by {
      forall t: Tool ensures t in AllTools {
        AllToolsListed(t);
      }
    }
    r
  }

  /** The position of a tool in `AllTools`. */
  function Ordinal(t: Tool): (i: nat)
    ensures i < |AllTools| && AllTools[i] == t
  {
    match t
    case LaunchBrowser => 0
    case CloseBrowser => 1
    case Navigate => 2
    case Click => 3
    case TypeText => 4
    case GetText => 5
    case TakeScreenshot => 6
    case WaitForElement => 7
    case ExecuteJavascript => 8
    case GoBack => 9
    case GoForward => 10
    case Refresh => 11
    case GetPageContent => 12
    case SelectOption => 13
    case Hover => 14
    case PressKey => 15
    case Scroll => 16
    case Wait => 17
    case GetCookies => 18
    case SetCookie => 19
    case ClearCookies => 20
    case NewTab => 21
    case SwitchTab => 22
    case CloseTab => 23
    case FillForm => 24
    case ExtractLinks => 25
    case ExtractTable => 26
  }

  /** No two tools share a name. The cases are split by position in `AllTools`, two at a time. */
  lemma NamesDistinct(a: Tool, b: Tool)
    requires Name(a) == Name(b)
    ensures a == b
  {
    var k := Ordinal(a) / 2;
    if k == 0 {
      NamesDistinctFrom0(a, b);
    } else if k == 1 {
      NamesDistinctFrom2(a, b);
    } else if k == 2 {
      NamesDistinctFrom4(a, b);
    } else if k == 3 {
      NamesDistinctFrom6(a, b);
    } else if k == 4 {
      NamesDistinctFrom8(a, b);
    } else if k == 5 {
      NamesDistinctFrom10(a, b);
    } else if k == 6 {
      NamesDistinctFrom12(a, b);
    } else if k == 7 {
      NamesDistinctFrom14(a, b);
    } else if k == 8 {
      NamesDistinctFrom16(a, b);
    } else if k == 9 {
      NamesDistinctFrom18(a, b);
    } else if k == 10 {
      NamesDistinctFrom20(a, b);
    } else if k == 11 {
      NamesDistinctFrom22(a, b);
    } else if k == 12 {
      NamesDistinctFrom24(a, b);
    } else {
      NamesDistinctFrom26(a, b);
    }
  }

  lemma NamesDistinctFrom0(a: Tool, b: Tool)
    requires 0 <= Ordinal(a) < 2 && Name(a) == Name(b)
    ensures a == b
  {
    match a
    case LaunchBrowser =>
    case CloseBrowser =>
    case _ => assert false;
  }

  lemma NamesDistinctFrom2(a: Tool, b: Tool)
    requires 2 <= Ordinal(a) < 4 && Name(a) == Name(b)
    ensures a == b
  {
    match a
    case Navigate =>
    case Click =>
    case _ => assert false;
  }

  lemma NamesDistinctFrom4(a: Tool, b: Tool)
    requires 4 <= Ordinal(a) < 6 && Name(a) == Name(b)
    ensures a == b
  {
    match a
    case TypeText =>
    case GetText =>
    case _ => assert false;
  }

  lemma NamesDistinctFrom6(a: Tool, b: Tool)
    requires 6 <= Ordinal(a) < 8 && Name(a) == Name(b)
    ensures a == b
  {
    match a
    case TakeScreenshot =>
    case WaitForElement =>
    case _ => assert false;
  }

  lemma NamesDistinctFrom8(a: Tool, b: Tool)
    requires 8 <= Ordinal(a) < 10 && Name(a) == Name(b)
    ensures a == b
  {
    match a
    case ExecuteJavascript =>
    case GoBack =>
    case _ => assert false;
  }

  lemma NamesDistinctFrom10(a: Tool, b: Tool)
    requires 10 <= Ordinal(a) < 12 && Name(a) == Name(b)
    ensures a == b
  {
    match a
    case GoForward =>
    case Refresh =>
    case _ => assert false;
  }

  lemma NamesDistinctFrom12(a: Tool, b: Tool)
    requires 12 <= Ordinal(a) < 14 && Name(a) == Name(b)
    ensures a == b
  {
    match a
    case GetPageContent =>
    case SelectOption =>
    case _ => assert false;
  }

  lemma NamesDistinctFrom14(a: Tool, b: Tool)
    requires 14 <= Ordinal(a) < 16 && Name(a) == Name(b)
    ensures a == b
  {
    match a
    case Hover =>
    case PressKey =>
    case _ => assert false;
  }

  lemma NamesDistinctFrom16(a: Tool, b: Tool)
    requires 16 <= Ordinal(a) < 18 && Name(a) == Name(b)
    ensures a == b
  {
    match a
    case Scroll =>
    case Wait =>
    case _ => assert false;
  }

  lemma NamesDistinctFrom18(a: Tool, b: Tool)
    requires 18 <= Ordinal(a) < 20 && Name(a) == Name(b)
    ensures a == b
  {
    match a
    case GetCookies =>
    case SetCookie =>
    case _ => assert false;
  }

  lemma NamesDistinctFrom20(a: Tool, b: Tool)
    requires 20 <= Ordinal(a) < 22 && Name(a) == Name(b)
    ensures a == b
  {
    match a
    case ClearCookies =>
    case NewTab =>
    case _ => assert false;
  }

  lemma NamesDistinctFrom22(a: Tool, b: Tool)
    requires 22 <= Ordinal(a) < 24 && Name(a) == Name(b)
    ensures a == b
  {
    match a
    case SwitchTab =>
    case CloseTab =>
    case _ => assert false;
  }

  lemma NamesDistinctFrom24(a: Tool, b: Tool)
    requires 24 <= Ordinal(a) < 26 && Name(a) == Name(b)
    ensures a == b
  {
    match a
    case FillForm =>
    case ExtractLinks =>
    case _ => assert false;
  }

  lemma NamesDistinctFrom26(a: Tool, b: Tool)
    requires 26 <= Ordinal(a) < 27 && Name(a) == Name(b)
    ensures a == b
  {
  }

  /** Every tool is reached by its own name. */
  lemma NameRoundTrip(t: Tool)
    ensures ToolNamed(Name(t)) == Some(t)
  {
    var r := ToolNamed(Name(t));
    if r.Some? {
      NamesDistinct(r.value, t);
    }
  }

  /** How a handler ended: it returned a text, or it threw an error with a message. */
  datatype Completion = Returned(text: string) | Threw(message: string)

  datatype TextItem = TextItem(kind: string, text: string)

  /** The `{ content: [{ type: 'text', text }] }` shape of every response. */
  datatype Envelope = Envelope(content: seq<TextItem>)

  /** The error that the `default` case throws for a name no tool has. */
  function UnknownTool(name: string): Completion {
    Threw("Unknown tool: " + name)
  }

  /**
   * The `try`/`catch` around the `switch`: a returned text is passed through,
   * a thrown error becomes an ordinary envelope whose text is "Error: " and the message.
   */
  function Wrap(c: Completion): (e: Envelope)
    ensures |e.content| == 1 && e.content[0].kind == "text"
    ensures c.Returned? ==> e.content[0].text == c.text
    ensures c.Threw? ==> e.content[0].text == "Error: " + c.message
  {
    var text := match c
      case Returned(t) => t
      case Threw(m) => "Error: " + m;
    Envelope([TextItem("text", text)])
  }

  /** A failure is reported only in the text: it has the shape of a success whose text starts with "Error: ". */
  lemma FailureIsInBand(m: string)
    ensures Wrap(Threw(m)) == Wrap(Returned("Error: " + m))
  {
  }
}
