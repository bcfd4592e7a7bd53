/** The browser agents of decoy_service/browser_agent.py, reduced to the
    logic they add around the automation engine. The engine itself
    (Selenium or Playwright) is not modelled: what a page answers to a
    query is the `Page` the browser currently shows, whether a navigation or
    a click goes through is a nondeterministic choice, and the agent keeps
    the list of its effects on the browser in `actions`. */
module Browser {
  import opened Values
  import opened Text
  import opened Config

  datatype Backend = Selenium | Playwright

  /** A handle on a page element, as the engine returns it. */
  type Element = nat

  /** What the page shown in the browser answers to the agent's queries. */
  datatype Page = Page(
    clickables: Option<seq<Element>>,  // links, buttons, ...; None when the query raises
    height: Option<int>,               // document.body.scrollHeight; None when the script raises
    closable: set<string>,             // CSS selectors whose element is found and clicked without error
    searchable: set<string>)           // CSS selectors whose search box is found and typed into without error

  /** What the agent did to the browser. */
  datatype Action =
    | Navigate(url: string)
    | ClickElement(element: Element)
    | ClickSelector(selector: string)
    | SubmitSearch(selector: string, query: string)
    | ScrollBy(amount: int)

  /** `visit_url` prefixes `https://` unless the URL already starts with
      `http`: the result always starts with `http`, ends with the given URL,
      and is that URL exactly when it already started with `http`. */
  function NormalizeUrl(url: string): (r: string)
    ensures StartsWith(r, "http")
    ensures EndsWith(r, url)
    ensures r == url <==> StartsWith(url, "http")
    ensures !StartsWith(url, "http") ==> r == "https://" + url
  {
    if StartsWith(url, "http") then url else "https://" + url
  }

  /** Normalising twice is normalising once. */
  lemma NormalizeIdempotent(url: string)
    ensures NormalizeUrl(NormalizeUrl(url)) == NormalizeUrl(url)
  {
  }

  /** Python's slice `s[:n]`: a prefix of `s`; a negative `n` drops that
      many elements from the end. */
  function TakePrefix<T>(s: seq<T>, n: int): (r: seq<T>)
    ensures |r| <= |s| && r == s[..|r|]
    ensures n >= 0 ==> |r| == (if n < |s| then n else |s|)
    ensures n < 0 ==> |r| == (if |s| + n > 0 then |s| + n else 0)
  {
    if n >= 0 then (if n < |s| then s[..n] else s)
    else if |s| + n > 0 then s[..|s| + n] else []
  }

  /** The close buttons `handle_popups` tries, in order, for each engine. */
  const SeleniumPopupSelectors: seq<string> := [
    "button[aria-label*='close' i]",
    "button[aria-label*='dismiss' i]",
    ".close", ".modal-close", "[class*='close']",
    "button:has-text('Accept')", "button:has-text('OK')",
    "[class*='cookie'] button", "[id*='cookie'] button"]

  const PlaywrightPopupSelectors: seq<string> := [
    "button[aria-label*='close' i]",
    ".close", ".modal-close",
    "button:has-text('Accept')", "button:has-text('OK')"]

  /** The search boxes `fill_search_form` tries, in order. */
  const SearchSelectors: seq<string> := [
    "input[name='q']",
    "input[type='search']",
    "input[placeholder*='search' i]",
    "input[placeholder*='Search' i]"]

  function PopupSelectors(backend: Backend): seq<string>
  {
    match backend
    case Selenium => SeleniumPopupSelectors
    case Playwright => PlaywrightPopupSelectors
  }

  /** The position of the first of `selectors` that is in `hits`, if any. */
  function FirstMatch(selectors: seq<string>, hits: set<string>): (r: Option<nat>)
    ensures r.Some? ==> r.value < |selectors| && selectors[r.value] in hits
    ensures r.Some? ==> forall k :: 0 <= k < r.value ==> selectors[k] !in hits
    ensures r.None? <==> forall k :: 0 <= k < |selectors| ==> selectors[k] !in hits
    decreases |selectors|
  {
    if selectors == [] then None
    else if selectors[0] in hits then Some(0)
    else match FirstMatch(selectors[1..], hits)
      case None => None
      case Some(i) => Some(i + 1)
  }

  /** A scan that stops at the first hit finds what `FirstMatch` finds. */
  lemma FirstMatchAt(selectors: seq<string>, hits: set<string>, i: nat)
    requires i < |selectors| && selectors[i] in hits
    requires forall k :: 0 <= k < i ==> selectors[k] !in hits
    ensures FirstMatch(selectors, hits) == Some(i)
  {
  }

  /** `create_agent`: Playwright exactly when the lower-cased `browser.type`
      is `playwright`; anything else, and the default `selenium`, gives
      Selenium. */
  function SelectBackend(browserType: string): (b: Backend)
    ensures b == Playwright <==> Lower(browserType) == "playwright"
  {
    if Lower(browserType) == "playwright" then Playwright else Selenium
  }

  lemma SelectBackendCases()
    ensures SelectBackend(Defaults.browserType) == Selenium
    ensures SelectBackend("Playwright") == Playwright
    ensures SelectBackend("PLAYWRIGHT") == Playwright
    ensures SelectBackend("chrome") == Selenium
  {
    assert Lower("selenium") != "playwright" by {
      assert Lower("selenium")[0] == 's';
    }
    assert Lower("Playwright") == "playwright";
    assert Lower("PLAYWRIGHT") == "playwright";
    assert Lower("chrome") != "playwright" by {
      assert |Lower("chrome")| == 6;
    }
  }

  /** One pass of `natural_scroll`'s loop: scroll down by `down`, then scroll
      back up by `up` (0 when the reader does not go back). */
  datatype ScrollStep = ScrollStep(down: int, up: int)

  predicate ValidStep(s: ScrollStep)
  {
    150 <= s.down <= 400 && (s.up == 0 || 50 <= s.up <= 150)
  }

  /** `current_position` after the given passes. */
  function Position(steps: seq<ScrollStep>): int
    decreases |steps|
  {
    if steps == [] then 0
    else Position(steps[..|steps| - 1]) + steps[|steps| - 1].down - steps[|steps| - 1].up
  }

  /** The loop guard `current_position < page_height * 0.8`, scaled by 5 to
      stay in integers. */
  predicate KeepReading(position: int, pageHeight: int)
  {
    5 * position < 4 * pageHeight
  }

  /** What a run of the scroll loop looks like: every pass draws its amounts
      from their ranges, the guard held before every pass, and the loop
      stopped because the guard failed, unless it ran out of `fuel`. */
  predicate ScrollRun(steps: seq<ScrollStep>, pageHeight: int, fuel: nat)
  {
    && |steps| <= fuel
    && (forall k :: 0 <= k < |steps| ==> ValidStep(steps[k]))
    && (forall k :: 0 <= k < |steps| ==> KeepReading(Position(steps[..k]), pageHeight))
    && (|steps| < fuel ==> !KeepReading(Position(steps), pageHeight))
  }

  /** The position loop of `natural_scroll`. The source loop has no bound
      (a pass may scroll down 150 and back up 150); `fuel` caps the passes. */
  method ScrollLoop(pageHeight: int, fuel: nat) returns (steps: seq<ScrollStep>)
    ensures ScrollRun(steps, pageHeight, fuel)
  {
    steps := [];
    var position := 0;
    while KeepReading(position, pageHeight) && |steps| < fuel
      invariant |steps| <= fuel
      invariant position == Position(steps)
      invariant forall k :: 0 <= k < |steps| ==> ValidStep(steps[k])
      invariant forall k :: 0 <= k < |steps| ==> KeepReading(Position(steps[..k]), pageHeight)
      decreases fuel - |steps|
    {
      var down :| 150 <= down <= 400;
      var scrollBack: bool :| true;
      var up := 0;
      if scrollBack {
        up :| 50 <= up <= 150;
      }
      ghost var before := steps;
      steps := steps + [ScrollStep(down, up)];
      assert steps[..|before|] == before;
      assert forall k :: 0 <= k < |before| ==> steps[..k] == before[..k];
      position := position + down - up;
    }
  }

  /** A pass never moves the position back: each one scrolls down at least
      150 and back at most 150. */
  lemma {:induction false} PositionNeverDecreases(steps: seq<ScrollStep>, k: nat)
    requires k <= |steps|
    requires forall j :: 0 <= j < |steps| ==> ValidStep(steps[j])
    ensures 0 <= Position(steps[..k]) <= Position(steps)
    decreases |steps|
  {
    if k < |steps| {
      var init := steps[..|steps| - 1];
      assert steps[..k] == init[..k];
      PositionNeverDecreases(init, k);
      assert ValidStep(steps[|steps| - 1]);
    } else {
      assert steps[..k] == steps;
      if steps != [] {
        var init := steps[..|steps| - 1];
        PositionNeverDecreases(init, |init|);
        assert init[..|init|] == init;
        assert ValidStep(steps[|steps| - 1]);
      }
    }
  }

  /** The scrolls one pass sends to the page. */
  function StepActions(s: ScrollStep): seq<Action>
  {
    [ScrollBy(s.down)] + (if s.up == 0 then [] else [ScrollBy(-s.up)])
  }

  function ScrollActions(steps: seq<ScrollStep>): seq<Action>
    decreases |steps|
  {
    if steps == [] then [] else ScrollActions(steps[..|steps| - 1]) + StepActions(steps[|steps| - 1])
  }

  /** How many of `actions` are clicks on a page element. */
  function Clicks(actions: seq<Action>): nat
    decreases |actions|
  {
    if actions == [] then 0
    else Clicks(actions[..|actions| - 1]) + (if actions[|actions| - 1].ClickElement? then 1 else 0)
  }

  lemma {:induction false} ClicksAppend(a: seq<Action>, b: seq<Action>)
    ensures Clicks(a + b) == Clicks(a) + Clicks(b)
    decreases |b|
  {
    if b == [] {
      assert a + b == a;
    } else {
      var init := b[..|b| - 1];
      assert (a + b)[..|a + b| - 1] == a + init;
      ClicksAppend(a, init);
    }
  }

  /** Scrolling clicks nothing. */
  lemma {:induction false} ScrollActionsHaveNoClicks(steps: seq<ScrollStep>)
    ensures Clicks(ScrollActions(steps)) == 0
    decreases |steps|
  {
    if steps != [] {
      var last := steps[|steps| - 1];
      ScrollActionsHaveNoClicks(steps[..|steps| - 1]);
      ClicksAppend(ScrollActions(steps[..|steps| - 1]), StepActions(last));
      assert [ScrollBy(last.down)][..0] == [];
      if last.up != 0 {
        ClicksAppend([ScrollBy(last.down)], [ScrollBy(-last.up)]);
        assert [ScrollBy(-last.up)][..0] == [];
      }
    }
  }

  /** `after` is `before` with actions appended. */
  predicate Appended(before: seq<Action>, after: seq<Action>)
  {
    |before| <= |after| && after[..|before|] == before
  }

  /** A snapshot of an agent's state. */
  datatype AgentView = AgentView(backend: Backend, isOpen: bool, hasDriver: bool, page: Page, actions: seq<Action>, closeCalls: nat)

  /** Selenium's `close_browser` calls `driver.quit()` whenever a driver was
      ever created, with nothing around it to catch an exception, so the
      engine's error `closing` escapes; Playwright's version catches
      everything. */
  predicate CloseRaises(a: AgentView, closing: Option<string>)
  {
    closing.Some? && a.backend == Selenium && a.hasDriver
  }

  /** `close_browser` on an agent in state `a`, when the engine's `quit`
      would raise `closing` (None: it would not): the error that escapes, if
      any, and the agent's new state. A close that raises leaves the browser
      as it was. */
  function Close(a: AgentView, closing: Option<string>): (out: (Option<string>, AgentView))
    ensures out.0.Some? <==> CloseRaises(a, closing)
    ensures out.0.Some? ==> out.0 == closing
    ensures out.1.isOpen <==> out.0.Some? && a.isOpen
    ensures out.1.closeCalls == a.closeCalls + 1
    ensures out.1.(isOpen := a.isOpen, closeCalls := a.closeCalls) == a
  {
    if CloseRaises(a, closing) then (closing, a.(closeCalls := a.closeCalls + 1))
    else (None, a.(isOpen := false, closeCalls := a.closeCalls + 1))
  }

  class BrowserAgent {
    const backend: Backend
    /** The engine has a browser open. */
    var isOpen: bool
    /** `self.driver` is set: some `open_browser` succeeded. `quit()` does
        not clear it. */
    var hasDriver: bool
    var page: Page
    var actions: seq<Action>
    /** How many times `close_browser` was called. */
    var closeCalls: nat

    constructor(backend: Backend)
      ensures this.backend == backend && !isOpen && !hasDriver && actions == [] && closeCalls == 0
    {
      this.backend := backend;
      isOpen := false;
      hasDriver := false;
      page := Page(None, None, {}, {});
      actions := [];
      closeCalls := 0;
    }

    function View(): AgentView
      reads this
    {
      AgentView(backend, isOpen, hasDriver, page, actions, closeCalls)
    }

    /** `open_browser`: starting the engine may fail. */
    method OpenBrowser(headless: bool) returns (ok: bool)
      modifies this
      ensures isOpen == ok && hasDriver == (old(hasDriver) || ok)
      ensures actions == old(actions) && page == old(page) && closeCalls == old(closeCalls)
    {
      ok :| true;
      isOpen := ok;
      hasDriver := hasDriver || ok;
    }

    /** `visit_url`: navigate to the normalised URL. With no browser open the
        call raises and answers false; otherwise loading may fail. */
    method VisitUrl(url: string) returns (ok: bool)
      modifies this
      ensures ok ==> old(isOpen)
      ensures actions == old(actions) + (if ok then [Navigate(NormalizeUrl(url))] else [])
      ensures !ok ==> page == old(page)
      ensures isOpen == old(isOpen) && hasDriver == old(hasDriver) && closeCalls == old(closeCalls)
    {
      var target := NormalizeUrl(url);
      if !isOpen {
        return false;
      }
      ok :| true;
      if ok {
        var loaded: Page :| true;
        page := loaded;
        actions := actions + [Navigate(target)];
      }
    }

    /** `get_clickable_elements(max_elements)`: the first `max_elements` of the
        elements found, or none when the query raises. */
    function ClickableElements(maxElements: int): (r: seq<Element>)
      reads this
      ensures !isOpen || page.clickables.None? ==> r == []
      ensures isOpen && page.clickables.Some? ==> |r| <= |page.clickables.value| && r == page.clickables.value[..|r|]
      ensures maxElements >= 0 ==> |r| <= maxElements
      ensures isOpen && page.clickables.Some? && 0 <= maxElements <= |page.clickables.value| ==> |r| == maxElements
    {
      if isOpen && page.clickables.Some? then TakePrefix(page.clickables.value, maxElements) else []
    }

    /** `random_click`: click one of the first 20 clickable elements. With
        none found nothing is clicked; the click itself may raise. */
    method RandomClick() returns (clicked: bool)
      modifies this
      ensures old(ClickableElements(20)) == [] ==> !clicked && page == old(page)
      ensures !clicked ==> actions == old(actions)
      ensures clicked ==> |actions| == |old(actions)| + 1 && actions[..|old(actions)|] == old(actions)
      ensures clicked ==>
        actions[|old(actions)|].ClickElement? && actions[|old(actions)|].element in old(ClickableElements(20))
      ensures Clicks(actions) == Clicks(old(actions)) + (if clicked then 1 else 0)
      ensures isOpen == old(isOpen) && hasDriver == old(hasDriver) && closeCalls == old(closeCalls)
    {
      var elements := ClickableElements(20);
      if elements == [] {
        return false;
      }
      var i :| 0 <= i < |elements|;
      clicked :| true;
      if clicked {
        ClicksAppend(actions, [ClickElement(elements[i])]);
        assert [ClickElement(elements[i])][..0] == [];
        actions := actions + [ClickElement(elements[i])];
        var next: Page :| true;
        page := next;
      }
    }

    /** `scroll_page(amount)`: the scroll script may fail, and the failure
        is only logged; with no browser open it always fails. */
    method ScrollPage(amount: int)
      modifies this
      ensures actions == old(actions) || (old(isOpen) && actions == old(actions) + [ScrollBy(amount)])
      ensures !old(isOpen) ==> actions == old(actions)
      ensures page == old(page) && isOpen == old(isOpen) && hasDriver == old(hasDriver) && closeCalls == old(closeCalls)
    {
      var scriptFails: bool :| true;
      if isOpen && !scriptFails {
        actions := actions + [ScrollBy(amount)];
      }
    }

    /** `get_page_height`: the page's height, or 2000 when the script fails. */
    function PageHeight(): (h: int)
      reads this
      ensures isOpen && page.height.Some? ==> h == page.height.value
      ensures !isOpen || page.height.None? ==> h == 2000
    {
      if isOpen && page.height.Some? then page.height.value else 2000
    }

    /** `natural_scroll`: the scroll loop against the page height. Any of
        its scroll scripts may raise, which ends the loop with false after
        the scrolls sent so far (`logged`, a prefix of the whole run's
        scrolls); with no browser open the first one raises. A run with no
        pass sends no script and cannot fail. */
    method NaturalScroll(fuel: nat) returns (ok: bool, ghost steps: seq<ScrollStep>, ghost logged: seq<Action>)
      modifies this
      ensures ScrollRun(steps, old(PageHeight()), fuel)
      ensures actions == old(actions) + logged
      ensures |logged| <= |ScrollActions(steps)| && logged == ScrollActions(steps)[..|logged|]
      ensures ok <==> logged == ScrollActions(steps)
      ensures ok ==> old(isOpen) || steps == []
      ensures !old(isOpen) ==> logged == []
      ensures Clicks(logged) == 0
      ensures page == old(page) && isOpen == old(isOpen) && hasDriver == old(hasDriver) && closeCalls == old(closeCalls)
    {
      var height := PageHeight();
      var run := ScrollLoop(height, fuel);
      var scrolls := ScrollActions(run);
      var sent := scrolls;
      if !isOpen {
        sent := [];
      } else {
        var scriptFails: bool :| true;
        if scriptFails && scrolls != [] {
          var cut :| 0 <= cut < |scrolls|;
          sent := scrolls[..cut];
        }
      }
      ScrollActionsHaveNoClicks(run);
      assert scrolls == sent + scrolls[|sent|..];
      ClicksAppend(sent, scrolls[|sent|..]);
      if !isOpen && scrolls != [] {
        assert sent != scrolls;
      }
      actions := actions + sent;
      ok := sent == scrolls;
      steps, logged := run, sent;
    }

    /** The selectors whose element can be clicked on the current page. */
    function Closable(): set<string>
      reads this
    {
      if isOpen then page.closable else {}
    }

    /** The selectors whose search box can be filled on the current page. */
    function Searchable(): set<string>
      reads this
    {
      if isOpen then page.searchable else {}
    }

    /** `handle_popups`: try the close buttons in order and click the first
        one that works; false when none does. */
    method HandlePopups() returns (closed: bool)
      modifies this
      ensures closed <==> FirstMatch(PopupSelectors(backend), old(Closable())).Some?
      ensures closed ==>
        actions == old(actions) + [ClickSelector(PopupSelectors(backend)[FirstMatch(PopupSelectors(backend), old(Closable())).value])]
      ensures !closed ==> actions == old(actions)
      ensures page == old(page) && isOpen == old(isOpen) && hasDriver == old(hasDriver) && closeCalls == old(closeCalls)
    {
      var selectors := PopupSelectors(backend);
      var hits := Closable();
      for i := 0 to |selectors|
        invariant forall k :: 0 <= k < i ==> selectors[k] !in hits
        invariant actions == old(actions)
        invariant page == old(page) && isOpen == old(isOpen) && hasDriver == old(hasDriver) && closeCalls == old(closeCalls)
      {
        if selectors[i] in hits {
          FirstMatchAt(selectors, hits, i);
          actions := actions + [ClickSelector(selectors[i])];
          return true;
        }
      }
      return false;
    }

    /** `fill_search_form(query)`: type the query into the first search box
        that works and press Enter; false when none does. Only the Selenium
        agent defines the method: on a Playwright agent the call raises
        AttributeError (`raised`), and nothing happens. */
    method FillSearchForm(query: string) returns (submitted: bool, raised: bool)
      modifies this
      ensures raised <==> backend == Playwright
      ensures submitted <==> !raised && FirstMatch(SearchSelectors, old(Searchable())).Some?
      ensures submitted ==>
        actions == old(actions) + [SubmitSearch(SearchSelectors[FirstMatch(SearchSelectors, old(Searchable())).value], query)]
      ensures !submitted ==> actions == old(actions) && page == old(page)
      ensures isOpen == old(isOpen) && hasDriver == old(hasDriver) && closeCalls == old(closeCalls)
    {
      if backend == Playwright {
        return false, true;
      }
      raised := false;
      var hits := Searchable();
      for i := 0 to |SearchSelectors|
        invariant forall k :: 0 <= k < i ==> SearchSelectors[k] !in hits
        invariant actions == old(actions) && page == old(page)
        invariant isOpen == old(isOpen) && hasDriver == old(hasDriver) && closeCalls == old(closeCalls)
      {
        if SearchSelectors[i] in hits {
          FirstMatchAt(SearchSelectors, hits, i);
          actions := actions + [SubmitSearch(SearchSelectors[i], query)];
          var results: Page :| true;
          page := results;
          return true, false;
        }
      }
      return false, false;
    }

    /** `close_browser`: afterwards no browser is open, unless Selenium's
        `driver.quit()` raised `error`. */
    method CloseBrowser() returns (error: Option<string>)
      modifies this
      ensures (error, View()) == Close(old(View()), error)
    {
      closeCalls := closeCalls + 1;
      if backend == Selenium && hasDriver {
        var raises: bool :| true;
        if raises {
          var message: string :| true;
          return Some(message);
        }
      }
      isOpen := false;
      error := None;
    }
  }

  /** `create_agent(logger, config)`: an agent for the configured engine. The
      engine's package may be missing, in which case the constructor raises
      ImportError (null here). */
  method CreateAgent(settings: Settings) returns (agent: BrowserAgent?)
    ensures agent != null ==> fresh(agent) && agent.backend == SelectBackend(settings.browserType)
    ensures agent != null ==> !agent.isOpen && !agent.hasDriver && agent.actions == [] && agent.closeCalls == 0
  {
    var installed: bool :| true;
    if !installed {
      return null;
    }
    agent := new BrowserAgent(SelectBackend(settings.browserType));
  }
}
