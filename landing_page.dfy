/**
  The controllers of the landing page (script.js): theme toggle, smooth
  in-page scrolling, navbar shadow, showcase tabs, install buttons, the
  reveal-on-scroll observer, the scroll-to-top button and the mobile menu.
  Each singleton object of the script is a class over the UI state it
  changes; the DOM is reduced to the flags, attributes and stored strings
  those controllers read and write.
 */
module LandingPage {
  import opened Js

  // ------------------------------------------------------------------
  // ThemeManager
  // ------------------------------------------------------------------

  /** The `localStorage` key of the theme and the two theme values. */
  const ThemeKey := "theme"
  const Dark := "dark"
  const Light := "light"

  /** The theme `ThemeManager.init` starts from: the stored `theme` value
      when it is truthy, else `'dark'`. */
  function InitialTheme(storage: map<string, string>): (theme: string)
    ensures theme != ""
    ensures theme == Dark || (ThemeKey in storage && theme == storage[ThemeKey])
    ensures ThemeKey in storage && storage[ThemeKey] != "" ==> theme == storage[ThemeKey]
  {
    if ThemeKey in storage && storage[ThemeKey] != "" then storage[ThemeKey] else Dark
  }

  /** The theme after one toggle: `'dark'` becomes `'light'`, any other
      value (a stored value that is neither, too) becomes `'dark'`. */
  function Toggled(theme: string): (next: string)
    ensures next == Dark || next == Light
    ensures next == Light <==> theme == Dark
  {
    if theme == Dark then Light else Dark
  }

  /** The theme after `n` clicks on the toggle. */
  function ToggledTimes(theme: string, n: nat): string
  {
    if n == 0 then theme else Toggled(ToggledTimes(theme, n - 1))
  }

  /** From either theme value, two toggles restore it. */
  lemma ToggleIsInvolution(theme: string)
    requires theme == Dark || theme == Light
    ensures Toggled(Toggled(theme)) == theme
  {
  }

  /** From either theme value, an even number of toggles restores it and an
      odd number gives the other one. */
  lemma {:induction false} ToggleParity(theme: string, n: nat)
    requires theme == Dark || theme == Light
    ensures ToggledTimes(theme, n) == if n % 2 == 0 then theme else Toggled(theme)
  {
    if n > 0 {
      ToggleParity(theme, n - 1);
      ToggleIsInvolution(theme);
    }
  }

  class ThemeManager {
    /** `localStorage.getItem` and `localStorage.setItem` do not throw (both
        throw when the browser blocks site data; a full quota makes only
        `setItem` throw). */
    const storageReadable: bool
    const storageWritable: bool
    /** `init` attached the click listener: the stored theme could be read
        and `.theme-toggle` exists. */
    const wired: bool
    /** `this.currentTheme`; `init` leaves it unassigned, `''` here, when
        reading the stored theme throws. */
    var currentTheme: string
    /** The `data-theme` attribute of the document element. */
    var dataTheme: string
    var localStorage: map<string, string>

    /** `init`: read the stored theme and apply it to the document. When
        the read throws, `init` stops there: the attribute keeps the value
        `markupTheme` the markup gives it and no listener is attached. */
    constructor Init(storage: map<string, string>, storageReadable: bool, storageWritable: bool,
                     hasToggle: bool, markupTheme: string)
      ensures this.storageReadable == storageReadable && this.storageWritable == storageWritable
      ensures wired == (storageReadable && hasToggle)
      ensures storageReadable ==> currentTheme == InitialTheme(storage) && dataTheme == currentTheme
      ensures !storageReadable ==> dataTheme == markupTheme
      ensures localStorage == storage
    {
      this.storageReadable := storageReadable;
      this.storageWritable := storageWritable;
      wired := storageReadable && hasToggle;
      if storageReadable {
        currentTheme := InitialTheme(storage);
        dataTheme := currentTheme;
      } else {
        currentTheme := "";
        dataTheme := markupTheme;
      }
      localStorage := storage;
    }

    /** `toggleTheme`, the click listener: flip the theme, apply it and
        persist it. When `setItem` throws, the theme and the attribute have
        already changed and the stored value has not. */
    method ToggleTheme()
      requires wired
      modifies this
      ensures currentTheme == Toggled(old(currentTheme))
      ensures dataTheme == currentTheme
      ensures storageWritable ==> localStorage == old(localStorage)[ThemeKey := currentTheme]
      ensures !storageWritable ==> localStorage == old(localStorage)
    {
      currentTheme := if currentTheme == Dark then Light else Dark;
      dataTheme := currentTheme;
      if storageWritable {
        localStorage := localStorage[ThemeKey := currentTheme];
      }
    }
  }

  // ------------------------------------------------------------------
  // SmoothScroll
  // ------------------------------------------------------------------

  /** Height of the fixed navbar that an in-page scroll leaves room for. */
  const NavHeight := 64

  /** `SmoothScroll.init` attaches `handleClick` to the anchors that
      `a[href^="#"]` selects: those whose `href` starts with `#`. */
  predicate SmoothScrollSelects(href: Option<string>)
  {
    href.Some? && |href.value| > 0 && href.value[0] == '#'
  }

  /** `SmoothScroll.handleClick` on an anchor with attribute `href`: the
      `top` it smooth-scrolls to after preventing the default, or None when
      it leaves the click to the browser. `offsetTops` maps each selector
      that `document.querySelector` resolves to the `offsetTop` of the
      element it finds. */
  function AnchorScrollTop(href: Option<string>, offsetTops: map<string, int>): (top: Option<int>)
    ensures href == None || href == Some("") || href == Some("#") ==> top == None
    ensures top.Some? <==>
              href.Some? && |href.value| > 1 && href.value[0] == '#' && href.value in offsetTops
    ensures top.Some? ==> top.value == offsetTops[href.value] - NavHeight
  {
    if !Truthy(href) || href.value == "#" then None
    else if href.value[0] == '#' && |href.value| > 1 then
      if href.value in offsetTops then Some(offsetTops[href.value] - NavHeight) else None
    else None
  }

  /** On an anchor `init` wired, the click scrolls exactly when the anchor
      is not the bare `#` and its target exists; every anchor that scrolls
      was wired. */
  lemma WiredAnchorScrolls(href: Option<string>, offsetTops: map<string, int>)
    ensures SmoothScrollSelects(href) ==>
              (AnchorScrollTop(href, offsetTops).Some? <==> href.value != "#" && href.value in offsetTops)
    ensures AnchorScrollTop(href, offsetTops).Some? ==> SmoothScrollSelects(href)
  {
  }

  // ------------------------------------------------------------------
  // NavbarScroll and ScrollToTop
  // ------------------------------------------------------------------

  /** The navbar's inline `box-shadow` values and the offset beyond which
      the shadow is shown. */
  const ShadowOn := "0 2px 12px rgba(0, 0, 0, 0.1)"
  const ShadowOff := "none"
  const ShadowThreshold := 50.0

  /** The offset beyond which the scroll-to-top button is `visible`. */
  const ScrollThreshold := 300.0

  /** The navbar shadow for a vertical scroll offset. */
  function NavbarShadow(pageYOffset: real): (shadow: string)
    ensures shadow == ShadowOn || shadow == ShadowOff
    ensures shadow == ShadowOn <==> pageYOffset > ShadowThreshold
  {
    if pageYOffset > ShadowThreshold then ShadowOn else ShadowOff
  }

  class NavbarScroll {
    /** `document.querySelector('.navbar')` found the navbar. */
    const hasNavbar: bool
    /** The navbar's inline `box-shadow`. */
    var boxShadow: string
    var lastScroll: real

    /** `init`: the shadow is left as the markup has it. */
    constructor Init(hasNavbar: bool, boxShadow: string)
      ensures this.hasNavbar == hasNavbar
      ensures this.boxShadow == boxShadow && lastScroll == 0.0
    {
      this.hasNavbar := hasNavbar;
      this.boxShadow := boxShadow;
      lastScroll := 0.0;
    }

    /** `handleScroll`: set the shadow from the offset and remember it.
        Without a navbar, setting the shadow throws, before `lastScroll` is
        updated, and nothing changes. */
    method HandleScroll(pageYOffset: real)
      modifies this
      ensures hasNavbar ==> boxShadow == NavbarShadow(pageYOffset) && lastScroll == pageYOffset
      ensures !hasNavbar ==> boxShadow == old(boxShadow) && lastScroll == old(lastScroll)
    {
      if !hasNavbar {
        return;
      }
      if pageYOffset > ShadowThreshold {
        boxShadow := ShadowOn;
      } else {
        boxShadow := ShadowOff;
      }
      lastScroll := pageYOffset;
    }
  }

  class ScrollToTop {
    /** The button has the class `visible`. */
    var visible: bool

    /** `init`: the created button starts without `visible`. */
    constructor Init()
      ensures !visible
    {
      visible := false;
    }

    /** `handleScroll`: the button is visible exactly beyond the threshold. */
    method HandleScroll(pageYOffset: real)
      modifies this
      ensures visible <==> pageYOffset > ScrollThreshold
    {
      if pageYOffset > ScrollThreshold {
        visible := true;
      } else {
        visible := false;
      }
    }
  }

  // ------------------------------------------------------------------
  // ShowcaseTabs
  // ------------------------------------------------------------------

  /** Pane `i` is active exactly when its `data-pane` equals the `data-tab`
      of the clicked tab; two missing attributes are both `null`, so equal. */
  ghost predicate ShowsPanesOf(paneActive: seq<bool>, paneIds: seq<Option<string>>, target: Option<string>)
  {
    && |paneActive| == |paneIds|
    && forall i :: 0 <= i < |paneIds| ==> (paneActive[i] <==> paneIds[i] == target)
  }

  /** With distinct pane ids, the pane whose id matches is the only active one. */
  lemma DistinctPanesShowOne(paneActive: seq<bool>, paneIds: seq<Option<string>>, target: Option<string>, j: nat)
    requires ShowsPanesOf(paneActive, paneIds, target)
    requires forall a, b :: 0 <= a < b < |paneIds| ==> paneIds[a] != paneIds[b]
    requires j < |paneIds| && paneIds[j] == target
    ensures forall i :: 0 <= i < |paneIds| ==> (paneActive[i] <==> i == j)
  {
  }

  /** Without distinct pane ids the rule is not "at most one": two panes
      sharing the target id are both shown. */
  lemma RepeatedPaneIdShowsBoth(paneActive: seq<bool>)
    requires ShowsPanesOf(paneActive, [Some("a"), Some("a")], Some("a"))
    ensures paneActive == [true, true]
  {
  }

  class ShowcaseTabs {
    /** The `data-tab` of each `.tab-btn` and the `data-pane` of each
        `.tab-pane`, in document order. */
    const tabIds: seq<Option<string>>
    const paneIds: seq<Option<string>>
    /** Whether each tab and each pane has the class `active`. */
    var tabActive: seq<bool>
    var paneActive: seq<bool>

    ghost predicate Valid()
      reads this
    {
      |tabActive| == |tabIds| && |paneActive| == |paneIds|
    }

    /** `init`: the tabs and panes as the markup has them. */
    constructor Init(tabIds: seq<Option<string>>, paneIds: seq<Option<string>>,
                     tabActive: seq<bool>, paneActive: seq<bool>)
      requires |tabActive| == |tabIds| && |paneActive| == |paneIds|
      ensures Valid()
      ensures this.tabIds == tabIds && this.paneIds == paneIds
      ensures this.tabActive == tabActive && this.paneActive == paneActive
    {
      this.tabIds := tabIds;
      this.paneIds := paneIds;
      this.tabActive := tabActive;
      this.paneActive := paneActive;
    }

    /** `switchTab(clickedTab)`, for the tab at index `k`. */
    method SwitchTab(k: nat)
      requires Valid() && k < |tabIds|
      modifies this
      ensures Valid()
      ensures tabActive == OnlyAt(|tabIds|, k)
      ensures ShowsPanesOf(paneActive, paneIds, tabIds[k])
    {
      var targetPane := tabIds[k];
      var i := 0;
      while i < |tabActive|
        invariant 0 <= i <= |tabActive| == |tabIds|
        invariant |paneActive| == |paneIds|
        invariant forall j :: 0 <= j < i ==> !tabActive[j]
      {
        tabActive := tabActive[i := false];
        i := i + 1;
      }
      tabActive := tabActive[k := true];
      i := 0;
      while i < |paneActive|
        invariant 0 <= i <= |paneActive| == |paneIds|
        invariant tabActive == OnlyAt(|tabIds|, k)
        invariant forall j :: 0 <= j < i ==> (paneActive[j] <==> paneIds[j] == targetPane)
      {
        if paneIds[i] == targetPane {
          paneActive := paneActive[i := true];
        } else {
          paneActive := paneActive[i := false];
        }
        i := i + 1;
      }
    }
  }

  // ------------------------------------------------------------------
  // InstallHandler
  // ------------------------------------------------------------------

  const InstallAnchor := "#install"

  /** Whether `InstallHandler.handleClick` takes over a click: exactly for
      the placeholder hrefs `'#'` and `'#install'`. */
  predicate InstallIntercepts(href: Option<string>)
  {
    href == Some("#") || href == Some(InstallAnchor)
  }

  /** The buttons `init` attaches the handler to: `a[href="#install"]` and
      `.btn-primary[href="#"]`. */
  predicate SelectedForInstall(isAnchor: bool, isPrimaryButton: bool, href: Option<string>)
  {
    (isAnchor && href == Some(InstallAnchor)) || (isPrimaryButton && href == Some("#"))
  }

  /** Every button `init` selects is intercepted while its href is unchanged. */
  lemma SelectedButtonsAreIntercepted(isAnchor: bool, isPrimaryButton: bool, href: Option<string>)
    requires SelectedForInstall(isAnchor, isPrimaryButton, href)
    ensures InstallIntercepts(href)
  {
  }

  class InstallHandler {
    /** How many "coming soon" notifications have been appended to the page. */
    var notificationsShown: nat

    constructor Init()
      ensures notificationsShown == 0
    {
      notificationsShown := 0;
    }

    /** `handleClick(e, btn)` for a button whose href is `href`:
        `defaultPrevented` is whether `e.preventDefault()` was called. */
    method HandleClick(href: Option<string>) returns (defaultPrevented: bool)
      modifies this
      ensures defaultPrevented <==> InstallIntercepts(href)
      ensures notificationsShown == old(notificationsShown) + (if defaultPrevented then 1 else 0)
    {
      defaultPrevented := false;
      if href == Some("#") || href == Some(InstallAnchor) {
        defaultPrevented := true;
        notificationsShown := notificationsShown + 1;
      }
    }
  }

  // ------------------------------------------------------------------
  // AnimationObserver
  // ------------------------------------------------------------------

  /** The identity of a DOM element. */
  type Element = nat

  /** One IntersectionObserver entry. */
  datatype IntersectionEntry = IntersectionEntry(target: Element, isIntersecting: bool)

  /** The targets of the intersecting entries of a batch. */
  function IntersectingTargets(entries: seq<IntersectionEntry>): (targets: set<Element>)
    ensures forall t :: t in targets <==>
              exists i :: 0 <= i < |entries| && entries[i].target == t && entries[i].isIntersecting
  {
    if entries == [] then {}
    else
      var last := entries[|entries| - 1];
      var before := IntersectingTargets(entries[..|entries| - 1]);
      assert forall i :: 0 <= i < |entries| - 1 ==> entries[..|entries| - 1][i] == entries[i];
      if last.isIntersecting then before + {last.target} else before
  }

  class AnimationObserver {
    /** The elements the observer still observes. */
    var observed: set<Element>
    /** The elements whose `slideUp` animation has been set. */
    var animated: set<Element>

    /** An animated element is no longer observed, so the observer cannot
        report it again and it animates at most once. */
    ghost predicate Valid()
      reads this
    {
      animated !! observed
    }

    /** `init`: observe the feature cards, doc cards and install steps. */
    constructor Init(elements: set<Element>)
      ensures Valid() && observed == elements && animated == {}
    {
      observed := elements;
      animated := {};
    }

    /** `handleIntersection(entries)`: animate and unobserve each
        intersecting target; leave the others alone. */
    method HandleIntersection(entries: seq<IntersectionEntry>)
      requires Valid()
      modifies this
      ensures Valid()
      ensures animated == old(animated) + IntersectingTargets(entries)
      ensures observed == old(observed) - IntersectingTargets(entries)
    {
      for i := 0 to |entries|
        invariant animated == old(animated) + IntersectingTargets(entries[..i])
        invariant observed == old(observed) - IntersectingTargets(entries[..i])
      {
        assert entries[..i + 1][..i] == entries[..i];
        if entries[i].isIntersecting {
          animated := animated + {entries[i].target};
          observed := observed - {entries[i].target};
        }
      }
      assert entries[..|entries|] == entries;
    }
  }

  // ------------------------------------------------------------------
  // MobileMenu
  // ------------------------------------------------------------------

  /** The `active` class of the toggle button, the menu and the backdrop,
      and `document.body.style.overflow`. */
  datatype MenuState = MenuState(toggleActive: bool, menuActive: bool, backdropActive: bool, bodyOverflow: string)

  const Hidden := "hidden"

  /** `toggleMenu`: flip the three flags; the body is scroll-locked exactly
      when the menu is now open. */
  function MenuToggled(s: MenuState): (t: MenuState)
    ensures t.toggleActive == !s.toggleActive
    ensures t.menuActive == !s.menuActive
    ensures t.backdropActive == !s.backdropActive
    ensures t.bodyOverflow == Hidden <==> t.menuActive
  {
    var menuActive := !s.menuActive;
    MenuState(!s.toggleActive, menuActive, !s.backdropActive, if menuActive then Hidden else "")
  }

  /** `closeMenu`: clear the three flags and the overflow lock. */
  function MenuClosed(s: MenuState): (t: MenuState)
    ensures !t.toggleActive && !t.menuActive && !t.backdropActive && t.bodyOverflow == ""
  {
    MenuState(false, false, false, "")
  }

  /** Where a click lands; with `insideNavbar`, whether the target lies
      inside `.navbar`. */
  datatype ClickTarget = ToggleButton | Backdrop | MenuLink | Elsewhere
  datatype MenuClick = MenuClick(on: ClickTarget, insideNavbar: bool)

  /** Every listener `init` attached, for one click: the target's own
      listener runs first, then the document's, which closes the menu when
      the click is outside the navbar. */
  function AfterClick(s: MenuState, c: MenuClick): (t: MenuState)
    // outside the navbar the menu ends closed, whatever was clicked
    ensures !c.insideNavbar ==> t == MenuClosed(s)
    ensures c.insideNavbar ==>
              t == match c.on
                   case ToggleButton => MenuToggled(s)
                   case Backdrop => MenuClosed(s)
                   case MenuLink => MenuClosed(s)
                   case Elsewhere => s
  {
    var s' := match c.on
      case ToggleButton => MenuToggled(s)
      case Backdrop => MenuClosed(s)
      case MenuLink => MenuClosed(s)
      case Elsewhere => s;
    if c.insideNavbar then s' else MenuClosed(s')
  }

  function AfterClicks(s: MenuState, clicks: seq<MenuClick>): MenuState
    decreases |clicks|
  {
    if clicks == [] then s else AfterClicks(AfterClick(s, clicks[0]), clicks[1..])
  }

  /** The three flags agree, and the body is scroll-locked exactly while
      the menu is open. */
  predicate InStep(s: MenuState)
  {
    && s.toggleActive == s.menuActive
    && s.backdropActive == s.menuActive
    && (s.bodyOverflow == Hidden <==> s.menuActive)
  }

  /** Closing twice is closing once. */
  lemma CloseIsIdempotent(s: MenuState)
    ensures MenuClosed(MenuClosed(s)) == MenuClosed(s)
  {
  }

  /** One click keeps the three flags and the lock in step. */
  lemma ClickKeepsMenuInStep(s: MenuState, c: MenuClick)
    requires InStep(s)
    ensures InStep(AfterClick(s, c))
  {
  }

  /** Starting in step (for instance all off, the page as loaded), any
      sequence of clicks keeps the flags and the lock in step. */
  lemma {:induction false} ClicksKeepMenuInStep(s: MenuState, clicks: seq<MenuClick>)
    requires InStep(s)
    ensures InStep(AfterClicks(s, clicks))
    decreases |clicks|
  {
    if clicks != [] {
      ClickKeepsMenuInStep(s, clicks[0]);
      ClicksKeepMenuInStep(AfterClick(s, clicks[0]), clicks[1..]);
    }
  }

  class MobileMenu {
    /** `init` found the toggle, the menu and the backdrop and attached
        its listeners; otherwise it returned early. */
    const wired: bool
    var toggleActive: bool
    var menuActive: bool
    var backdropActive: bool
    var bodyOverflow: string

    function State(): MenuState
      reads this
    {
      MenuState(toggleActive, menuActive, backdropActive, bodyOverflow)
    }

    constructor Init(hasToggle: bool, hasMenu: bool, hasBackdrop: bool, initial: MenuState)
      ensures wired <==> hasToggle && hasMenu && hasBackdrop
      ensures State() == initial
    {
      wired := hasToggle && hasMenu && hasBackdrop;
      toggleActive := initial.toggleActive;
      menuActive := initial.menuActive;
      backdropActive := initial.backdropActive;
      bodyOverflow := initial.bodyOverflow;
    }

    /** `toggleMenu`, reachable once the three elements exist. */
    method ToggleMenu()
      requires wired
      modifies this
      ensures State() == MenuToggled(old(State()))
    {
      toggleActive := !toggleActive;
      menuActive := !menuActive;
      backdropActive := !backdropActive;
      bodyOverflow := if menuActive then Hidden else "";
    }

    /** `closeMenu`. */
    method CloseMenu()
      requires wired
      modifies this
      ensures State() == MenuClosed(old(State()))
    {
      toggleActive := false;
      menuActive := false;
      backdropActive := false;
      bodyOverflow := "";
    }

    /** One click anywhere on the page; nothing listens when `init`
        returned early. */
    method Click(c: MenuClick)
      modifies this
      ensures State() == if wired then AfterClick(old(State()), c) else old(State())
    {
      if !wired {
        return;
      }
      match c.on {
        case ToggleButton => ToggleMenu();
        case Backdrop => CloseMenu();
        case MenuLink => CloseMenu();
        case Elsewhere =>
      }
      if !c.insideNavbar {
        CloseMenu();
      }
    }
  }
}
