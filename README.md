# MarkView landing site: a verified model of its page controllers

The MarkView site (the promotional pages of a Markdown-viewer browser
extension) is made of small DOM controllers. Beneath the DOM calls each one is
a finite state machine or a decision rule, and that layer is what this project
models and proves things about:

- **Landing page** (`script.js`, module `LandingPage`): the theme toggle with
  its persisted value, smooth in-page anchor scrolling, the navbar shadow and
  scroll-to-top thresholds, the showcase tabs, the placeholder install buttons,
  the reveal-on-scroll observer and the mobile menu.
- **Video facade** (`js/video-demo.js`, module `VideoDemo`): a placeholder that
  becomes an embedded player on the first play or timestamp click, after a
  300 ms timer. Once loaded, timestamp links seek the player by rewriting its
  URL.
- **Checkout success page** (`js/success.js`, module `SuccessPage`): it reads
  `checkout_id` and `customer_session_token` from the callback query. It asks
  an optional license endpoint for a key; no endpoint is configured in the
  shipped code. It then shows the error view or the content, and caches the
  checkout in session storage.
- **Changelog** (`js/whats-new.js`, module `WhatsNew`): clicking a version
  card's header collapses or expands that card; the latest card has no
  listener.

Module `Js` holds the JavaScript value rules these need: nullable values,
truthiness of nullable strings (`null` and `''` are falsy), and what a template
literal makes of `null` (`"null"`).

Each controller object of `script.js` and `js/video-demo.js` whose fields the
code updates is a Dafny `class` (`ThemeManager`, `NavbarScroll`,
`ShowcaseTabs`, `MobileMenu`, `VideoTimestamps`, ...). `js/success.js` and
`js/whats-new.js` have no such objects: they are free functions and one
`forEach` that change the page. There the page elements they change are the
fields of a class (`SuccessController`, `VersionCards`), and each function
that changes them is a method. The DOM is
reduced to the class flags, attributes, inline styles and stored strings that
the controllers read and write. Where several events follow one another, a pure
specification function gives the effect of one event on a datatype of the
state (`MenuState`, `VideoState`, `PageState`). Each class method is proved to
have exactly that effect, and properties over whole event sequences are proved
as lemmas about those functions. Timers, clicks and network replies are
explicit inputs: the video's 300 ms completion is the event `LoadTimer`, and
the license reply is given to `init` as `LicenseReply`.

Behaviours of the code that the model keeps, and that a quick reading might
miss:

- The initial theme is whatever non-empty string is stored under `theme`, so
  it need not be `dark` or `light`. One toggle turns any value other than
  `dark` into `dark`.
- A tab without `data-tab` activates every pane without `data-pane`, since both
  attributes read as `null`. Panes that share an id are all shown. "Exactly one
  pane" holds only for distinct pane ids (`DistinctPanesShowOne`,
  `RepeatedPaneIdShowsBoth`).
- `checkout_id=` (an empty value) is falsy and leads to the error view.
- A click on the mobile toggle outside `.navbar` opens the menu, and the
  document listener then closes it again (`AfterClick`).
- A second timestamp click before the timer fires schedules a second player.
  That player later replaces the first one, and with it any seek made in
  between (`ClickBeforeTimerLoadsTwice`).
- A seek always targets the fixed video `DVsQg_OBTHs`, whatever the facade's
  `data-video-id` says. A link without `data-time` seeks to `start=null`.
- On the changelog, a non-latest card without `.version-header` makes
  `header.addEventListener` throw. That ends the `forEach`: no later card gets
  a listener (`WiredBySetup`).
- In the success page's `catch`, a missing `#loading` element throws again, so
  the content is then not shown.

## Model

| member | source | states |
|---|---|---|
| LandingPage.InitialTheme | script.js:12 | the initial theme is never empty; it is the stored `theme` value when that is non-empty, and `dark` otherwise |
| LandingPage.ThemeManager.Init | script.js:10-21 | when the stored theme can be read, `init` sets the current theme to the initial theme and the document's `data-theme` to it; when the read throws, the attribute keeps the markup's value and no listener is attached; storage is unchanged either way |
| LandingPage.Toggled | script.js:24 | a toggle always gives `dark` or `light`, and gives `light` exactly when the theme was `dark` |
| LandingPage.ToggleIsInvolution | script.js:23-26 | from `dark` or `light`, two toggles restore the theme |
| LandingPage.ToggleParity | script.js:23-26 | from `dark` or `light`, an even number of toggles restores the theme and an odd number gives the other one |
| LandingPage.ThemeManager.ToggleTheme | script.js:23-26 | the new theme is the toggled old one and the attribute equals it; `localStorage` is the old storage with `theme` set to it, or unchanged when `setItem` throws |
| LandingPage.SmoothScrollSelects | script.js:39 | the anchors `a[href^="#"]` selects: an `href` that starts with `#` |
| LandingPage.WiredAnchorScrolls | script.js:39-57 | on a wired anchor, a click scrolls exactly when the `href` is not the bare `#` and its target exists; every anchor that scrolls is one `init` wired |
| LandingPage.AnchorScrollTop | script.js:44-65 | a null, empty or `'#'` href is ignored; a scroll happens exactly for an href longer than one character, starting with `#`, whose target exists; it goes to the target's `offsetTop - 64` |
| LandingPage.NavbarShadow | script.js:80-84 | the shadow is one of the two literal values, and is the visible one exactly when the offset is above 50 |
| LandingPage.NavbarScroll.Init | script.js:70-73 | whether `.navbar` was found is recorded, `lastScroll` starts at 0 and the shadow is left as it was |
| LandingPage.NavbarScroll.HandleScroll | script.js:77-87 | with a navbar, the shadow follows the threshold rule for the current offset and `lastScroll` becomes that offset; without one, setting the shadow throws first and nothing changes |
| LandingPage.ScrollToTop.Init | script.js:219-222 | the created button starts without `visible` |
| LandingPage.ScrollToTop.HandleScroll | script.js:240-247 | the button is `visible` exactly when the offset is above 300 |
| LandingPage.ShowcaseTabs.Init | script.js:92-94 | the tabs and panes with their ids and classes, as the page has them |
| LandingPage.ShowcaseTabs.SwitchTab | script.js:101-117 | afterwards the clicked tab is the only active tab, and each pane is active exactly when its `data-pane` equals the clicked tab's `data-tab` (null equal to null) |
| LandingPage.ShowsPanesOf | script.js:109-116 | each pane is active exactly when its `data-pane` equals the clicked tab's `data-tab`, two nulls being equal |
| LandingPage.DistinctPanesShowOne | script.js:109-116 | with distinct pane ids, the matching pane is the only active one |
| LandingPage.RepeatedPaneIdShowsBoth | script.js:109-116 | two panes with the target id are both active, so "at most one pane" does not hold without distinct ids |
| LandingPage.InstallIntercepts | script.js:132 | the test of `handleClick`: the href is `'#'` or `'#install'` |
| LandingPage.SelectedForInstall | script.js:125 | the buttons `init` selects: `a[href="#install"]` and `.btn-primary[href="#"]` |
| LandingPage.SelectedButtonsAreIntercepted | script.js:125 | every button that `init` selects (`a[href="#install"]`, `.btn-primary[href="#"]`) is intercepted while its href is unchanged |
| LandingPage.InstallHandler.Init | script.js:124-129 | no notification has been shown yet |
| LandingPage.InstallHandler.HandleClick | script.js:131-137 | the default is prevented exactly when the href is `'#'` or `'#install'`, and one notification is added exactly then |
| LandingPage.IntersectingTargets | script.js:179-180 | an element is in the set exactly when some entry of the batch targets it and is intersecting |
| LandingPage.AnimationObserver.Init | script.js:167-176 | the given elements are observed and none is animated |
| LandingPage.AnimationObserver.HandleIntersection | script.js:178-185 | exactly the intersecting targets are animated and unobserved; animated elements are never observed, so each animates at most once |
| LandingPage.MenuToggled | script.js:378-383 | all three `active` flags flip, and the body overflow is `hidden` exactly when the menu is now active |
| LandingPage.MenuClosed | script.js:385-390 | all three flags are off and the overflow is reset |
| LandingPage.AfterClick | script.js:360-375 | outside the navbar the menu ends closed whatever the target; inside it, the toggle toggles, the backdrop and a menu link close, and any other target changes nothing |
| LandingPage.CloseIsIdempotent | script.js:385-390 | closing twice is the same as closing once |
| LandingPage.ClickKeepsMenuInStep | script.js:360-375 | one click (toggle, backdrop, link or elsewhere, inside the navbar or not) keeps the three flags equal and the overflow lock equal to "menu open" |
| LandingPage.ClicksKeepMenuInStep | script.js:360-390 | from an in-step state such as all-off, any sequence of clicks keeps the flags and the lock in step |
| LandingPage.MobileMenu.Init | script.js:352-358 | the menu is wired exactly when the toggle, the menu and the backdrop all exist |
| LandingPage.MobileMenu.ToggleMenu | script.js:378-383 | the state becomes the toggled state |
| LandingPage.MobileMenu.CloseMenu | script.js:385-390 | the state becomes the closed state |
| LandingPage.MobileMenu.Click | script.js:358-375 | a click runs the target's own listener and then the document's, which closes the menu outside the navbar; without wiring nothing changes |
| VideoDemo.StartGiven | js/video-demo.js:53 | `startTime &&` passes exactly for a link time that is present and non-empty |
| VideoDemo.EmbedParams | js/video-demo.js:51-55 | the parameters always start with `si` and end with `autoplay=1`; a `start` parameter is present exactly when the start time is truthy, so the default 0 omits it, and it then carries that time; without it the parameters are exactly `si` and `autoplay` |
| VideoDemo.QueryString | js/video-demo.js:60 | the serialised parameters are empty exactly when there are no parameters |
| VideoDemo.EmbedQuery | js/video-demo.js:51-60 | the query string of a load is `si=…`, then `&start=<time>` for a truthy start time, then `&autoplay=1` |
| VideoDemo.EmbedUrl | js/video-demo.js:50-60 | the player URL is the embed prefix, the facade's `data-video-id` (`null` when missing), `?` and that query string |
| VideoDemo.SeekUrl | js/video-demo.js:87-89 | a seek URL always starts with the fixed video's base URL; a link without `data-time` seeks to `start=null` |
| VideoDemo.SeekMatchesEmbed | js/video-demo.js:87-89 | for the page's own video and a truthy link time, the seek URL equals the URL a fresh load at that time builds |
| VideoDemo.Initial | js/video-demo.js:10-11 | the starting fields: `iframe` null, not loaded, the placeholder shown and nothing scheduled |
| VideoDemo.InitialIsValid | js/video-demo.js:10-11 | the starting state (`iframe` null, not loaded, placeholder shown) satisfies the facade invariant |
| VideoDemo.LoadStarted | js/video-demo.js:40-75 | a no-op when loaded; otherwise the spinner replaces the facade and one more player is scheduled; the synchronous part never sets `videoLoaded` or `iframe` |
| VideoDemo.LoadCompleted | js/video-demo.js:69-74 | the timer puts the oldest scheduled player in the facade, makes it `iframe`, and sets `videoLoaded` |
| VideoDemo.TimestampClicked | js/video-demo.js:77-94 | when not loaded, a load starts at the link's time; when loaded, the player's URL becomes the fixed seek URL and nothing else about the load changes; either way exactly the clicked link is active |
| VideoDemo.TimestampsToggled | js/video-demo.js:28-32 | the toggle flips `expanded` and changes nothing else |
| VideoDemo.Wired | js/video-demo.js:19 | `init` attaches listeners only when the facade exists and there is at least one timestamp link |
| VideoDemo.Enabled | js/video-demo.js:19-37 | an event can happen only when its listener was attached: the play button in the placeholder, an existing link, the toggle with its container, a scheduled timer |
| VideoDemo.Step | js/video-demo.js:19-37 | every event keeps the facade invariant; none unloads the video; only the timer loads it |
| VideoDemo.Run | js/video-demo.js:19-37 | any event sequence from a valid state ends in a valid state |
| VideoDemo.LoadedStaysLoaded | js/video-demo.js:41-73 | once loaded, the video stays loaded over any events |
| VideoDemo.OnlyTimerLoads | js/video-demo.js:69-74 | a run that loads the video contains a timer firing, however many clicks it has |
| VideoDemo.UnwiredPageIsInert | js/video-demo.js:19 | with the facade missing or no timestamp links, no event changes anything |
| VideoDemo.ClickBeforeTimerLoadsTwice | js/video-demo.js:41-74 | two clicks before the timer schedule two players; after the first timer the video is loaded and the second player is still pending |
| VideoDemo.VideoTimestamps.Init | js/video-demo.js:9-18 | the object starts unloaded with `iframe` null and the page as found |
| VideoDemo.VideoTimestamps.LoadVideo | js/video-demo.js:40-67 | the state becomes the started-load state |
| VideoDemo.VideoTimestamps.CompleteLoad | js/video-demo.js:69-74 | the state becomes the completed-load state |
| VideoDemo.VideoTimestamps.HandleTimestampClick | js/video-demo.js:77-94 | the state becomes the clicked-timestamp state |
| VideoDemo.VideoTimestamps.ToggleTimestamps | js/video-demo.js:29-31 | only `expanded` flips |
| VideoDemo.VideoTimestamps.Handle | js/video-demo.js:19-37 | dispatching a possible event has exactly the effect `Step` gives |
| SuccessPage.GetUrlParam | js/success.js:10-13 | null exactly when no pair has the name; otherwise the value of the first pair with that name |
| SuccessPage.EarlierPairWins | js/success.js:10-13 | appending pairs never changes a value that is already found |
| SuccessPage.ExtractCheckoutData | js/success.js:18-27 | each of `checkout_id` and `customer_session_token` is null exactly when absent and otherwise its first value; the timestamp is the current time |
| SuccessPage.FetchLicenseKeyFrom | js/success.js:57-97 | a request is sent exactly when both the token and the endpoint are truthy; a key comes back only from an ok reply with a non-empty `license_key`, and then it is that one |
| SuccessPage.FetchLicenseKey | js/success.js:69-74 | as shipped, with no endpoint, no request is ever sent and the result is always null |
| SuccessPage.LicenseShown | js/success.js:104-139 | a falsy key changes nothing; otherwise the key section is inserted when the instructions exist and the banner is updated when it exists; nothing else changes |
| SuccessPage.Initialized | js/success.js:221-292 | no `checkout_id`: the error view, no request, no session-storage write; with a `checkout_id`, the loading view is hidden and the content shown even when a later statement throws; both session keys are written when nothing throws, and only on this path; no key is shown when no endpoint is configured; a key returned by an ok reply is shown once the content is; a reply that threw, was not ok or had no key shows no key section and leaves the banner alone |
| SuccessPage.ErrorShown | js/success.js:166-169 | the error view is shown exactly when it was already, or the container exists; nothing else changes |
| SuccessPage.SuccessSteps | js/success.js:248-284 | nothing throws exactly when both views exist, analytics does not throw and storage is writable; the key and the purchase date appear only once the content is shown; the checkout is written to session storage only when nothing threw |
| SuccessPage.Recovered | js/success.js:285-291 | `#loading` is hidden when it exists, `#content` is shown when both exist, and nothing else changes |
| SuccessPage.SuccessController.Load | js/success.js:294-299 | the page as loaded: nothing shown, inserted or requested yet |
| SuccessPage.SuccessController.DisplayLicenseKey | js/success.js:104-139 | the page becomes the license-shown state |
| SuccessPage.SuccessController.DisplayError | js/success.js:166-169 | the container, when present, shows the error view |
| SuccessPage.SuccessController.ShowSuccess | js/success.js:248-284 | the statements of the `try` block from line 249 on, stopping at the first one that throws |
| SuccessPage.SuccessController.Recover | js/success.js:285-291 | the `catch` block hides the loading view and shows the content, stopping where an element is missing |
| SuccessPage.SuccessController.Init | js/success.js:221-292 | the page becomes the initialized state |
| WhatsNew.WiredBySetup | js/whats-new.js:7-15 | a card is wired exactly when it is not latest and no non-latest card up to it lacks a header (the `forEach` stops at the first that does) |
| WhatsNew.AllHeadersWireNonLatest | js/whats-new.js:7-15 | when every card has a header, exactly the non-latest cards get a listener |
| WhatsNew.HeaderClicked | js/whats-new.js:12-14 | a click flips `collapsed` on its own card when that card is wired, and every other card keeps its state |
| WhatsNew.AfterClicks | js/whats-new.js:12-14 | a click trace keeps the number of cards |
| WhatsNew.ClickParity | js/whats-new.js:12-14 | after any trace, a card is collapsed exactly when it started collapsed, flipped when it is wired and was clicked an odd number of times |
| WhatsNew.TwoClicksRestore | js/whats-new.js:13 | two clicks on the same header restore every card |
| WhatsNew.LatestNeverToggles | js/whats-new.js:7 | the latest card never changes, whatever is clicked |
| WhatsNew.VersionCards.Load | js/whats-new.js:5 | the cards as the page has them, none wired |
| WhatsNew.VersionCards.Setup | js/whats-new.js:5-16 | setup wires exactly the cards that `WiredBySetup` describes and collapses nothing |
| WhatsNew.VersionCards.ClickHeader | js/whats-new.js:12-14 | the flags become the clicked flags |

## Left out

- The HTML and CSS template strings are left out: the injected `style`
  element, the scroll-to-top button's SVG, the notification toast, the
  license-key section and the error view. They are presentation only; the model
  records only whether each element was inserted.
- Timers that only pace the UI are left out: the theme transition reset, the
  toast's 3 s removal, and the 800 ms and 1200 ms delays in the success page's
  `init`. The video's 300 ms completion is kept, as the explicit event
  `LoadTimer`; timers of equal delay fire oldest first.
- `window.scrollTo`, `scrollIntoView`, `getBoundingClientRect`, the
  IntersectionObserver wiring and `ScrollToTop.scrollToTop` are browser
  geometry and animation APIs. `AnchorScrollTop` returns the scroll target, and
  the observer's batches are its input.
- `LazyLoad` is left out: it is native lazy-loading detection with an
  IntersectionObserver fallback, and has no state of its own worth stating.
  So are `Analytics`, `console` output and the `gtag` payload. For `gtag`,
  only whether its call throws is modelled (`analyticsThrows`).
- Listener registration is modelled as a `wired` flag only for
  `ThemeManager`, `MobileMenu`, the video facade (`Wired`) and the changelog's
  `VersionCards`. The listeners of `SmoothScroll`, `NavbarScroll`,
  `ShowcaseTabs`, `InstallHandler`, `AnimationObserver` and `ScrollToTop` are
  taken as attached. `SmoothScroll.init` and `InstallHandler.init` are covered
  as predicates on the elements they select (`SmoothScrollSelects`,
  `SelectedForInstall`).
- When `localStorage.getItem` throws in `ThemeManager.init`, the exception
  also ends the page-wide `init` at script.js:395, so no later controller is
  set up. `ThemeManager.Init` models the throw itself, but the other
  controllers are built independently of it.
- `document.querySelector` throws on a malformed selector such as `#1a`.
  `AnchorScrollTop` treats such an href as if no target existed. Either way
  the default is not prevented.
- `URLSearchParams` percent-decoding is left out: the query is given already
  decoded, as name/value pairs. Its percent-encoding of the `start` value in
  `EmbedParams`/`QueryString` is left out too.
- `fetch`, `response.json`, the JSON request body and `navigator.clipboard`
  (`copyLicenseKey`) are network and browser calls. A reply is reduced to
  threw / ok or not / an optional `license_key` string. A non-string truthy
  `license_key` is not modelled.
- `Date`, `toISOString` and `formatDate` (locale formatting) are left out. The
  model takes `Instant`, which holds the ISO string and the displayed date.
- SuccessPage.Initialized: `storageWritable` says whether both
  `sessionStorage.setItem` calls succeed or the first one throws. A failure of
  the second write alone is not modelled.
- SuccessPage.Initialized: a `fetch` that never settles is not modelled.
  In the code `init` then waits forever and never reaches the statements from
  js/success.js:249 on, so the content is never shown. The model's reply
  always arrives.
- SuccessPage.ErrorShown: the model does not capture whether `#loading` and
  `#content` lie inside `.container`, where `displayError` would remove them.
- LandingPage.AnimationObserver.HandleIntersection: the animated elements are
  a set. "At most once" is stated as "an animated element is no longer
  observed", not as a count of animation starts.
- Scroll offsets (`pageYOffset`) are `real`, and `offsetTop` is an `int`. The
  model has no floating-point rounding.
