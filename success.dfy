/**
  The post-checkout success page (js/success.js). The callback query is a
  list of name/value pairs; the license-key request is an optional, never
  configured call whose reply is abstracted to "threw" or "answered, ok or
  not, with or without a key". `init` ends in the error view when the
  callback lacks `checkout_id`, and otherwise shows the content, shows a
  license key when one came back, and caches the checkout in session
  storage. Failures thrown inside `init` are modelled as explicit flags of
  the page.
 */
module SuccessPage {
  import opened Js

  // ------------------------------------------------------------------
  // The callback query
  // ------------------------------------------------------------------

  /** The decoded `window.location.search`, pair by pair, in order. */
  type Query = seq<(string, string)>

  const CheckoutIdParam := "checkout_id"
  const TokenParam := "customer_session_token"

  /** `value` is what the first pair named `name` carries. */
  ghost predicate FirstValue(query: Query, name: string, value: string)
  {
    exists i :: 0 <= i < |query| && query[i] == (name, value) &&
      forall j :: 0 <= j < i ==> query[j].0 != name
  }

  /** `getUrlParam`: `URLSearchParams.get`, the value of the first pair
      named `name`, or null when there is none. */
  function GetUrlParam(query: Query, name: string): (value: Option<string>)
    ensures value.None? <==> forall i :: 0 <= i < |query| ==> query[i].0 != name
    ensures value.Some? ==> FirstValue(query, name, value.value)
  {
    if query == [] then None
    else if query[0].0 == name then Some(query[0].1)
    else
      var rest := GetUrlParam(query[1..], name);
      assert forall i :: 1 <= i < |query| ==> query[i] == query[1..][i - 1];
      rest
  }

  /** The first-match rule: a later pair never overrides an earlier one. */
  lemma {:induction false} EarlierPairWins(query: Query, extra: Query, name: string)
    requires GetUrlParam(query, name).Some?
    ensures GetUrlParam(query + extra, name) == GetUrlParam(query, name)
  {
    if query[0].0 != name {
      assert (query + extra)[1..] == query[1..] + extra;
      EarlierPairWins(query[1..], extra, name);
    }
  }

  /** The two renderings of `new Date()` the page uses, taken as given:
      `toISOString()` and the `en-US` long date `formatDate` makes. */
  datatype Instant = Instant(iso: string, display: string)

  datatype CheckoutData = CheckoutData(checkoutId: Option<string>, customerSessionToken: Option<string>,
                                       timestamp: Instant)

  /** `extractCheckoutData`: the two callback values, each null when the
      query lacks it, and the time of the call. */
  function ExtractCheckoutData(query: Query, now: Instant): (data: CheckoutData)
    ensures data.checkoutId.None? <==> forall i :: 0 <= i < |query| ==> query[i].0 != CheckoutIdParam
    ensures data.checkoutId.Some? ==> FirstValue(query, CheckoutIdParam, data.checkoutId.value)
    ensures data.customerSessionToken.None? <==> forall i :: 0 <= i < |query| ==> query[i].0 != TokenParam
    ensures data.customerSessionToken.Some? ==> FirstValue(query, TokenParam, data.customerSessionToken.value)
    ensures data.timestamp == now
  {
    CheckoutData(GetUrlParam(query, CheckoutIdParam), GetUrlParam(query, TokenParam), now)
  }

  // ------------------------------------------------------------------
  // The license-key request
  // ------------------------------------------------------------------

  /** The endpoint as configured in the source: none. */
  const BackendEndpoint: Option<string> := None

  /** How the request ended: `fetch` or `response.json()` threw, or a
      response came back, ok or not, whose JSON may carry `license_key`. */
  datatype LicenseReply = Threw | Answered(ok: bool, licenseKey: Option<string>)

  /** Whether a request was sent, and the key `fetchLicenseKey` resolves to. */
  datatype LicenseFetch = LicenseFetch(requested: bool, key: Option<string>)

  /** `fetchLicenseKey(token)` against `endpoint`: no request for a falsy
      token or a falsy endpoint; a thrown error, a non-ok response or a
      missing or empty key gives null. */
  function FetchLicenseKeyFrom(endpoint: Option<string>, token: Option<string>, reply: LicenseReply): (r: LicenseFetch)
    ensures r.requested <==> Truthy(token) && Truthy(endpoint)
    ensures r.key.Some? ==> r.requested && reply.Answered? && reply.ok && Truthy(reply.licenseKey)
    ensures r.key.Some? ==> r.key == reply.licenseKey
    ensures r.requested && reply.Answered? && reply.ok && Truthy(reply.licenseKey) ==> r.key.Some?
  {
    if !Truthy(token) then LicenseFetch(false, None)
    else if !Truthy(endpoint) then LicenseFetch(false, None)
    else match reply
      case Threw => LicenseFetch(true, None)
      case Answered(ok, key) =>
        if !ok then LicenseFetch(true, None)
        else if Truthy(key) then LicenseFetch(true, key)
        else LicenseFetch(true, None)
  }

  /** `fetchLicenseKey(token)` as shipped: with no endpoint configured it
      never sends a request and always resolves to null. */
  function FetchLicenseKey(token: Option<string>, reply: LicenseReply): (r: LicenseFetch)
    ensures !r.requested && r.key == None
  {
    FetchLicenseKeyFrom(BackendEndpoint, token, reply)
  }

  // ------------------------------------------------------------------
  // The page
  // ------------------------------------------------------------------

  const CheckoutIdKey := "markview_checkout_id"
  const PurchaseDateKey := "markview_purchase_date"
  const DisplayNone := "none"
  const DisplayBlock := "block"

  /** The license endpoint `fetchLicenseKey` uses, the elements `init`
      looks up, and the calls that can throw. */
  datatype PageEnv = PageEnv(
    endpoint: Option<string>, // BACKEND_ENDPOINT; the shipped value is BackendEndpoint
    hasLoading: bool,        // #loading
    hasContent: bool,        // #content
    hasContainer: bool,      // .container, replaced by the error view
    hasInstructions: bool,   // .instructions-section, where the key is inserted
    hasInfoBanner: bool,     // .info-banner-text
    hasPurchaseDate: bool,   // #purchase-date
    analyticsThrows: bool,   // `gtag` is defined and throws
    storageWritable: bool)   // `sessionStorage.setItem` does not throw

  /** What `init` changes on the page. */
  datatype PageState = PageState(
    loadingDisplay: string,
    contentDisplay: string,
    errorShown: bool,                // the container holds the error view
    licenseSection: Option<string>,  // the inserted license-key section, by its key
    bannerUpdated: bool,             // the info banner says the key is ready
    purchaseDate: Option<string>,    // the text of #purchase-date once set
    sessionStorage: map<string, string>,
    licenseRequested: bool)

  /** `displayLicenseKey(key)`: nothing for a falsy key; otherwise the key
      section is inserted before the instructions, and the banner is
      rewritten, each when its element exists. */
  function LicenseShown(env: PageEnv, s: PageState, key: Option<string>): (r: PageState)
    ensures !Truthy(key) ==> r == s
    ensures r.licenseSection == if Truthy(key) && env.hasInstructions then key else s.licenseSection
    ensures r.bannerUpdated == (s.bannerUpdated || (Truthy(key) && env.hasInfoBanner))
    ensures r.(licenseSection := s.licenseSection, bannerUpdated := s.bannerUpdated) == s
  {
    if !Truthy(key) then s
    else s.(licenseSection := if env.hasInstructions then key else s.licenseSection,
            bannerUpdated := s.bannerUpdated || env.hasInfoBanner)
  }

  /** `displayError`: the container, when it exists, shows the error view. */
  function ErrorShown(env: PageEnv, s: PageState): (r: PageState)
    ensures r.errorShown == (s.errorShown || env.hasContainer)
    ensures r.(errorShown := s.errorShown) == s
  {
    if env.hasContainer then s.(errorShown := true) else s
  }

  /** The statements of the `try` block from hiding the loading view on,
      for a truthy checkout id. The result says whether one of them threw;
      the state is the page at that point. */
  function SuccessSteps(env: PageEnv, s: PageState, id: string, key: Option<string>, now: Instant): (r: (PageState, bool))
    // nothing throws exactly when every element exists, analytics does not
    // throw and session storage accepts the writes
    ensures !r.1 <==> env.hasLoading && env.hasContent && !env.analyticsThrows && env.storageWritable
    ensures env.hasLoading ==> r.0.loadingDisplay == DisplayNone
    ensures env.hasLoading && env.hasContent ==> r.0.contentDisplay == DisplayBlock
    // the key and the purchase date appear only once the content is shown
    ensures env.hasLoading && env.hasContent ==>
              && r.0.licenseSection == LicenseShown(env, s, key).licenseSection
              && r.0.bannerUpdated == LicenseShown(env, s, key).bannerUpdated
              && r.0.purchaseDate == (if env.hasPurchaseDate then Some(now.display) else s.purchaseDate)
    ensures !(env.hasLoading && env.hasContent) ==>
              r.0.licenseSection == s.licenseSection && r.0.bannerUpdated == s.bannerUpdated &&
              r.0.purchaseDate == s.purchaseDate
    // the checkout is written to session storage only when nothing threw
    ensures r.0.sessionStorage == if r.1 then s.sessionStorage
                                  else s.sessionStorage[CheckoutIdKey := id][PurchaseDateKey := now.iso]
    ensures r.0.errorShown == s.errorShown && r.0.licenseRequested == s.licenseRequested
  {
    if !env.hasLoading then (s, true)
    else
      var s1 := s.(loadingDisplay := DisplayNone);
      if !env.hasContent then (s1, true)
      else
        var s2 := s1.(contentDisplay := DisplayBlock);
        var s3 := LicenseShown(env, s2, key);
        var s4 := if env.hasPurchaseDate then s3.(purchaseDate := Some(now.display)) else s3;
        if env.analyticsThrows then (s4, true)
        else if !env.storageWritable then (s4, true)
        else (s4.(sessionStorage := s4.sessionStorage[CheckoutIdKey := id][PurchaseDateKey := now.iso]), false)
  }

  /** The `catch` block: hide the loading view and show the content, each
      statement throwing again when its element is missing. */
  function Recovered(env: PageEnv, s: PageState): (r: PageState)
    ensures r.loadingDisplay == if env.hasLoading then DisplayNone else s.loadingDisplay
    ensures r.contentDisplay == if env.hasLoading && env.hasContent then DisplayBlock else s.contentDisplay
    ensures r.(loadingDisplay := s.loadingDisplay, contentDisplay := s.contentDisplay) == s
  {
    if !env.hasLoading then s
    else
      var s1 := s.(loadingDisplay := DisplayNone);
      if env.hasContent then s1.(contentDisplay := DisplayBlock) else s1
  }

  /** The page after `init` on a callback with `query` at time `now`, when
      a license request would end with `reply`. */
  function Initialized(env: PageEnv, s: PageState, query: Query, now: Instant, reply: LicenseReply): (r: PageState)
    // no checkout id: the error view, no license request, no session storage write
    ensures !Truthy(GetUrlParam(query, CheckoutIdParam)) ==>
              && r == ErrorShown(env, s)
              && r.errorShown == (s.errorShown || env.hasContainer)
              && r.licenseRequested == s.licenseRequested
              && r.sessionStorage == s.sessionStorage
    // a checkout id: the loading view is hidden and the content shown, even
    // when a later statement throws, as long as the two elements exist
    ensures Truthy(GetUrlParam(query, CheckoutIdParam)) && env.hasLoading && env.hasContent ==>
              r.loadingDisplay == DisplayNone && r.contentDisplay == DisplayBlock && r.errorShown == s.errorShown
    // the checkout is cached exactly on the success path, when nothing throws
    ensures Truthy(GetUrlParam(query, CheckoutIdParam)) && env.hasLoading && env.hasContent &&
            !env.analyticsThrows && env.storageWritable ==>
              r.sessionStorage == s.sessionStorage[CheckoutIdKey := GetUrlParam(query, CheckoutIdParam).value]
                                                  [PurchaseDateKey := now.iso]
    ensures r.sessionStorage != s.sessionStorage ==> Truthy(GetUrlParam(query, CheckoutIdParam))
    // a request is sent only on the success path, with a token, to a configured endpoint
    ensures r.licenseRequested != s.licenseRequested ==>
              Truthy(GetUrlParam(query, CheckoutIdParam)) && Truthy(GetUrlParam(query, TokenParam)) &&
              Truthy(env.endpoint)
    // with no endpoint configured, as shipped, no key is ever shown
    ensures !Truthy(env.endpoint) ==>
              r.licenseSection == s.licenseSection && r.bannerUpdated == s.bannerUpdated
    // a key returned by an ok reply is shown once the content is
    ensures Truthy(GetUrlParam(query, CheckoutIdParam)) && env.hasLoading && env.hasContent &&
            FetchLicenseKeyFrom(env.endpoint, GetUrlParam(query, TokenParam), reply).key.Some? ==>
              r.licenseSection == (if env.hasInstructions then reply.licenseKey else s.licenseSection)
    // a reply that threw, was not ok or carried no key shows nothing
    ensures FetchLicenseKeyFrom(env.endpoint, GetUrlParam(query, TokenParam), reply).key.None? ==>
              r.licenseSection == s.licenseSection && r.bannerUpdated == s.bannerUpdated
  {
    var data := ExtractCheckoutData(query, now);
    if !Truthy(data.checkoutId) then ErrorShown(env, s)
    else
      var fetched := FetchLicenseKeyFrom(env.endpoint, data.customerSessionToken, reply);
      var s1 := s.(licenseRequested := s.licenseRequested || fetched.requested);
      var (s2, threw) := SuccessSteps(env, s1, data.checkoutId.value, fetched.key, now);
      if threw then Recovered(env, s2) else s2
  }

  class SuccessController {
    const env: PageEnv
    var loadingDisplay: string
    var contentDisplay: string
    var errorShown: bool
    var licenseSection: Option<string>
    var bannerUpdated: bool
    var purchaseDate: Option<string>
    var sessionStorage: map<string, string>
    var licenseRequested: bool

    function State(): PageState
      reads this
    {
      PageState(loadingDisplay, contentDisplay, errorShown, licenseSection, bannerUpdated,
                purchaseDate, sessionStorage, licenseRequested)
    }

    /** The page as loaded: the loading view and the content as the markup
        styles them, nothing inserted yet. */
    constructor Load(env: PageEnv, loadingDisplay: string, contentDisplay: string,
                     sessionStorage: map<string, string>)
      ensures this.env == env
      ensures State() == PageState(loadingDisplay, contentDisplay, false, None, false, None, sessionStorage, false)
    {
      this.env := env;
      this.loadingDisplay := loadingDisplay;
      this.contentDisplay := contentDisplay;
      errorShown := false;
      licenseSection := None;
      bannerUpdated := false;
      purchaseDate := None;
      this.sessionStorage := sessionStorage;
      licenseRequested := false;
    }

    /** `displayLicenseKey(key)`. */
    method DisplayLicenseKey(key: Option<string>)
      modifies this
      ensures State() == LicenseShown(env, old(State()), key)
    {
      if !Truthy(key) {
        return;
      }
      if env.hasInstructions {
        licenseSection := key;
      }
      if env.hasInfoBanner {
        bannerUpdated := true;
      }
    }

    /** `displayError`. */
    method DisplayError()
      modifies this
      ensures State() == ErrorShown(env, old(State()))
    {
      if !env.hasContainer {
        return;
      }
      errorShown := true;
    }

    /** The `try` block of `init` from hiding the loading view on, for the
        checkout id `id`; `threw` says whether a statement threw. */
    method ShowSuccess(id: string, key: Option<string>, now: Instant) returns (threw: bool)
      modifies this
      ensures (State(), threw) == SuccessSteps(env, old(State()), id, key, now)
    {
      if !env.hasLoading {
        return true;
      }
      loadingDisplay := DisplayNone;
      if !env.hasContent {
        return true;
      }
      contentDisplay := DisplayBlock;
      if Truthy(key) {
        DisplayLicenseKey(key);
      }
      if env.hasPurchaseDate {
        purchaseDate := Some(now.display);
      }
      if env.analyticsThrows || !env.storageWritable {
        return true;
      }
      sessionStorage := sessionStorage[CheckoutIdKey := id][PurchaseDateKey := now.iso];
      return false;
    }

    /** The `catch` block of `init`. */
    method Recover()
      modifies this
      ensures State() == Recovered(env, old(State()))
    {
      if !env.hasLoading {
        return;
      }
      loadingDisplay := DisplayNone;
      if env.hasContent {
        contentDisplay := DisplayBlock;
      }
    }

    /** `init`, its two delays left out. */
    method Init(query: Query, now: Instant, reply: LicenseReply)
      modifies this
      ensures State() == Initialized(env, old(State()), query, now, reply)
    {
      var data := ExtractCheckoutData(query, now);
      if !Truthy(data.checkoutId) {
        DisplayError();
        return;
      }
      var fetched := FetchLicenseKeyFrom(env.endpoint, data.customerSessionToken, reply);
      licenseRequested := licenseRequested || fetched.requested;
      var threw := ShowSuccess(data.checkoutId.value, fetched.key, now);
      if threw {
        Recover();
      }
    }
  }
}
