/**
  The changelog page (js/whats-new.js). On `DOMContentLoaded` every version
  card that is not the latest gets a click listener on its header, and a
  click on such a header flips the card's `collapsed` class. Cards are
  indexed in document order; a click trace is the sequence of indices of
  the cards whose headers were clicked.
 */
module WhatsNew {

  /** Card `i` has a header listener after setup exactly when it is not
      `latest` and no non-latest card up to it lacks a `.version-header`: on
      the first one that does, `header.addEventListener` throws and ends
      the `forEach`. */
  ghost predicate WiredBySetup(latest: seq<bool>, hasHeader: seq<bool>, wired: seq<bool>)
  {
    && |hasHeader| == |latest|
    && |wired| == |latest|
    && forall i :: 0 <= i < |latest| ==> (wired[i] <==> !latest[i] && HeadersUpTo(latest, hasHeader, i))
  }

  /** Every non-latest card up to and including card `i` has a header. */
  ghost predicate HeadersUpTo(latest: seq<bool>, hasHeader: seq<bool>, i: nat)
    requires |hasHeader| == |latest|
  {
    forall j :: 0 <= j <= i && j < |latest| && !latest[j] ==> hasHeader[j]
  }

  /** With every card's header present, exactly the non-latest cards are wired. */
  lemma AllHeadersWireNonLatest(latest: seq<bool>, hasHeader: seq<bool>, wired: seq<bool>)
    requires WiredBySetup(latest, hasHeader, wired)
    requires forall i :: 0 <= i < |hasHeader| ==> hasHeader[i]
    ensures forall i :: 0 <= i < |latest| ==> (wired[i] <==> !latest[i])
  {
  }

  /** A click on the header of card `c`: a wired card flips `collapsed`,
      every other card keeps its state. */
  function HeaderClicked(wired: seq<bool>, collapsed: seq<bool>, c: nat): (r: seq<bool>)
    requires |collapsed| == |wired|
    ensures |r| == |collapsed|
    ensures forall i :: 0 <= i < |r| && i != c ==> r[i] == collapsed[i]
    ensures c < |r| ==> (r[c] <==> (collapsed[c] != wired[c]))
  {
    if c < |wired| && wired[c] then collapsed[c := !collapsed[c]] else collapsed
  }

  /** The `collapsed` flags after a trace of header clicks. */
  function AfterClicks(wired: seq<bool>, collapsed: seq<bool>, clicks: seq<nat>): (r: seq<bool>)
    requires |collapsed| == |wired|
    ensures |r| == |collapsed|
    decreases |clicks|
  {
    if clicks == [] then collapsed
    else AfterClicks(wired, HeaderClicked(wired, collapsed, clicks[0]), clicks[1..])
  }

  /** How many clicks of a trace land on card `c`. */
  function ClicksOn(clicks: seq<nat>, c: nat): nat
    decreases |clicks|
  {
    if clicks == [] then 0 else (if clicks[0] == c then 1 else 0) + ClicksOn(clicks[1..], c)
  }

  /** A card ends collapsed exactly when it started so, flipped once more
      for a wired card clicked an odd number of times. */
  lemma {:induction false} ClickParity(wired: seq<bool>, collapsed: seq<bool>, clicks: seq<nat>, c: nat)
    requires |collapsed| == |wired| && c < |collapsed|
    ensures AfterClicks(wired, collapsed, clicks)[c] ==
            (collapsed[c] != (wired[c] && ClicksOn(clicks, c) % 2 == 1))
    decreases |clicks|
  {
    if clicks != [] {
      ClickParity(wired, HeaderClicked(wired, collapsed, clicks[0]), clicks[1..], c);
    }
  }

  /** Two clicks on the same header restore every card. */
  lemma TwoClicksRestore(wired: seq<bool>, collapsed: seq<bool>, c: nat)
    requires |collapsed| == |wired|
    ensures AfterClicks(wired, collapsed, [c, c]) == collapsed
  {
    assert [c, c][1..] == [c];
    var once := HeaderClicked(wired, collapsed, c);
    assert [c][1..] == [];
    assert AfterClicks(wired, collapsed, [c, c]) == AfterClicks(wired, once, [c]);
    assert AfterClicks(wired, once, [c]) == HeaderClicked(wired, once, c);
    assert HeaderClicked(wired, once, c) == collapsed;
  }

  /** The latest card never toggles, whatever is clicked. */
  lemma LatestNeverToggles(latest: seq<bool>, hasHeader: seq<bool>, wired: seq<bool>,
                           collapsed: seq<bool>, clicks: seq<nat>, c: nat)
    requires WiredBySetup(latest, hasHeader, wired) && |collapsed| == |wired|
    requires c < |latest| && latest[c]
    ensures AfterClicks(wired, collapsed, clicks)[c] == collapsed[c]
  {
    ClickParity(wired, collapsed, clicks, c);
  }

  class VersionCards {
    /** Each `.version-card` has the class `latest`, and has a
        `.version-header`, in document order. */
    const latest: seq<bool>
    const hasHeader: seq<bool>
    /** Each card has the class `collapsed`. */
    var collapsed: seq<bool>
    /** Each card's header has the toggle listener. */
    var wired: seq<bool>

    ghost predicate Valid()
      reads this
    {
      |hasHeader| == |latest| && |collapsed| == |latest| && |wired| == |latest|
    }

    /** The cards as the markup has them, before `DOMContentLoaded`. */
    constructor Load(latest: seq<bool>, hasHeader: seq<bool>, collapsed: seq<bool>)
      requires |hasHeader| == |latest| && |collapsed| == |latest|
      ensures Valid()
      ensures this.latest == latest && this.hasHeader == hasHeader && this.collapsed == collapsed
      ensures forall i :: 0 <= i < |wired| ==> !wired[i]
    {
      this.latest := latest;
      this.hasHeader := hasHeader;
      this.collapsed := collapsed;
      wired := seq(|latest|, i => false);
    }

    /** The `DOMContentLoaded` listener: attach the header listeners,
        never invoking one. */
    method Setup()
      requires Valid() && forall i :: 0 <= i < |wired| ==> !wired[i]
      modifies this`wired
      ensures Valid() && WiredBySetup(latest, hasHeader, wired)
    {
      var i := 0;
      // the loop stops where `forEach` is ended by the TypeError that
      // `header.addEventListener` throws on a non-latest card without header
      while i < |latest| && (latest[i] || hasHeader[i])
        invariant 0 <= i <= |latest| && Valid()
        invariant forall j :: 0 <= j < i ==> latest[j] || hasHeader[j]
        invariant forall j :: 0 <= j < |wired| ==> (wired[j] <==> j < i && !latest[j])
      {
        if !latest[i] {
          wired := wired[i := true];
        }
        i := i + 1;
      }
      forall j | 0 <= j < |latest|
        ensures wired[j] <==> !latest[j] && HeadersUpTo(latest, hasHeader, j)
      {
        if j >= i {
          assert !latest[i] && !hasHeader[i];
          assert !HeadersUpTo(latest, hasHeader, j);
        }
      }
    }

    /** A click on the header of card `c`. */
    method ClickHeader(c: nat)
      requires Valid() && c < |latest| && hasHeader[c]
      modifies this`collapsed
      ensures Valid()
      ensures collapsed == HeaderClicked(wired, old(collapsed), c)
    {
      if wired[c] {
        collapsed := collapsed[c := !collapsed[c]];
      }
    }
  }
}
