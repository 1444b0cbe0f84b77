/** The navigation bar: it hides while the page scrolls down past a threshold, and
    it holds one button per top-level view, highlighted when that view is current. */
module Navbar {
  import opened Wrappers
  import opened App

  /** Scroll offset, in pixels, below which the bar always shows. */
  const HideThreshold: real := 150.0

  /** Whether the bar hides after the page scroll moves to `latest` from `previous`
      (absent before the first change, when it counts as 0). */
  predicate ShouldHide(latest: real, previous: Option<real>)
  {
    var prev := previous.GetOr(0.0);
    latest > prev && latest > HideThreshold
  }

  /** The bar hides only while scrolling down below the threshold: scrolling up or not
      moving shows it, and so does any offset within the threshold. */
  lemma ShowsUnlessScrollingDown(latest: real, previous: Option<real>)
    ensures previous.Some? && latest <= previous.value ==> !ShouldHide(latest, previous)
    ensures latest <= HideThreshold ==> !ShouldHide(latest, previous)
    ensures previous.None? ==> (ShouldHide(latest, previous) <==> latest > HideThreshold)
  {
  }

  /** The `hidden` flag after a series of scroll changes, each reported with the
      offset before it. */
  function HiddenAfter(hidden: bool, previous: Option<real>, offsets: seq<real>): bool
    decreases |offsets|
  {
    if offsets == [] then hidden
    else HiddenAfter(ShouldHide(offsets[0], previous), Some(offsets[0]), offsets[1..])
  }

  /** The flag remembers nothing but the last change: after any non-empty series it
      depends only on the last two offsets. */
  lemma {:induction false} HiddenAfterLastChange(hidden: bool, previous: Option<real>, offsets: seq<real>)
    requires offsets != []
    ensures var n := |offsets|;
      HiddenAfter(hidden, previous, offsets)
        == ShouldHide(offsets[n - 1], if n == 1 then previous else Some(offsets[n - 2]))
    decreases |offsets|
  {
    if |offsets| > 1 {
      HiddenAfterLastChange(ShouldHide(offsets[0], previous), Some(offsets[0]), offsets[1..]);
    }
  }

  /** The bar's `hidden` state. */
  class Bar {
    var hidden: bool

    /** The bar starts shown. */
    constructor ()
      ensures !hidden
    {
      hidden := false;
    }

    /** The page-scroll change listener. */
    method OnScrollChange(latest: real, previous: Option<real>)
      modifies this
      ensures hidden == ShouldHide(latest, previous)
    {
      var prev := if previous.Some? then previous.value else 0.0;
      if latest > prev && latest > HideThreshold {
        hidden := true;
      } else {
        hidden := false;
      }
    }
  }

  /** One button of the bar: the view it navigates to and its caption. */
  datatype NavItem = NavItem(view: View, caption: string)

  /** The three buttons, in their order on screen. */
  function Items(): seq<NavItem>
  {
    [NavItem(Home, "Home"), NavItem(Gallery, "Gallery"), NavItem(Message, "Messages")]
  }

  predicate IsActive(currentView: View, item: NavItem)
  {
    currentView == item.view
  }

  /** The name a button's click passes to the navigate callback. */
  function ClickTarget(item: NavItem): string
  {
    ViewName(item.view)
  }

  /** Exactly one button is highlighted, the one for the current view, and each button
      navigates to its own view: 'home', 'gallery' and 'message' in order, no two
      buttons to the same one. */
  lemma ExactlyOneActive(currentView: View)
    ensures |Items()| == 3
    ensures exists i :: 0 <= i < 3 && IsActive(currentView, Items()[i])
    ensures forall i, j ::
      (0 <= i < 3 && 0 <= j < 3 && IsActive(currentView, Items()[i]) && IsActive(currentView, Items()[j])) ==> i == j
    ensures ClickTarget(Items()[0]) == "home"
    ensures ClickTarget(Items()[1]) == "gallery"
    ensures ClickTarget(Items()[2]) == "message"
    ensures forall i, j :: 0 <= i < 3 && 0 <= j < 3 && ClickTarget(Items()[i]) == ClickTarget(Items()[j]) ==> i == j
  {
    forall i, j | 0 <= i < 3 && 0 <= j < 3 && ClickTarget(Items()[i]) == ClickTarget(Items()[j])
      ensures i == j
    {
      ViewNameInjective(Items()[i].view, Items()[j].view);
    }
    var i := match currentView case Home => 0 case Gallery => 1 case Message => 2;
    assert IsActive(currentView, Items()[i]);
  }
}
