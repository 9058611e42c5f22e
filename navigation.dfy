/**
 * The bottom navigation bar of src/components/Navigation.tsx: which of the
 * four screens can be opened, which one is highlighted, and what a click does.
 */
module Navigation {
  import opened Types
  import opened Store

  /** The items of the bar, in display order. */
  const NavItems: seq<View> := [DashboardView, MintView, VerifyView, HistoryView]

  /** `isActive`: the item of the current screen. */
  predicate IsActive(currentView: View, item: View) {
    currentView == item
  }

  /** `isDisabled`: without a connected wallet only the verify screen can be opened. */
  function IsDisabled(isConnected: bool, item: View): (b: bool)
    ensures b <==> !isConnected && item in {DashboardView, MintView, HistoryView}
  {
    !isConnected && item != VerifyView
  }

  /** Anyone can verify a proof, connected or not. */
  lemma VerifyNeverDisabled(isConnected: bool)
    ensures !IsDisabled(isConnected, VerifyView)
  {
  }

  /** With a wallet connected every item is enabled; without one every item but verify is disabled. */
  lemma DisabledExactlyWhenDisconnected(isConnected: bool)
    ensures isConnected ==> forall item <- NavItems :: !IsDisabled(isConnected, item)
    ensures !isConnected ==> forall item <- NavItems :: IsDisabled(isConnected, item) <==> item != VerifyView
  {
  }

  /** Every screen has exactly one item in the bar, so exactly one item is highlighted. */
  lemma ExactlyOneActive(currentView: View)
    ensures exists k :: 0 <= k < |NavItems| && IsActive(currentView, NavItems[k])
    ensures forall i, j ::
              0 <= i < |NavItems| && 0 <= j < |NavItems| && IsActive(currentView, NavItems[i]) && IsActive(currentView, NavItems[j])
              ==> i == j
  {
    var k := match currentView
      case DashboardView => 0
      case MintView => 1
      case VerifyView => 2
      case HistoryView => 3;
    assert IsActive(currentView, NavItems[k]);
  }

  /** `onClick={() => !isDisabled && setCurrentView(item.id)}`. */
  method ClickNavItem(store: AppStore, item: View)
    modifies store`currentView
    ensures IsDisabled(store.wallet.isConnected, item) ==> store.currentView == old(store.currentView)
    ensures !IsDisabled(store.wallet.isConnected, item) ==> store.currentView == item
  {
    if !IsDisabled(store.wallet.isConnected, item) {
      store.SetCurrentView(item);
    }
  }
}
