/**
 * The tab container (`RootView`): four tabs with a navigation stack each, the
 * selected tab, and a tab bar that hides while the selected tab has pushed
 * a screen.
 */
module Root {
  import opened AppRoutes

  /** A stack of `n` copies of a route: since each route enumeration has one case, the only stack of that depth. */
  function Stack<R>(route: R, n: nat): seq<R>
  {
    seq(n, _ => route)
  }

  class RootView {
    /** `@State selectedTab` */
    var selectedTab: Tab
    /** `@State isTabBarHidden` */
    var isTabBarHidden: bool
    /** The `path` of each tab's navigator. */
    var homePath: seq<HomeRoute>
    var eventPath: seq<EventRoute>
    var settingsPath: seq<SettingRoute>
    var profilePath: seq<ProfileRoute>

    /** The depth of a tab's navigation stack. */
    function StackCount(t: Tab): nat
      reads this
    {
      match t
      case Home => |homePath|
      case Event => |eventPath|
      case Settings => |settingsPath|
      case Profile => |profilePath|
    }

    /** The tab bar is hidden exactly while the selected tab has something pushed. */
    ghost predicate Valid()
      reads this
    {
      isTabBarHidden == (StackCount(selectedTab) > 0)
    }

    /** Whether the `Tabbar` is in the view tree. */
    predicate TabBarShown()
      reads this
    {
      !isTabBarHidden
    }

    constructor ()
      ensures Valid() && selectedTab == Home && TabBarShown()
      ensures forall t :: StackCount(t) == 0
    {
      selectedTab := Home;
      isTabBarHidden := false;
      homePath, eventPath, settingsPath, profilePath := [], [], [], [];
    }

    /** `updateTabBarVisibility`: reads the selected tab's stack only, and writes `isTabBarHidden` only. */
    method UpdateTabBarVisibility()
      modifies this
      ensures Valid() && isTabBarHidden == (StackCount(selectedTab) > 0)
      ensures selectedTab == old(selectedTab)
      ensures homePath == old(homePath) && eventPath == old(eventPath)
      ensures settingsPath == old(settingsPath) && profilePath == old(profilePath)
    {
      var stackCount: nat;
      match selectedTab {
        case Home => stackCount := |homePath|;
        case Event => stackCount := |eventPath|;
        case Settings => stackCount := |settingsPath|;
        case Profile => stackCount := |profilePath|;
      }
      isTabBarHidden := stackCount > 0;
    }

    /** A tap in the tab bar writes `selectedTab`; `onChange(of: selectedTab)` recomputes visibility when it changed. */
    method SelectTab(t: Tab)
      requires Valid()
      modifies this
      ensures Valid() && selectedTab == t
      ensures TabBarShown() <==> StackCount(t) == 0
      ensures forall u :: StackCount(u) == old(StackCount(u))
    {
      if t != selectedTab {
        selectedTab := t;
        UpdateTabBarVisibility();
      }
    }

    /**
     * A navigator of tab `t` sets its stack to depth `n` (a push, a pop or a
     * pop to root). Only the displayed tab observes its `path.count`, and only
     * a change of count triggers the recomputation.
     */
    method SetStackDepth(t: Tab, n: nat)
      requires Valid()
      modifies this
      ensures Valid() && selectedTab == old(selectedTab) && StackCount(t) == n
      ensures forall u :: u != t ==> StackCount(u) == old(StackCount(u))
      ensures t != selectedTab ==> isTabBarHidden == old(isTabBarHidden)
    {
      var before := StackCount(t);
      match t {
        case Home => homePath := Stack(HomeDetail, n);
        case Event => eventPath := Stack(EventPage, n);
        case Settings => settingsPath := Stack(Setting, n);
        case Profile => profilePath := Stack(ProfilePage, n);
      }
      if t == selectedTab && n != before {
        UpdateTabBarVisibility();
      }
    }

    /** Pushing the tab's route. */
    method Push(t: Tab)
      requires Valid()
      modifies this
      ensures Valid() && selectedTab == old(selectedTab) && StackCount(t) == old(StackCount(t)) + 1
      ensures forall u :: u != t ==> StackCount(u) == old(StackCount(u))
      ensures t == selectedTab ==> !TabBarShown()
    {
      SetStackDepth(t, StackCount(t) + 1);
    }

    /** Popping one screen, when there is one. */
    method Pop(t: Tab)
      requires Valid()
      modifies this
      ensures Valid() && selectedTab == old(selectedTab)
      ensures StackCount(t) == if old(StackCount(t)) > 0 then old(StackCount(t)) - 1 else 0
      ensures forall u :: u != t ==> StackCount(u) == old(StackCount(u))
    {
      var n := StackCount(t);
      SetStackDepth(t, if n > 0 then n - 1 else 0);
    }
  }

  /**
   * Pushing a screen on another tab leaves the bar alone; switching to that
   * tab hides it; popping back to its root shows it again.
   */
  method PushElsewhereThenVisit(v: RootView)
    requires v.Valid() && v.selectedTab == Home && v.StackCount(Event) == 0
    modifies v
    ensures v.Valid() && v.selectedTab == Event && v.TabBarShown()
  {
    var shownBefore := v.TabBarShown();
    v.Push(Event);
    assert v.TabBarShown() == shownBefore;
    v.SelectTab(Event);
    assert !v.TabBarShown();
    v.Pop(Event);
  }
}
