/**
 * The app's tabs and the routes each tab's navigation stack can hold
 * (`Routers.swift`).
 */
module AppRoutes {

  datatype HomeRoute = HomeDetail
  datatype EventRoute = EventPage
  datatype SettingRoute = Setting
  datatype ProfileRoute = ProfilePage

  /** Each route enumeration has a single case, so any two of its routes are equal. */
  lemma EachRouteEnumHasOneCase(h1: HomeRoute, h2: HomeRoute, e1: EventRoute, e2: EventRoute,
                                s1: SettingRoute, s2: SettingRoute, p1: ProfileRoute, p2: ProfileRoute)
    ensures h1 == h2 && e1 == e2 && s1 == s2 && p1 == p2
  {
  }

  datatype Tab = Home | Event | Settings | Profile

  /** `Tabs.allCases`, in declaration order. */
  const AllCases: seq<Tab> := [Home, Event, Settings, Profile]

  /** `allCases` lists every tab exactly once. */
  lemma AllCasesListsEachTabOnce(t: Tab)
    ensures t in AllCases
    ensures forall i, j :: 0 <= i < j < |AllCases| ==> AllCases[i] != AllCases[j]
  {
  }

  /** `icon`: the SF Symbol of the tab. */
  function Icon(t: Tab): string
  {
    match t
    case Home => "house"
    case Event => "calendar"
    case Settings => "gear"
    case Profile => "person"
  }

  /** `title` */
  function Title(t: Tab): string
  {
    match t
    case Home => "Home"
    case Event => "Event"
    case Settings => "Settings"
    case Profile => "Profile"
  }

  /** No two tabs share an icon or a title, so each tells the tab apart. */
  lemma IconsAndTitlesAreDistinct(t: Tab, u: Tab)
    ensures Icon(t) == Icon(u) ==> t == u
    ensures Title(t) == Title(u) ==> t == u
  {
  }

  /** The tab a title names, if any: the inverse of `Title`. */
  function TabTitled(title: string): (t: Tab)
    requires exists u :: Title(u) == title
    ensures Title(t) == title
  {
    if title == "Home" then Home
    else if title == "Event" then Event
    else if title == "Settings" then Settings
    else Profile
  }

  lemma TitleRoundTrip(t: Tab)
    ensures TabTitled(Title(t)) == t
  {
  }
}
