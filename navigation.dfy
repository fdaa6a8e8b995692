/** The navigation bar: a fixed table of links, each shown or hidden by the
    caller's sign-in state and artist flag. */
module Navigation {
  import opened Wrappers
  import opened Backend
  import opened Seqs

  /** The five destinations of the bar. */
  datatype Route = BrowseRoute | UploadRoute | MyItemsRoute | HistoryRoute | ProfileRoute

  /** The path each destination links to. */
  function Path(r: Route): string {
    match r
    case BrowseRoute => "/browse"
    case UploadRoute => "/upload"
    case MyItemsRoute => "/my-items"
    case HistoryRoute => "/purchase-history"
    case ProfileRoute => "/edit-profile"
  }

  /** The label each destination is shown with. */
  function Label(r: Route): string {
    match r
    case BrowseRoute => "Browse"
    case UploadRoute => "Upload"
    case MyItemsRoute => "My Items"
    case HistoryRoute => "History"
    case ProfileRoute => "Profile"
  }

  datatype NavLink = NavLink(to: Route, show: bool)

  /** `userProfile?.isArtist`: a missing profile is not an artist. */
  predicate IsArtist(profile: Option<UserProfile>) {
    profile.Some? && profile.value.isArtist
  }

  /** `navLinks` */
  function NavLinks(isAuthenticated: bool, profile: Option<UserProfile>): seq<NavLink> {
    [NavLink(BrowseRoute, true)]
    + ([NavLink(UploadRoute, isAuthenticated && IsArtist(profile))]
    + ([NavLink(MyItemsRoute, isAuthenticated && IsArtist(profile))]
    + ([NavLink(HistoryRoute, isAuthenticated)]
    + [NavLink(ProfileRoute, isAuthenticated)])))
  }

  predicate Shown(link: NavLink) {
    link.show
  }

  /** `visibleLinks` */
  function VisibleLinks(isAuthenticated: bool, profile: Option<UserProfile>): seq<NavLink> {
    Filter(NavLinks(isAuthenticated, profile), Shown)
  }

  /** The links the bar offers, stated by who sees them rather than by the
      table: Browse always, Upload and My Items for a signed-in artist,
      History and Profile for anyone signed in. */
  function OfferedLinks(isAuthenticated: bool, profile: Option<UserProfile>): seq<NavLink> {
    [NavLink(BrowseRoute, true)]
    + (if isAuthenticated && IsArtist(profile)
       then [NavLink(UploadRoute, true), NavLink(MyItemsRoute, true)]
       else [])
    + (if isAuthenticated
       then [NavLink(HistoryRoute, true), NavLink(ProfileRoute, true)]
       else [])
  }

  /** What the filter keeps of one link. */
  function Keep(l: NavLink): seq<NavLink> {
    if l.show then [l] else []
  }

  /** The filter over a five-link table keeps each shown link in place. */
  lemma FilterTable(l0: NavLink, l1: NavLink, l2: NavLink, l3: NavLink, l4: NavLink)
    ensures Filter([l0] + ([l1] + ([l2] + ([l3] + [l4]))), Shown)
         == Keep(l0) + (Keep(l1) + (Keep(l2) + (Keep(l3) + Keep(l4))))
  {
    FilterCons(l4, [], Shown);
    assert [l4] + [] == [l4];
    FilterCons(l3, [l4], Shown);
    FilterCons(l2, [l3] + [l4], Shown);
    FilterCons(l1, [l2] + ([l3] + [l4]), Shown);
    FilterCons(l0, [l1] + ([l2] + ([l3] + [l4])), Shown);
  }

  /** The offered links, link by link: each kept exactly when shown. */
  lemma OfferedLinksTable(isAuthenticated: bool, profile: Option<UserProfile>)
    ensures var artist := isAuthenticated && IsArtist(profile);
            OfferedLinks(isAuthenticated, profile)
            == Keep(NavLink(BrowseRoute, true)) + (Keep(NavLink(UploadRoute, artist)) + (Keep(NavLink(MyItemsRoute, artist))
               + (Keep(NavLink(HistoryRoute, isAuthenticated)) + Keep(NavLink(ProfileRoute, isAuthenticated)))))
  {
    if !isAuthenticated {
      assert OfferedLinks(isAuthenticated, profile) == [NavLink(BrowseRoute, true)];
    } else if !IsArtist(profile) {
      assert OfferedLinks(isAuthenticated, profile) == [NavLink(BrowseRoute, true)] + [NavLink(HistoryRoute, true), NavLink(ProfileRoute, true)];
    }
  }

  /** The filtered table is exactly the offered links, in table order. */
  lemma {:induction false} VisibleLinksExact(isAuthenticated: bool, profile: Option<UserProfile>)
    ensures VisibleLinks(isAuthenticated, profile) == OfferedLinks(isAuthenticated, profile)
  {
    var artist := isAuthenticated && IsArtist(profile);
    FilterTable(NavLink(BrowseRoute, true), NavLink(UploadRoute, artist), NavLink(MyItemsRoute, artist),
                NavLink(HistoryRoute, isAuthenticated), NavLink(ProfileRoute, isAuthenticated));
    OfferedLinksTable(isAuthenticated, profile);
  }

  /** Signed out, only Browse is offered, whatever the profile says; signed
      in, a non-artist is offered Browse, History and Profile. */
  lemma SignedOutSeesBrowseOnly(profile: Option<UserProfile>)
    ensures VisibleLinks(false, profile) == [NavLink(BrowseRoute, true)]
    ensures !IsArtist(profile) ==> |VisibleLinks(true, profile)| == 3
  {
    VisibleLinksExact(false, profile);
    VisibleLinksExact(true, profile);
  }
}
