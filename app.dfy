/** The catalogue screen: the facility list is put in the signed-in user's
    country first, then narrowed by a search term and two exact filters;
    the filter menus list the distinct locations and tiers. */
module App {
  import opened Wrappers
  import opened JsString
  import opened Seqs
  import opened DataCenterType
  import opened AuthContext

  /** `dc.country.toLowerCase() === country.toLowerCase()` */
  predicate InCountry(dc: DataCenter, country: string) {
    ToLower(dc.country) == ToLower(country)
  }

  function HomeGroup(dcs: seq<DataCenter>, country: string): seq<DataCenter> {
    Filter(dcs, dc => InCountry(dc, country))
  }

  function OtherGroup(dcs: seq<DataCenter>, country: string): seq<DataCenter> {
    Filter(dcs, dc => !InCountry(dc, country))
  }

  /** `prioritizedDataCenters` */
  function Prioritize(dcs: seq<DataCenter>, user: Option<User>, showAll: bool): seq<DataCenter> {
    if user.None? || showAll then dcs
    else HomeGroup(dcs, user.value.country) + OtherGroup(dcs, user.value.country)
  }

  /** Prioritising only reorders: the result is a permutation of the input. */
  lemma PrioritizeIsPermutation(dcs: seq<DataCenter>, user: Option<User>, showAll: bool)
    ensures multiset(Prioritize(dcs, user, showAll)) == multiset(dcs)
    ensures |Prioritize(dcs, user, showAll)| == |dcs|
  {
    if user.Some? && !showAll {
      var c := user.value.country;
      FilterPartition(dcs, dc => InCountry(dc, c), dc => !InCountry(dc, c));
    }
  }

  /** With a user and no override, the facilities in the user's country come
      first and all others after; each group keeps the catalogue's order. */
  lemma PrioritizeOrder(dcs: seq<DataCenter>, user: User)
    ensures var r := Prioritize(dcs, Some(user), false);
            var home := HomeGroup(dcs, user.country);
            && r == home + OtherGroup(dcs, user.country)
            && IsSubsequence(home, dcs)
            && IsSubsequence(OtherGroup(dcs, user.country), dcs)
            && forall i :: 0 <= i < |r| ==> (InCountry(r[i], user.country) <==> i < |home|)
  {
    var c := user.country;
    var home, other := HomeGroup(dcs, c), OtherGroup(dcs, c);
    FilterIsSubsequence(dcs, dc => InCountry(dc, c));
    FilterIsSubsequence(dcs, dc => !InCountry(dc, c));
    var r := home + other;
    forall i | 0 <= i < |r| ensures InCountry(r[i], c) <==> i < |home| {
      if i < |home| {
        assert r[i] in home;
      } else {
        assert r[i] == other[i - |home|] && r[i] in other;
      }
    }
  }

  /** The filter inputs of the catalogue screen. */
  datatype Query = Query(searchTerm: string, location: string, tier: string)

  /** Case-insensitive substring match on name, location, city or country. */
  predicate MatchesSearch(dc: DataCenter, term: string) {
    var t := ToLower(term);
    Includes(ToLower(dc.name), t) || Includes(ToLower(dc.location), t)
    || Includes(ToLower(dc.city), t) || Includes(ToLower(dc.country), t)
  }

  predicate Matches(dc: DataCenter, q: Query) {
    && MatchesSearch(dc, q.searchTerm)
    && (q.location == "" || dc.location == q.location)
    && (q.tier == "" || dc.tier == q.tier)
  }

  /** `filteredDataCenters` */
  function FilterCatalogue(prioritized: seq<DataCenter>, q: Query): seq<DataCenter> {
    Filter(prioritized, dc => Matches(dc, q))
  }

  /** A facility is shown iff it is in the prioritised list and passes all
      three tests; the result keeps the prioritised order. */
  lemma FilterCatalogueSpec(prioritized: seq<DataCenter>, q: Query)
    ensures forall dc :: dc in FilterCatalogue(prioritized, q) <==>
              dc in prioritized
              && MatchesSearch(dc, q.searchTerm)
              && (q.location == "" || dc.location == q.location)
              && (q.tier == "" || dc.tier == q.tier)
    ensures IsSubsequence(FilterCatalogue(prioritized, q), prioritized)
  {
    forall dc ensures dc in FilterCatalogue(prioritized, q) <==> dc in prioritized && Matches(dc, q) {
      FilterMembership(prioritized, dc => Matches(dc, q), dc);
    }
    FilterIsSubsequence(prioritized, dc => Matches(dc, q));
  }

  /** Filtering the filtered list again with the same inputs changes nothing. */
  lemma FilterCatalogueIdempotent(prioritized: seq<DataCenter>, q: Query)
    ensures FilterCatalogue(FilterCatalogue(prioritized, q), q) == FilterCatalogue(prioritized, q)
  {
    FilterIdempotent(prioritized, dc => Matches(dc, q));
  }

  /** With no search term and no filter every facility is shown, in order. */
  lemma EmptyQueryShowsAll(prioritized: seq<DataCenter>)
    ensures FilterCatalogue(prioritized, Query("", "", "")) == prioritized
  {
    forall i | 0 <= i < |prioritized| ensures Matches(prioritized[i], Query("", "", "")) {
      IncludesEmpty(ToLower(prioritized[i].name));
    }
    FilterAll(prioritized, dc => Matches(dc, Query("", "", "")));
  }

  /** `[...new Set(prioritized.map(dc => dc.location))]` */
  function Locations(prioritized: seq<DataCenter>): seq<string> {
    Distinct(Map(prioritized, (dc: DataCenter) => dc.location))
  }

  /** `[...new Set(prioritized.map(dc => dc.tier))]` */
  function Tiers(prioritized: seq<DataCenter>): seq<string> {
    Distinct(Map(prioritized, (dc: DataCenter) => dc.tier))
  }

  /** The location menu has no duplicates, offers exactly the locations of
      the listed facilities, in the order they first appear. */
  lemma LocationsSpec(prioritized: seq<DataCenter>)
    ensures NoDuplicates(Locations(prioritized))
    ensures forall x :: x in Locations(prioritized) <==> exists dc :: dc in prioritized && dc.location == x
    ensures var values := Map(prioritized, (dc: DataCenter) => dc.location);
            forall i, j :: 0 <= i < j < |Locations(prioritized)| ==>
              Locations(prioritized)[i] in values && Locations(prioritized)[j] in values
              && FirstIndex(values, Locations(prioritized)[i]) < FirstIndex(values, Locations(prioritized)[j])
  {
    var values := Map(prioritized, (dc: DataCenter) => dc.location);
    DistinctSpec(values);
    forall x ensures x in values <==> exists dc :: dc in prioritized && dc.location == x {
      if x in values {
        var i :| 0 <= i < |values| && values[i] == x;
        assert prioritized[i] in prioritized;
      }
      if exists dc :: dc in prioritized && dc.location == x {
        var dc :| dc in prioritized && dc.location == x;
        var i :| 0 <= i < |prioritized| && prioritized[i] == dc;
        assert values[i] == x;
      }
    }
  }

  /** The tier menu has no duplicates, offers exactly the tiers of the
      listed facilities, in the order they first appear. */
  lemma TiersSpec(prioritized: seq<DataCenter>)
    ensures NoDuplicates(Tiers(prioritized))
    ensures forall x :: x in Tiers(prioritized) <==> exists dc :: dc in prioritized && dc.tier == x
    ensures var values := Map(prioritized, (dc: DataCenter) => dc.tier);
            forall i, j :: 0 <= i < j < |Tiers(prioritized)| ==>
              Tiers(prioritized)[i] in values && Tiers(prioritized)[j] in values
              && FirstIndex(values, Tiers(prioritized)[i]) < FirstIndex(values, Tiers(prioritized)[j])
  {
    var values := Map(prioritized, (dc: DataCenter) => dc.tier);
    DistinctSpec(values);
    forall x ensures x in values <==> exists dc :: dc in prioritized && dc.tier == x {
      if x in values {
        var i :| 0 <= i < |values| && values[i] == x;
        assert prioritized[i] in prioritized;
      }
      if exists dc :: dc in prioritized && dc.tier == x {
        var dc :| dc in prioritized && dc.tier == x;
        var i :| 0 <= i < |prioritized| && prioritized[i] == dc;
        assert values[i] == x;
      }
    }
  }

  /** `userCountryDCCount`, counted over the unprioritised catalogue. */
  function UserCountryCount(dcs: seq<DataCenter>, user: Option<User>): nat {
    if user.None? then 0 else |HomeGroup(dcs, user.value.country)|
  }

  /** The count in the banner is the number of facilities put first. */
  lemma UserCountryCountIsPrefix(dcs: seq<DataCenter>, user: User)
    ensures var r := Prioritize(dcs, Some(user), false);
            var k := UserCountryCount(dcs, Some(user));
            k <= |r| && (forall i :: 0 <= i < k ==> InCountry(r[i], user.country))
            && (forall i :: k <= i < |r| ==> !InCountry(r[i], user.country))
  {
    PrioritizeOrder(dcs, user);
  }

  /** `user?.role === 'admin'` */
  predicate IsAdmin(user: Option<User>) {
    user.Some? && user.value.role == AdminRole
  }

  /** The state of the catalogue screen that its handlers change. */
  class AppState {
    var currentDataCenters: seq<DataCenter>
    /** The module-level `mockUsers` array. `useState(mockUsers)` holds that
        very array, so until the first `onUpdateUsers` the screen's user list
        is whatever `mockUsers` holds at the time. */
    const mockUsers: UserStore
    /** True while `currentUsers` is still the `mockUsers` array itself. */
    var usersShared: bool
    /** The array `onUpdateUsers` installed, once it has. */
    var ownUsers: seq<User>
    var searchTerm: string
    var selectedLocation: string
    var selectedTier: string
    var showAllDataCenters: bool
    var showAuthModal: bool
    var showAdminPanel: bool

    constructor (dataCenters: seq<DataCenter>, mockUsers: UserStore)
      ensures currentDataCenters == dataCenters && this.mockUsers == mockUsers
      ensures usersShared && CurrentUsers() == mockUsers.accounts
      ensures searchTerm == "" && selectedLocation == "" && selectedTier == ""
      ensures !showAllDataCenters && !showAuthModal && !showAdminPanel
    {
      currentDataCenters := dataCenters;
      this.mockUsers := mockUsers;
      usersShared := true;
      ownUsers := [];
      searchTerm, selectedLocation, selectedTier := "", "", "";
      showAllDataCenters, showAuthModal, showAdminPanel := false, false, false;
    }

    /** `currentUsers`, the list handed to the admin panel. */
    function CurrentUsers(): seq<User>
      reads this, mockUsers
    {
      if usersShared then mockUsers.accounts else ownUsers
    }

    function CurrentQuery(): Query
      reads this
    {
      Query(searchTerm, selectedLocation, selectedTier)
    }

    /** The list the grid and map show. */
    function Visible(user: Option<User>): seq<DataCenter>
      reads this
    {
      FilterCatalogue(Prioritize(currentDataCenters, user, showAllDataCenters), CurrentQuery())
    }

    /** The admin panel replaces the catalogue only for a signed-in admin. */
    predicate RendersAdminPanel(user: Option<User>)
      reads this
    {
      showAdminPanel && IsAdmin(user)
    }

    /** The header's account button: the admin panel for an admin, the
        sign-in dialog for everyone else. */
    method HandleAuthClick(user: Option<User>)
      modifies this
      ensures IsAdmin(user) ==> showAdminPanel && showAuthModal == old(showAuthModal)
      ensures !IsAdmin(user) ==> showAuthModal && showAdminPanel == old(showAdminPanel)
      ensures RendersAdminPanel(user) <==> IsAdmin(user)
      ensures currentDataCenters == old(currentDataCenters) && CurrentQuery() == old(CurrentQuery())
      ensures showAllDataCenters == old(showAllDataCenters)
      ensures usersShared == old(usersShared) && ownUsers == old(ownUsers)
    {
      if IsAdmin(user) {
        showAdminPanel := true;
      } else {
        showAuthModal := true;
      }
    }

    /** The filter panel's reset: both exact filters cleared, the search
        term kept. */
    method ResetFilters()
      modifies this
      ensures selectedLocation == "" && selectedTier == "" && searchTerm == old(searchTerm)
      ensures currentDataCenters == old(currentDataCenters) && showAllDataCenters == old(showAllDataCenters)
      ensures showAuthModal == old(showAuthModal) && showAdminPanel == old(showAdminPanel)
      ensures usersShared == old(usersShared) && ownUsers == old(ownUsers)
    {
      selectedLocation := "";
      selectedTier := "";
    }

    /** "Show All Data Centers": drop the prioritisation. */
    method ShowAll(user: Option<User>)
      modifies this
      ensures showAllDataCenters && CurrentQuery() == old(CurrentQuery())
      ensures currentDataCenters == old(currentDataCenters)
      ensures Visible(user) == FilterCatalogue(currentDataCenters, CurrentQuery())
      ensures showAuthModal == old(showAuthModal) && showAdminPanel == old(showAdminPanel)
      ensures usersShared == old(usersShared) && ownUsers == old(ownUsers)
    {
      showAllDataCenters := true;
    }

    method SetSearchTerm(term: string)
      modifies this
      ensures CurrentQuery() == old(CurrentQuery()).(searchTerm := term)
      ensures currentDataCenters == old(currentDataCenters) && showAllDataCenters == old(showAllDataCenters)
      ensures showAuthModal == old(showAuthModal) && showAdminPanel == old(showAdminPanel)
      ensures usersShared == old(usersShared) && ownUsers == old(ownUsers)
    {
      searchTerm := term;
    }

    method SetLocation(location: string)
      modifies this
      ensures CurrentQuery() == old(CurrentQuery()).(location := location)
      ensures currentDataCenters == old(currentDataCenters) && showAllDataCenters == old(showAllDataCenters)
      ensures showAuthModal == old(showAuthModal) && showAdminPanel == old(showAdminPanel)
      ensures usersShared == old(usersShared) && ownUsers == old(ownUsers)
    {
      selectedLocation := location;
    }

    method SetTier(tier: string)
      modifies this
      ensures CurrentQuery() == old(CurrentQuery()).(tier := tier)
      ensures currentDataCenters == old(currentDataCenters) && showAllDataCenters == old(showAllDataCenters)
      ensures showAuthModal == old(showAuthModal) && showAdminPanel == old(showAdminPanel)
      ensures usersShared == old(usersShared) && ownUsers == old(ownUsers)
    {
      selectedTier := tier;
    }

    /** The admin panel's `onUpdateDataCenters` callback. */
    method UpdateDataCenters(dataCenters: seq<DataCenter>)
      modifies this
      ensures currentDataCenters == dataCenters && CurrentQuery() == old(CurrentQuery())
      ensures showAllDataCenters == old(showAllDataCenters)
      ensures showAuthModal == old(showAuthModal) && showAdminPanel == old(showAdminPanel)
      ensures usersShared == old(usersShared) && ownUsers == old(ownUsers)
    {
      currentDataCenters := dataCenters;
    }

    /** The admin panel's `onUpdateUsers` callback: the screen now holds the
        new array, no longer `mockUsers`. */
    method UpdateUsers(users: seq<User>)
      modifies this
      ensures !usersShared && CurrentUsers() == users
      ensures currentDataCenters == old(currentDataCenters) && CurrentQuery() == old(CurrentQuery())
      ensures showAllDataCenters == old(showAllDataCenters)
      ensures showAuthModal == old(showAuthModal) && showAdminPanel == old(showAdminPanel)
    {
      usersShared := false;
      ownUsers := users;
    }

    /** The admin panel's `onClose`. */
    method CloseAdminPanel()
      modifies this
      ensures !showAdminPanel && currentDataCenters == old(currentDataCenters)
      ensures CurrentQuery() == old(CurrentQuery()) && showAllDataCenters == old(showAllDataCenters)
      ensures showAuthModal == old(showAuthModal)
      ensures usersShared == old(usersShared) && ownUsers == old(ownUsers)
    {
      showAdminPanel := false;
    }
  }

  /** A sign-up while the screen still holds `mockUsers` itself reaches the
      admin user list: `register` pushes onto the very array the screen's
      `currentUsers` is. */
  method RegisterWhileShared(app: AppState, auth: AuthProvider, email: string, password: string,
                             name: string, location: string, country: string,
                             newId: string, now: string) returns (ok: bool)
    requires app.usersShared && auth.accounts == app.mockUsers
    modifies auth, auth.accounts
    ensures ok ==> app.CurrentUsers() == old(app.CurrentUsers()) + [NewAccount(newId, email, name, location, country, now)]
    ensures !ok ==> app.CurrentUsers() == old(app.CurrentUsers())
  {
    ok := auth.Register(email, password, name, location, country, newId, now);
  }

  /** Once `onUpdateUsers` has replaced the array, a sign-up no longer
      reaches the screen's user list. */
  method RegisterAfterUpdate(app: AppState, auth: AuthProvider, email: string, password: string,
                             name: string, location: string, country: string,
                             newId: string, now: string) returns (ok: bool)
    requires !app.usersShared && auth.accounts == app.mockUsers
    modifies auth, auth.accounts
    ensures app.CurrentUsers() == old(app.CurrentUsers())
    ensures ok ==> NewAccount(newId, email, name, location, country, now) in auth.accounts.accounts
  {
    ok := auth.Register(email, password, name, location, country, newId, now);
  }
}
