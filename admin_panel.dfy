/**
  The admin panel's root component (src/app/page.tsx): the booking and user
  search effects, which overwrite the stored lists with their filtered (and, for
  bookings, date-sorted) versions and ask for a reload when the query is blank;
  page navigation; and logout.

  The panel keeps the untyped records the backend returned, so any field the
  search reads may be missing; `?? ''` turns a missing field into "".
*/
module Page {
  import opened Wrappers
  import opened Text
  import opened Seqs

  datatype CustomerRow = CustomerRow(
    firstName: Option<string>,
    lastName: Option<string>,
    email: Option<string>,
    phone: Option<string>)

  /** A booking as the panel stores it; `tripTime` is `new Date(tripDateTime).getTime()`. */
  datatype BookingRow = BookingRow(
    bookingId: string,
    customer: Option<CustomerRow>,
    departureLocation: Option<string>,
    destinationLocation: Option<string>,
    tripTime: int)

  datatype UserRow = UserRow(
    id: string,
    firstName: Option<string>,
    lastName: Option<string>,
    email: Option<string>,
    phone: Option<string>)

  /** The value of `currentPage`. */
  datatype PageName = UsersPage | BookingsPage

  /** `x ?? ''`. */
  function OrEmpty(x: Option<string>): string {
    if x.Some? then x.value else ""
  }

  /** The customer field read through `booking.customer?.field ?? ''`. */
  function CustomerField(c: Option<CustomerRow>, field: CustomerRow -> Option<string>): string {
    if c.Some? then OrEmpty(field(c.value)) else ""
  }

  function FirstName(c: CustomerRow): Option<string> { c.firstName }
  function LastName(c: CustomerRow): Option<string> { c.lastName }
  function Email(c: CustomerRow): Option<string> { c.email }
  function Phone(c: CustomerRow): Option<string> { c.phone }

  /** `query.trim().toLowerCase()`. */
  function NormalizeQuery(query: string): string {
    ToLower(Trim(query))
  }

  /** The normalized query is empty exactly when the query is blank. */
  lemma NormalizedEmptyIffBlank(query: string)
    ensures NormalizeQuery(query) == [] <==> IsBlank(query)
  {
    assert |NormalizeQuery(query)| == |Trim(query)|;
  }

  /** The booking filter's callback for an already normalized `search`: lower-cased name, e-mail and
      locations, and the phone number as it is, each tested for containing `search`. */
  predicate BookingMatches(b: BookingRow, search: string) {
    var fullName := ToLower(CustomerField(b.customer, FirstName) + " " + CustomerField(b.customer, LastName));
    || Contains(fullName, search)
    || Contains(ToLower(CustomerField(b.customer, Email)), search)
    || Contains(CustomerField(b.customer, Phone), search)
    || Contains(ToLower(OrEmpty(b.departureLocation)), search)
    || Contains(ToLower(OrEmpty(b.destinationLocation)), search)
  }

  function BookingMatcher(search: string): BookingRow -> bool {
    b => BookingMatches(b, search)
  }

  /** The sort key: the trip instant. */
  function TripTime(b: BookingRow): int {
    b.tripTime
  }

  /** The list the booking search effect stores: the matching bookings, nearest trip first. */
  function SearchBookings(bookings: seq<BookingRow>, query: string): (r: seq<BookingRow>)
    ensures SortedBy(r, TripTime)
    ensures multiset(r) <= multiset(bookings)
    ensures forall b :: multiset(r)[b] == if BookingMatches(b, NormalizeQuery(query)) then multiset(bookings)[b] else 0
    ensures |r| <= |bookings|
    ensures forall b :: b in r <==> b in bookings && BookingMatches(b, NormalizeQuery(query))
  {
    var kept := Filter(bookings, BookingMatcher(NormalizeQuery(query)));
    FilterMultiset(bookings, BookingMatcher(NormalizeQuery(query)));
    FilterMembership(bookings, BookingMatcher(NormalizeQuery(query)));
    SortByMembership(kept, TripTime);
    SortBy(kept, TripTime)
  }

  /** Bookings with the same trip time keep the order they had in the stored list. */
  lemma SearchBookingsStable(bookings: seq<BookingRow>, query: string, t: int)
    ensures Filter(SearchBookings(bookings, query), KeyIs(TripTime, t)) ==
            Filter(Filter(bookings, BookingMatcher(NormalizeQuery(query))), KeyIs(TripTime, t))
  {
    SortByStable(Filter(bookings, BookingMatcher(NormalizeQuery(query))), TripTime, t);
  }

  /** A blank query keeps every booking: the search only re-sorts the stored list. */
  lemma BlankBookingQueryKeepsAll(bookings: seq<BookingRow>, query: string)
    requires IsBlank(query)
    ensures multiset(SearchBookings(bookings, query)) == multiset(bookings)
  {
    assert NormalizeQuery(query) == [];
    forall i | 0 <= i < |bookings| ensures BookingMatcher(NormalizeQuery(query))(bookings[i]) {
      ContainsEmpty(OrEmpty(bookings[i].departureLocation));
    }
    FilterKeepsAll(bookings, BookingMatcher(NormalizeQuery(query)));
  }

  /** Searching the searched list again with the same query changes nothing. */
  lemma SearchBookingsIdempotent(bookings: seq<BookingRow>, query: string)
    ensures SearchBookings(SearchBookings(bookings, query), query) == SearchBookings(bookings, query)
  {
    var once := SearchBookings(bookings, query);
    var p := BookingMatcher(NormalizeQuery(query));
    assert forall i :: 0 <= i < |once| ==> p(once[i]) by {
      forall i | 0 <= i < |once| ensures p(once[i]) {
        assert once[i] in once;
      }
    }
    FilterKeepsAll(once, p);
    SortBySorted(once, TripTime);
  }

  /** The search is destructive: after narrowing with `query`, clearing it again only brings back the
      bookings that matched `query`; the rest return only through the reload. */
  lemma ClearingRestoresOnlyMatches(bookings: seq<BookingRow>, query: string)
    ensures multiset(SearchBookings(SearchBookings(bookings, query), "")) ==
            multiset(Filter(bookings, BookingMatcher(NormalizeQuery(query))))
  {
    var once := SearchBookings(bookings, query);
    assert Trim("") == [];
    BlankBookingQueryKeepsAll(once, "");
  }

  /** A booking without a customer, or without locations, is searched as if those fields were "". */
  lemma MissingFieldsSearchAsEmpty(b: BookingRow, search: string)
    requires b.customer.None? && b.departureLocation.None? && b.destinationLocation.None?
    ensures BookingMatches(b, search) <==> Contains(" ", search) || Contains("", search)
  {
    assert ToLower(" ") == " ";
    assert ToLower("") == "";
  }

  /** The user filter's callback for an already normalized `search` (no sort follows it). */
  predicate UserMatches(u: UserRow, search: string) {
    || Contains(ToLower(OrEmpty(u.firstName) + " " + OrEmpty(u.lastName)), search)
    || Contains(ToLower(OrEmpty(u.email)), search)
    || Contains(OrEmpty(u.phone), search)
  }

  function UserMatcher(search: string): UserRow -> bool {
    u => UserMatches(u, search)
  }

  /** The list the user search effect stores: the matching users, in their original order. */
  function SearchUsers(users: seq<UserRow>, query: string): (r: seq<UserRow>)
    ensures IsSubsequence(r, users)
    ensures forall u :: multiset(r)[u] == if UserMatches(u, NormalizeQuery(query)) then multiset(users)[u] else 0
    ensures forall u :: u in r <==> u in users && UserMatches(u, NormalizeQuery(query))
    ensures IsBlank(query) ==> r == users
  {
    var p := UserMatcher(NormalizeQuery(query));
    FilterMultiset(users, p);
    FilterIsSubsequence(users, p);
    FilterMembership(users, p);
    if IsBlank(query) then
      assert NormalizeQuery(query) == [];
      forall i | 0 <= i < |users| ensures p(users[i]) {
        ContainsEmpty(OrEmpty(users[i].phone));
      }
      FilterKeepsAll(users, p);
      Filter(users, p)
    else
      Filter(users, p)
  }

  /** Searching the searched user list again with the same query changes nothing. */
  lemma SearchUsersIdempotent(users: seq<UserRow>, query: string)
    ensures SearchUsers(SearchUsers(users, query), query) == SearchUsers(users, query)
  {
    FilterIdempotent(users, UserMatcher(NormalizeQuery(query)));
  }

  /** `if (token)` on `localStorage.getItem('token')`: a stored, non-empty token. */
  predicate TokenPresent(stored: Option<string>) {
    stored.Some? && stored.value != ""
  }

  /** Searching an empty list finds nothing, whatever the query. */
  lemma EmptyListsSearchEmpty(bookingQuery: string, userQuery: string)
    ensures SearchBookings([], bookingQuery) == [] && SearchUsers([], userQuery) == []
  {
  }

  /** The searches as wired: the panel hands `searchValue` and `onSearch` to list screens whose
      props declare neither, so no input ever writes `bookingSearch` or `userSearch`. Both effects
      then only run with the initial "", and the stored lists are never narrowed: the bookings
      are only re-sorted and the users kept as they are. */
  lemma WiredSearchesKeepEverything(bookings: seq<BookingRow>, users: seq<UserRow>)
    ensures multiset(SearchBookings(bookings, "")) == multiset(bookings)
    ensures SearchUsers(users, "") == users
  {
    assert IsBlank("");
    BlankBookingQueryKeepsAll(bookings, "");
  }

  class AdminPanel {
    /** The `token` state; the login form is shown while it is "". */
    var token: string
    /** The browser's `localStorage` entry `'token'`. */
    var storedToken: Option<string>
    var currentPage: PageName
    var users: seq<UserRow>
    var bookings: seq<BookingRow>
    var userSearch: string
    var bookingSearch: string

    constructor (stored: Option<string>)
      ensures token == "" && storedToken == stored && currentPage == UsersPage
      ensures users == [] && bookings == [] && userSearch == "" && bookingSearch == ""
    {
      token := "";
      storedToken := stored;
      currentPage := UsersPage;
      users := [];
      bookings := [];
      userSearch := "";
      bookingSearch := "";
    }

    /** `if (!token) return <LoginForm/>`. */
    predicate ShowsLoginForm()
      reads this
    {
      token == ""
    }

    /** The effect on `[bookingSearch]`: the stored bookings are replaced by the search result for
        the current query. `reload` says whether `fetchBookings` is called: `search.length === 0` on
        the normalized query, which is blankness by `NormalizedEmptyIffBlank`. */
    method BookingSearchEffect() returns (reload: bool)
      modifies this`bookings
      ensures bookings == SearchBookings(old(bookings), bookingSearch)
      ensures reload <==> IsBlank(bookingSearch) && TokenPresent(storedToken)
    {
      reload := IsBlank(bookingSearch) && TokenPresent(storedToken);
      bookings := SearchBookings(bookings, bookingSearch);
    }

    /** The effect on `[userSearch]`, with `fetchUsers` for the reload (the same condition as for
        bookings). */
    method UserSearchEffect() returns (reload: bool)
      modifies this`users
      ensures users == SearchUsers(old(users), userSearch)
      ensures reload <==> IsBlank(userSearch) && TokenPresent(storedToken)
    {
      reload := IsBlank(userSearch) && TokenPresent(storedToken);
      users := SearchUsers(users, userSearch);
    }

    /** `setBookingSearch(query)`. Setting the value the state already holds is skipped, so the
        effect runs only on a changed query. The setter reaches the bookings screen only as an
        `onSearch` prop that screen does not declare, so as wired it is never called. */
    method SetBookingSearch(query: string) returns (reload: bool)
      modifies this`bookingSearch, this`bookings
      ensures bookingSearch == query
      ensures query == old(bookingSearch) ==> bookings == old(bookings) && !reload
      ensures query != old(bookingSearch) ==> bookings == SearchBookings(old(bookings), query)
      ensures query != old(bookingSearch) ==> (reload <==> IsBlank(query) && TokenPresent(storedToken))
    {
      if query == bookingSearch {
        reload := false;
      } else {
        bookingSearch := query;
        reload := BookingSearchEffect();
      }
    }

    /** `setUserSearch(query)`: as for bookings, an unchanged query is skipped, and the setter
        reaches the user screen only as an undeclared `onSearch` prop. */
    method SetUserSearch(query: string) returns (reload: bool)
      modifies this`userSearch, this`users
      ensures userSearch == query
      ensures query == old(userSearch) ==> users == old(users) && !reload
      ensures query != old(userSearch) ==> users == SearchUsers(old(users), query)
      ensures query != old(userSearch) ==> (reload <==> IsBlank(query) && TokenPresent(storedToken))
    {
      if query == userSearch {
        reload := false;
      } else {
        userSearch := query;
        reload := UserSearchEffect();
      }
    }

    /** A bookings fetch resolved: `setBookings(res.data.data)`. */
    method BookingsLoaded(data: seq<BookingRow>)
      modifies this`bookings
      ensures bookings == data
    {
      bookings := data;
    }

    /** A users fetch resolved: `setUsers(res.data.data)`. */
    method UsersLoaded(data: seq<UserRow>)
      modifies this`users
      ensures users == data
    {
      users := data;
    }

    /** The effect on `currentPage`: with a stored token the panel adopts it and fetches the list
        of the current page. */
    method PageEffect() returns (fetch: Option<PageName>)
      modifies this`token
      ensures TokenPresent(storedToken) ==> token == storedToken.value && fetch == Some(currentPage)
      ensures !TokenPresent(storedToken) ==> token == old(token) && fetch == None
    {
      if TokenPresent(storedToken) {
        token := storedToken.value;
        fetch := Some(currentPage);
      } else {
        fetch := None;
      }
    }

    /** The first render, on the state the constructor leaves: all three effects run. With a
        stored token the page's list is fetched and, the queries being empty, both search
        effects ask for a reload as well; without one nothing is fetched. The effects write
        disjoint state (the token; the bookings; the users), so the order of the calls below does
        not change the outcome. */
    method Mount() returns (fetch: Option<PageName>, reloadBookings: bool, reloadUsers: bool)
      requires bookings == [] && users == [] && bookingSearch == "" && userSearch == ""
      modifies this`token, this`bookings, this`users
      ensures TokenPresent(storedToken) ==> token == storedToken.value && fetch == Some(currentPage)
      ensures !TokenPresent(storedToken) ==> token == old(token) && fetch == None
      ensures reloadBookings == reloadUsers == TokenPresent(storedToken)
      ensures bookings == [] && users == [] && bookingSearch == "" && userSearch == ""
    {
      EmptyListsSearchEmpty(bookingSearch, userSearch);
      assert IsBlank("");
      reloadBookings := BookingSearchEffect();
      reloadUsers := UserSearchEffect();
      fetch := PageEffect();
    }

    /** A sidebar click. The page effect runs only when the page actually changes. */
    method Navigate(page: PageName) returns (fetch: Option<PageName>)
      modifies this
      ensures currentPage == page
      ensures page == old(currentPage) ==> fetch == None && token == old(token)
      ensures page != old(currentPage) && TokenPresent(storedToken) ==> token == storedToken.value && fetch == Some(page)
      ensures page != old(currentPage) && !TokenPresent(storedToken) ==> token == old(token) && fetch == None
      ensures storedToken == old(storedToken) && users == old(users) && bookings == old(bookings)
      ensures userSearch == old(userSearch) && bookingSearch == old(bookingSearch)
    {
      if page == currentPage {
        fetch := None;
      } else {
        currentPage := page;
        fetch := PageEffect();
      }
    }

    /** A sign-in that succeeded: the access token is stored and adopted, and the users are
        fetched. The login form leaves the screen. */
    method LoginSucceeded(accessToken: string) returns (fetchUsers: bool)
      modifies this`storedToken, this`token
      ensures storedToken == Some(accessToken) && token == accessToken
      ensures accessToken != "" ==> !ShowsLoginForm()
      ensures fetchUsers
    {
      storedToken := Some(accessToken);
      token := accessToken;
      fetchUsers := true;
    }

    /** `logout`: forget the token everywhere and return to the users page. */
    method Logout()
      modifies this
      ensures storedToken == None && token == "" && currentPage == UsersPage
      ensures ShowsLoginForm()
      ensures users == old(users) && bookings == old(bookings)
      ensures userSearch == old(userSearch) && bookingSearch == old(bookingSearch)
    {
      storedToken := None;
      token := "";
      currentPage := UsersPage;
    }
  }
}
