/** An employee's own dashboard (`pages/UserDashboard.jsx`): the counters over
    the assignments the server returns for the signed-in user, what a fetch of
    them shows, and the condition chip of each row. */
module UserDashboard {
  import opened Js
  import opened Records
  import opened Tally
  import opened AuthStore
  import opened Session
  import Chips

  datatype MyStats = MyStats(totalAssigned: nat, activeAssignments: nat, overdueAssignments: nat)

  /** Number of assignments whose STORED status is exactly `s`. */
  function CountStored(assignments: seq<Assignment>, s: string): (n: nat)
    ensures n <= |assignments|
    ensures n > 0 <==> exists i :: 0 <= i < |assignments| && assignments[i].status == s
  {
    var r := Filter(assignments, (a: Assignment) => a.status == s);
    assert |r| > 0 ==> r[0] in assignments && r[0].status == s;
    |r|
  }

  /** The counters: all assignments, and those stored as Active and as Overdue. */
  function Stats(assignments: seq<Assignment>): (r: MyStats)
    ensures r.totalAssigned == |assignments|
    ensures r.activeAssignments == CountStored(assignments, "Active")
    ensures r.overdueAssignments == CountStored(assignments, "Overdue")
    ensures assignments == [] ==> r == MyStats(0, 0, 0)
  {
    MyStats(|assignments|, CountStored(assignments, "Active"), CountStored(assignments, "Overdue"))
  }

  /** Active and Overdue are different stored values, so together they never
      exceed the total. */
  lemma {:induction false} StoredCountsWithinTotal(assignments: seq<Assignment>)
    ensures var s := Stats(assignments); s.activeAssignments + s.overdueAssignments <= s.totalAssigned
  {
    if assignments != [] {
      StoredCountsWithinTotal(assignments[1..]);
    }
  }

  /** The counters read the stored status only: two lists that agree on every
      stored status, whatever their dates, give the same counters. */
  lemma {:induction false} StatsIgnoreDates(xs: seq<Assignment>, ys: seq<Assignment>)
    requires |xs| == |ys| && forall i :: 0 <= i < |xs| ==> xs[i].status == ys[i].status
    ensures Stats(xs) == Stats(ys)
  {
    if xs != [] {
      StatsIgnoreDates(xs[1..], ys[1..]);
    }
  }

  /** What `fetchMyAssignments` leaves on screen. A failed fetch only sets the
      error, so the list and counters shown before stay under it. */
  datatype FetchView =
    | NoToken                       // 'No authentication token found', back to the login page
    | Loaded(assignments: seq<Assignment>, stats: MyStats)
    | SessionExpired                // 'Session expired. Please log in again.', then `logout()` (see RunFetchMyAssignments)
    | LoadFailed(message: string, assignments: seq<Assignment>, stats: MyStats)

  /** `fetchMyAssignments`, given the bearer token it found and the server's answer.
      A 401 gives the session-expired view (the sign-out that follows is
      `RunFetchMyAssignments`); a 404 means "no assignments"; any other failure
      is reported with the server's error or the exception's message, above the
      list and counters already on screen (`shown`, `shownStats`), which the
      fetch then leaves as they were. */
  function FetchMyAssignments(token: Option<string>, response: Outcome<seq<Assignment>>,
                              shown: seq<Assignment>, shownStats: MyStats): (r: FetchView)
    ensures !Truthy(token) <==> r == NoToken
    ensures Truthy(token) && response.Done? ==> r == Loaded(response.data, Stats(response.data))
    ensures Truthy(token) && response.Failed? && HasStatus(response.failure, 404) ==>
              r == Loaded([], MyStats(0, 0, 0))
    ensures r == SessionExpired <==> Truthy(token) && response.Failed? && HasStatus(response.failure, 401)
    ensures Truthy(token) && response.Failed? && !HasStatus(response.failure, 401)
              && !HasStatus(response.failure, 404) ==>
              r == LoadFailed("Failed to fetch your assignments: "
                              + Or(ServerError(response.failure), response.failure.reason), shown, shownStats)
    ensures r.Loaded? ==> r.stats == Stats(r.assignments)
    ensures shownStats == Stats(shown) && (r.Loaded? || r.LoadFailed?) ==> r.stats == Stats(r.assignments)
  {
    if !Truthy(token) then NoToken
    else match response
      case Done(data) => Loaded(data, Stats(data))
      case Failed(f) =>
        if HasStatus(f, 401) then SessionExpired
        else if HasStatus(f, 404) then Loaded([], Stats([]))
        else LoadFailed("Failed to fetch your assignments: " + Or(ServerError(f), f.reason), shown, shownStats)
  }

  /** The token the page sends, as written: the local store only. */
  function PageTokenAsWritten(session: map<string, string>, local: map<string, string>): (r: Option<string>)
    ensures r.Some? <==> TOKEN in local
    ensures r.Some? ==> r.value == local[TOKEN]
  {
    if TOKEN in local then Some(local[TOKEN]) else None
  }

  /** A session signed in in this tab (token in the session store, none in the
      local one) is turned away by the page as written. */
  lemma SessionTokenIgnored(session: map<string, string>, local: map<string, string>,
                            response: Outcome<seq<Assignment>>, shown: seq<Assignment>, shownStats: MyStats)
    requires TOKEN in session && session[TOKEN] != "" && TOKEN !in local
    ensures FetchMyAssignments(PageTokenAsWritten(session, local), response, shown, shownStats) == NoToken
  {
  }

  /** The token the page should send: `getToken()`, session store first. */
  function PageToken(session: map<string, string>, local: map<string, string>): (r: Option<string>)
    ensures TOKEN in session && session[TOKEN] != "" ==> r == Some(session[TOKEN])
  {
    ReadFirst(session, local, TOKEN)
  }

  /** With the intended token, a session signed in in this tab always reaches the
      server, and a successful answer is shown with its counters. */
  lemma SessionTokenUsed(session: map<string, string>, local: map<string, string>,
                         response: Outcome<seq<Assignment>>, shown: seq<Assignment>, shownStats: MyStats)
    requires TOKEN in session && session[TOKEN] != ""
    ensures FetchMyAssignments(PageToken(session, local), response, shown, shownStats) != NoToken
    ensures response.Done? ==>
              FetchMyAssignments(PageToken(session, local), response, shown, shownStats) == Loaded(response.data, Stats(response.data))
  {
  }

  /** `fetchMyAssignments` run in a signed-in app: the page reads its token as
      written, and a 401 calls `logout()` before going to '/login'. Returns the
      view and the page it navigates to, if any. The sign-out clears the
      session store only, so a stale local token the page would read again
      survives it. */
  method RunFetchMyAssignments(auth: AuthProvider, response: Outcome<seq<Assignment>>,
                               shown: seq<Assignment>, shownStats: MyStats)
    returns (view: FetchView, redirect: Option<string>)
    requires auth.Valid()
    modifies auth, auth.session
    ensures auth.Valid()
    ensures view == FetchMyAssignments(PageTokenAsWritten(old(auth.session.entries), old(auth.local.entries)),
                                       response, shown, shownStats)
    ensures redirect == (if view == NoToken || view == SessionExpired then Some("/login") else None)
    ensures view == SessionExpired ==>
              auth.user.None? && !auth.isAuthenticated && !auth.IsAdmin()
              && auth.session.entries == old(auth.session.entries) - {TOKEN, USER}
              && TOKEN !in auth.session.entries
    ensures view != SessionExpired ==>
              auth.user == old(auth.user) && auth.isAuthenticated == old(auth.isAuthenticated)
              && auth.session.entries == old(auth.session.entries)
    ensures auth.local.entries == old(auth.local.entries) && auth.loading == old(auth.loading)
    ensures PageTokenAsWritten(auth.session.entries, auth.local.entries)
              == PageTokenAsWritten(old(auth.session.entries), old(auth.local.entries))
  {
    view := FetchMyAssignments(PageTokenAsWritten(auth.session.entries, auth.local.entries),
                               response, shown, shownStats);
    redirect := None;
    if view == SessionExpired {
      auth.Logout();
      redirect := Some("/login");
    } else if view == NoToken {
      redirect := Some("/login");
    }
  }

  /** A sign-in on a fresh tab followed by opening the dashboard: the page as
      written finds no token, the intended page loads the assignments. */
  method SignInThenOpenDashboard(token: string, u: User, stringify: User -> string,
                                 response: seq<Assignment>)
    returns (asWritten: FetchView, intended: FetchView)
    requires token != ""
    ensures asWritten == NoToken
    ensures intended == Loaded(response, Stats(response))
  {
    var session := new WebStorage(map[]);
    var local := new WebStorage(map[]);
    var auth := new AuthProvider(session, local);
    var result := auth.Login(Done(AuthPayload(token, Some(u))), stringify);
    asWritten := FetchMyAssignments(PageTokenAsWritten(session.entries, local.entries), Done(response), [], MyStats(0, 0, 0));
    intended := FetchMyAssignments(PageToken(session.entries, local.entries), Done(response), [], MyStats(0, 0, 0));
  }

  /** A condition chip: its label and its colour. */
  datatype Chip = Chip(text: string, color: string)

  /** The condition chip as written: the label falls back to 'Good' but the colour
      is taken from the raw, possibly missing, condition. */
  function ConditionChipAsWritten(condition: Option<string>): (r: Chip)
    ensures r.text == Or(condition, "Good")
    ensures condition.None? ==> r.color == "default"
    ensures condition.Some? ==> r.color == Chips.ConditionColor(condition.value)
  {
    Chip(Or(condition, "Good"), if condition.Some? then Chips.ConditionColor(condition.value) else "default")
  }

  /** A missing condition is labelled 'Good' yet drawn in another colour than a
      recorded 'Good'. */
  lemma MissingConditionMiscoloured()
    ensures ConditionChipAsWritten(None).text == ConditionChipAsWritten(Some("Good")).text
    ensures ConditionChipAsWritten(None).color != ConditionChipAsWritten(Some("Good")).color
  {
  }

  /** The condition chip as intended: coloured by the label it shows. */
  function ConditionChip(condition: Option<string>): (r: Chip)
    ensures r.text == Or(condition, "Good")
    ensures r.color == Chips.ConditionColor(r.text)
    ensures !Truthy(condition) ==> r == Chip("Good", "primary")
  {
    var shown := Or(condition, "Good");
    Chip(shown, Chips.ConditionColor(shown))
  }

  /** Two rows showing the same condition label show the same colour. */
  lemma SameLabelSameColour(c: Option<string>, d: Option<string>)
    requires ConditionChip(c).text == ConditionChip(d).text
    ensures ConditionChip(c).color == ConditionChip(d).color
  {
  }
}
