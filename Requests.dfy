/**
 * The Requests page: the request list, the tab and text filters over it,
 * the create-request form with its validation and id generation, and the
 * badge look-up tables.
 */
module Requests {
  import opened Wrappers
  import opened Text
  import opened Lists

  // ---------------------------------------------------------------------------
  // Records
  // ---------------------------------------------------------------------------

  /** A user as the request list shows it (requester and assignee). */
  datatype Person = Person(id: int, name: string, avatar: string, initials: string)

  /** Status and priority are strings, as in the page; see `Statuses`, `Priorities`. */
  datatype Request = Request(
    id: string,
    title: string,
    description: string,
    department: string,
    status: string,
    priority: string,
    created: string,
    requester: Person,
    assignee: Person)

  /** The "New Request" form. `assigneeId` is the selected user id as text. */
  datatype RequestForm = RequestForm(
    title: string,
    description: string,
    department: string,
    priority: string,
    assigneeId: string)

  /** Which notification the create handler raises. */
  datatype CreateOutcome = Created(id: string) | MissingInformation | InvalidAssignee

  datatype BadgeVariant = Default | Secondary | Outline | Destructive

  /** The status icons: Check, Clock, RotateCw and X. */
  datatype StatusIcon = Check | Clock | RotateCw | Cross

  // ---------------------------------------------------------------------------
  // Sample data
  // ---------------------------------------------------------------------------

  const JohnDoe := Person(1, "John Doe", "/placeholder.svg", "JD")
  const SarahWilliams := Person(2, "Sarah Williams", "/placeholder.svg", "SW")
  const AlexJohnson := Person(3, "Alex Johnson", "/placeholder.svg", "AJ")
  const MichaelBrown := Person(4, "Michael Brown", "/placeholder.svg", "MB")
  const JaneSmith := Person(5, "Jane Smith", "/placeholder.svg", "JS")

  /** The users an assignee is chosen from; the first one is the signed-in user. */
  const Directory: seq<Person> := [JohnDoe, SarahWilliams, AlexJohnson, MichaelBrown, JaneSmith]

  /** The "My Requests" tab shows the requests of the user with this id. */
  const CurrentUserId: int := 1

  const Statuses: seq<string> := ["Pending", "In Progress", "Approved", "Completed", "Rejected"]
  const Priorities: seq<string> := ["Low", "Medium", "High"]

  const InitialRequests: seq<Request> := [
    Request("REQ-001", "Finance Module Access",
      "Need access to the Finance module to view budget reports.",
      "Finance", "Pending", "High", "2023-09-15", JohnDoe, SarahWilliams),
    Request("REQ-002", "Tax Documentation Approval",
      "Requesting approval for the Q2 tax documentation.",
      "Tax", "In Progress", "Medium", "2023-09-14", AlexJohnson, MichaelBrown),
    Request("REQ-003", "Payroll Adjustment",
      "Request for payroll adjustment for the accounting team.",
      "Payroll", "Approved", "Medium", "2023-09-10", JaneSmith, JohnDoe),
    Request("REQ-004", "Digital Certificate Renewal",
      "Requesting renewal of digital certificates for the development team.",
      "Digital Certificate", "Completed", "Low", "2023-09-05", MichaelBrown, AlexJohnson),
    Request("REQ-005", "Accounting System Access",
      "Need access to the accounting system for audit purposes.",
      "Accounting", "Rejected", "High", "2023-09-01", SarahWilliams, JaneSmith)
  ]

  /** The form as it is first shown and after every successful create. */
  const EmptyForm := RequestForm("", "", "", "Medium", "")

  // ---------------------------------------------------------------------------
  // Filtering
  // ---------------------------------------------------------------------------

  /** The tab predicate table; "all" and every unknown tab keep everything. */
  predicate TabMatches(tab: string, r: Request) {
    if tab == "pending" then r.status == "Pending"
    else if tab == "inProgress" then r.status == "In Progress"
    else if tab == "completed" then r.status == "Approved" || r.status == "Completed"
    else if tab == "myRequests" then r.requester.id == CurrentUserId
    else true
  }

  /** `query` (already lower-cased) occurs in one of the searchable fields. */
  predicate MatchesQuery(r: Request, query: string) {
    Includes(ToLower(r.title), query)
    || Includes(ToLower(r.id), query)
    || Includes(ToLower(r.department), query)
    || Includes(ToLower(r.requester.name), query)
    || Includes(ToLower(r.assignee.name), query)
  }

  function OnTab(tab: string): Request -> bool {
    r => TabMatches(tab, r)
  }

  function Matching(query: string): Request -> bool {
    r => MatchesQuery(r, query)
  }

  function Shown(tab: string, searchQuery: string): Request -> bool {
    r => TabMatches(tab, r) && MatchesQuery(r, ToLower(searchQuery))
  }

  /** The rows the table shows: the tab filter and the text search, conjoined. */
  function VisibleRequests(rs: seq<Request>, tab: string, searchQuery: string): seq<Request> {
    Filter(rs, Shown(tab, searchQuery))
  }

  /**
   * A request is shown exactly when it passes the tab and the search; the rows
   * keep their order; tab "all" with an empty query shows the whole list.
   */
  lemma VisibleRequestsSpec(rs: seq<Request>, tab: string, searchQuery: string)
    ensures forall r :: r in VisibleRequests(rs, tab, searchQuery) <==>
      r in rs && TabMatches(tab, r) && MatchesQuery(r, ToLower(searchQuery))
    ensures IsSubsequence(VisibleRequests(rs, tab, searchQuery), rs)
    ensures tab == "all" && searchQuery == "" ==> VisibleRequests(rs, tab, searchQuery) == rs
  {
    FilterIsSubsequence(rs, Shown(tab, searchQuery));
    if tab == "all" && searchQuery == "" {
      FilterKeepsAll(rs, Shown(tab, searchQuery));
    }
  }

  /** With an empty query each tab selects by its own field. */
  lemma TabSelection(rs: seq<Request>, tab: string, r: Request)
    requires r in rs
    ensures tab == "pending" ==> (r in VisibleRequests(rs, tab, "") <==> r.status == "Pending")
    ensures tab == "inProgress" ==> (r in VisibleRequests(rs, tab, "") <==> r.status == "In Progress")
    ensures tab == "completed" ==>
      (r in VisibleRequests(rs, tab, "") <==> r.status == "Approved" || r.status == "Completed")
    ensures tab == "myRequests" ==> (r in VisibleRequests(rs, tab, "") <==> r.requester.id == CurrentUserId)
    ensures tab !in ["pending", "inProgress", "completed", "myRequests"] ==> r in VisibleRequests(rs, tab, "")
  {
  }

  // ---------------------------------------------------------------------------
  // Creating a request
  // ---------------------------------------------------------------------------

  /** The required fields: title, department and assignee. */
  predicate MissingFields(form: RequestForm) {
    form.title == "" || form.department == "" || form.assigneeId == ""
  }

  /** `users.find(user => user.id.toString() === assigneeId)` */
  function FindAssignee(users: seq<Person>, assigneeId: string): (r: Option<Person>)
    ensures r.None? <==> forall i :: 0 <= i < |users| ==> IntToDecimal(users[i].id) != assigneeId
    ensures r.Some? ==>
      exists i :: (0 <= i < |users| && users[i] == r.value
                   && IntToDecimal(users[i].id) == assigneeId
                   && forall j :: 0 <= j < i ==> IntToDecimal(users[j].id) != assigneeId)
    decreases |users|
  {
    if users == [] then None
    else if IntToDecimal(users[0].id) == assigneeId then
      Some(users[0])
    else
      var r := FindAssignee(users[1..], assigneeId);
      assert r.Some? ==>
        exists i :: (0 < i < |users| && users[i] == r.value
                     && IntToDecimal(users[i].id) == assigneeId
                     && forall j :: 0 <= j < i ==> IntToDecimal(users[j].id) != assigneeId)
      by {
        if r.Some? {
          var k :| 0 <= k < |users| - 1 && users[1..][k] == r.value
            && IntToDecimal(users[1..][k].id) == assigneeId
            && forall j :: 0 <= j < k ==> IntToDecimal(users[1..][j].id) != assigneeId;
          assert forall j :: 0 < j < k + 1 ==> users[j] == users[1..][j - 1];
        }
      }
      assert r.None? ==> forall i :: 0 <= i < |users| ==> IntToDecimal(users[i].id) != assigneeId by {
        if r.None? {
          assert forall i :: 0 < i < |users| ==> users[i] == users[1..][i - 1];
        }
      }
      r
  }

  /** `REQ-` followed by n zero-padded to three digits. */
  function RequestId(n: nat): string {
    "REQ-" + PadStart(NatToDecimal(n), 3, '0')
  }

  /** The number in a request id, or None when the id is not `REQ-` and digits. */
  function RequestNumber(id: string): Option<nat> {
    if |id| > 4 && id[..4] == "REQ-" && AllDigits(id[4..]) then Some(DecimalValue(id[4..])) else None
  }

  /** A generated id gives back the number it was made from. */
  lemma RequestIdRoundTrip(n: nat)
    ensures RequestNumber(RequestId(n)) == Some(n)
  {
    var digits := NatToDecimal(n);
    var padded := PadStart(digits, 3, '0');
    var k := |padded| - |digits|;
    assert padded == Repeat('0', k) + digits by {
      assert padded[k..] == digits;
      assert forall i :: 0 <= i < k ==> padded[i] == '0';
    }
    LeadingZeros(k, digits);
    DecimalRoundTrip(n);
    assert RequestId(n)[..4] == "REQ-" && RequestId(n)[4..] == padded;
  }

  /**
   * Up to 999 the id has exactly seven characters; from 100 on the number is
   * written without padding, so padStart never truncates (1000 gives REQ-1000).
   */
  lemma RequestIdFormat(n: nat)
    ensures RequestId(n)[..4] == "REQ-"
    ensures n < 1000 ==> |RequestId(n)| == 7
    ensures n >= 100 ==> RequestId(n) == "REQ-" + NatToDecimal(n)
  {
    DecimalLength(n, 3);
    DecimalLength(n, 2);
    assert Pow10(3) == 1000 && Pow10(2) == 100;
  }

  /** Two creates at different list lengths never produce the same id. */
  lemma RequestIdInjective(m: nat, n: nat)
    requires RequestId(m) == RequestId(n)
    ensures m == n
  {
    RequestIdRoundTrip(m);
    RequestIdRoundTrip(n);
  }

  /**
   * The id invariant of the request list: every id is `REQ-k` with
   * 1 <= k <= the list length, and no id occurs twice.
   */
  predicate NumberedIds(rs: seq<Request>) {
    && (forall i :: 0 <= i < |rs| ==>
          RequestNumber(rs[i].id).Some? && 1 <= RequestNumber(rs[i].id).value <= |rs|)
    && (forall i, j :: 0 <= i < j < |rs| ==> rs[i].id != rs[j].id)
  }

  /** Prepending a request numbered length+1 keeps the id invariant. */
  lemma PrependKeepsNumberedIds(rs: seq<Request>, r: Request)
    requires NumberedIds(rs)
    requires r.id == RequestId(|rs| + 1)
    ensures NumberedIds([r] + rs)
  {
    RequestIdRoundTrip(|rs| + 1);
    var all := [r] + rs;
    forall i, j | 0 <= i < j < |all| ensures all[i].id != all[j].id {
      if i == 0 {
        assert all[j] == rs[j - 1];
        assert RequestNumber(all[j].id).value <= |rs|;
      } else {
        assert all[i] == rs[i - 1] && all[j] == rs[j - 1];
      }
    }
  }

  lemma InitialRequestsNumbered()
    ensures NumberedIds(InitialRequests)
  {
    var ids := ["REQ-001", "REQ-002", "REQ-003", "REQ-004", "REQ-005"];
    forall k | 0 <= k < 5 ensures RequestNumber(ids[k]) == Some(k + 1) {
      RequestIdRoundTrip(k + 1);
      assert RequestId(k + 1) == ids[k] by {
        assert NatToDecimal(k + 1) == [DigitChar(k + 1)];
        assert Repeat('0', 2) == "00";
      }
    }
    forall i | 0 <= i < 5 ensures InitialRequests[i].id == ids[i] { }
  }

  // ---------------------------------------------------------------------------
  // Badge tables
  // ---------------------------------------------------------------------------

  /** Status to badge variant; total, with `Outline` for In Progress and unknown statuses. */
  function StatusVariant(status: string): (v: BadgeVariant)
    ensures v == Default <==> status == "Approved" || status == "Completed"
    ensures v == Secondary <==> status == "Pending"
    ensures v == Destructive <==> status == "Rejected"
    ensures v == Outline <==> status == "In Progress" || status !in Statuses
  {
    if status == "Approved" || status == "Completed" then Default
    else if status == "Pending" then Secondary
    else if status == "In Progress" then Outline
    else if status == "Rejected" then Destructive
    else Outline
  }

  /** Status to icon; total, with the clock for Pending and for unknown statuses. */
  function StatusIconOf(status: string): (icon: StatusIcon)
    ensures icon == Check <==> status == "Approved" || status == "Completed"
    ensures icon == RotateCw <==> status == "In Progress"
    ensures icon == Cross <==> status == "Rejected"
    ensures icon == Clock <==> status == "Pending" || status !in Statuses
  {
    if status == "Approved" || status == "Completed" then Check
    else if status == "Pending" then Clock
    else if status == "In Progress" then RotateCw
    else if status == "Rejected" then Cross
    else Clock
  }

  /** Priority to badge variant; total, with `Outline` for Low and unknown priorities. */
  function PriorityVariant(priority: string): (v: BadgeVariant)
    ensures v != Default
    ensures v == Destructive <==> priority == "High"
    ensures v == Secondary <==> priority == "Medium"
    ensures v == Outline <==> priority == "Low" || priority !in Priorities
  {
    if priority == "High" then Destructive
    else if priority == "Medium" then Secondary
    else if priority == "Low" then Outline
    else Outline
  }

  // ---------------------------------------------------------------------------
  // The page state
  // ---------------------------------------------------------------------------

  class RequestsPage {
    var activeTab: string
    var requests: seq<Request>
    var searchQuery: string
    var newRequest: RequestForm

    ghost predicate Valid()
      reads this
    {
      NumberedIds(requests)
    }

    constructor ()
      ensures Valid()
      ensures activeTab == "all" && requests == InitialRequests
      ensures searchQuery == "" && newRequest == EmptyForm
    {
      activeTab := "all";
      requests := InitialRequests;
      searchQuery := "";
      newRequest := EmptyForm;
      InitialRequestsNumbered();
    }

    method SelectTab(tab: string)
      modifies this`activeTab
      ensures activeTab == tab
    {
      activeTab := tab;
    }

    method SetSearchQuery(query: string)
      modifies this`searchQuery
      ensures searchQuery == query
    {
      searchQuery := query;
    }

    /** The form inputs' change handlers. */
    method EditForm(form: RequestForm)
      modifies this`newRequest
      ensures newRequest == form
    {
      newRequest := form;
    }

    /** The rows to show: the tab filter first (unless "all"), then the search. */
    method GetFilteredRequests() returns (filtered: seq<Request>)
      ensures filtered == VisibleRequests(requests, activeTab, searchQuery)
    {
      var tab, query := activeTab, searchQuery;
      filtered := requests;
      if tab != "all" {
        filtered := Filter(filtered, OnTab(tab));
      } else {
        FilterKeepsAll(requests, OnTab(tab));
      }
      if query != "" {
        filtered := Filter(filtered, Matching(ToLower(query)));
      } else {
        assert ToLower(query) == "";
        FilterKeepsAll(filtered, Matching(ToLower(query)));
      }
      FilterCompose(requests, OnTab(tab), Matching(ToLower(query)), Shown(tab, query));
    }

    /**
     * The create handler: validate, look up the assignee, number the request
     * after the current list length, prepend it and reset the form.
     */
    method CreateRequest(today: string) returns (outcome: CreateOutcome)
      requires Valid()
      modifies this`requests, this`newRequest
      ensures Valid()
      ensures outcome == MissingInformation <==> MissingFields(old(newRequest))
      ensures outcome == InvalidAssignee <==>
        !MissingFields(old(newRequest)) && FindAssignee(Directory, old(newRequest).assigneeId).None?
      ensures !outcome.Created? ==> requests == old(requests) && newRequest == old(newRequest)
      ensures outcome.Created? ==>
        var form := old(newRequest);
        && FindAssignee(Directory, form.assigneeId).Some?
        && outcome.id == RequestId(|old(requests)| + 1)
        && requests == [Request(outcome.id, form.title, form.description, form.department,
                                "Pending", form.priority, today, Directory[0],
                                FindAssignee(Directory, form.assigneeId).value)] + old(requests)
        && newRequest == EmptyForm
    {
      if MissingFields(newRequest) {
        return MissingInformation;
      }
      var assignee := FindAssignee(Directory, newRequest.assigneeId);
      if assignee.None? {
        return InvalidAssignee;
      }
      var requestId := RequestId(|requests| + 1);
      var created := Request(requestId, newRequest.title, newRequest.description,
                             newRequest.department, "Pending", newRequest.priority, today,
                             Directory[0], assignee.value);
      PrependKeepsNumberedIds(requests, created);
      requests := [created] + requests;
      newRequest := EmptyForm;
      outcome := Created(requestId);
    }
  }

  /**
   * Creating "Server Access" in Finance assigned to John Doe on the initial
   * five requests gives REQ-006 at the head of the list.
   */
  method ServerAccessScenario() returns (outcome: CreateOutcome, first: Request)
    ensures outcome == Created("REQ-006")
    ensures first.id == "REQ-006" && first.status == "Pending" && first.assignee == JohnDoe
  {
    var page := new RequestsPage();
    page.EditForm(RequestForm("Server Access", "", "Finance", "Medium", "1"));
    assert IntToDecimal(1) == "1";
    outcome := page.CreateRequest("2023-09-20");
    assert RequestId(6) == "REQ-006" by {
      assert NatToDecimal(6) == "6";
      assert Repeat('0', 2) == "00";
    }
    first := page.requests[0];
  }
}
