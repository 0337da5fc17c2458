/**
 * The admin component for misclassification reports: the query
 * parameters of its two fetches by role, the report payload that carries
 * only real corrections, the local removal of a deleted report and the
 * case-insensitive complaint search.
 *
 * The requests the component sends are kept as a log; what the server
 * answers, and the admin's answer to the confirm dialog, enter as
 * parameters. `toLowerCase` folds the ASCII letters only here.
 */
module ReportManager {
  import opened Wrappers
  import Text

  datatype User = User(id: int, role: string, department: Option<string>, municipalityId: Option<int>, districtId: Option<int>)

  datatype ComplaintRow = ComplaintRow(id: int, message: Option<string>, department: Option<string>, urgency: Option<string>)

  datatype Report = Report(id: int, complaintId: int)

  datatype ParamValue = PStr(s: string) | PInt(i: int) | PBool(b: bool)

  /** Query parameters in insertion order, as axios serialises them. */
  type Params = seq<(string, ParamValue)>

  datatype Payload = Payload(complaintId: int, correctDepartment: Option<string>, correctUrgency: Option<string>)

  /** The requests the component sends; Path gives each one's URL. */
  datatype Request =
    | GetComplaints(params: Params)
    | GetPending(params: Params)
    | PostReport(reporter: int, payload: Payload)
    | DeleteReport(reportId: int, reporter: int)

  /** A number is truthy unless missing or 0; a string unless missing or empty. */
  predicate IdSet(x: Option<int>) { x.Some? && x.value != 0 }
  predicate StrSet(x: Option<string>) { x.Some? && x.value != "" }

  // ---------------------------------------------------------------------
  // The two fetches
  // ---------------------------------------------------------------------

  /**
   * The complaints fetch: a department admin filters by department (when
   * defined) and municipality, a municipal admin by municipality, a super
   * admin by district, each only when the id is set.
   */
  function ComplaintParams(u: User): (p: Params)
    ensures u.role == "department_admin" ==>
      p == (if u.department.Some? then [("department", PStr(u.department.value))] else [])
           + (if IdSet(u.municipalityId) then [("municipality_id", PInt(u.municipalityId.value))] else [])
    ensures u.role == "municipal_admin" ==>
      p == (if IdSet(u.municipalityId) then [("municipality_id", PInt(u.municipalityId.value))] else [])
    ensures u.role == "super_admin" ==>
      p == (if IdSet(u.districtId) then [("district_id", PInt(u.districtId.value))] else [])
    ensures u.role !in {"department_admin", "municipal_admin", "super_admin"} ==> p == []
  {
    if u.role == "department_admin" then
      (if u.department.Some? then [("department", PStr(u.department.value))] else [])
      + (if IdSet(u.municipalityId) then [("municipality_id", PInt(u.municipalityId.value))] else [])
    else if u.role == "municipal_admin" && IdSet(u.municipalityId) then [("municipality_id", PInt(u.municipalityId.value))]
    else if u.role == "super_admin" && IdSet(u.districtId) then [("district_id", PInt(u.districtId.value))]
    else []
  }

  /** The pending-reports fetch: always reviewed=false, and the department for a department admin who has one. */
  function PendingParams(u: User): (p: Params)
    ensures |p| >= 1 && p[0] == ("reviewed", PBool(false))
    ensures |p| == 2 <==> u.role == "department_admin" && StrSet(u.department)
    ensures |p| == 2 ==> p[1] == ("department", PStr(u.department.value))
    ensures |p| <= 2
  {
    [("reviewed", PBool(false))]
    + (if u.role == "department_admin" && StrSet(u.department) then [("department", PStr(u.department.value))] else [])
  }

  /** The refresh after a report, as written: reviewed=false and nothing else. */
  function RefreshParamsAsWritten(u: User): (p: Params)
    ensures p == [("reviewed", PBool(false))]
  {
    [("reviewed", PBool(false))]
  }

  /** For a department admin with a department, the refresh loses the department filter of the first fetch. */
  lemma RefreshDropsDepartment(u: User)
    requires u.role == "department_admin" && StrSet(u.department)
    ensures RefreshParamsAsWritten(u) != PendingParams(u)
    ensures !exists i :: 0 <= i < |RefreshParamsAsWritten(u)| && RefreshParamsAsWritten(u)[i].0 == "department"
  {
    assert |PendingParams(u)| == 2;
  }

  /** Only one role ever sends a department with the pending fetch, so for every other role the refresh asks the same. */
  lemma RefreshDiffersOnlyForDepartmentAdmins(u: User)
    ensures RefreshParamsAsWritten(u) == PendingParams(u) <==> !(u.role == "department_admin" && StrSet(u.department))
  {
  }

  /** The refresh after a report, corrected: the pending reports the component fetched first, for every role. */
  function RefreshParams(u: User): (p: Params)
    ensures |p| >= 1 && p[0] == ("reviewed", PBool(false))
    ensures (exists i :: 0 <= i < |p| && p[i].0 == "department") <==> u.role == "department_admin" && StrSet(u.department)
  {
    PendingParams(u)
  }

  /** Which refresh the report handler sends: the one written, or the corrected one. */
  datatype Refresh = AsWritten | Corrected

  function RefreshFor(v: Refresh, u: User): (p: Params)
    ensures v.AsWritten? ==> p == RefreshParamsAsWritten(u)
    ensures v.Corrected? ==> p == PendingParams(u)
  {
    match v
    case AsWritten => RefreshParamsAsWritten(u)
    case Corrected => RefreshParams(u)
  }

  // ---------------------------------------------------------------------
  // The report payload and the search
  // ---------------------------------------------------------------------

  /** A correction is sent when chosen and different from the complaint's current value. */
  function Correction(chosen: string, current: Option<string>): (r: Option<string>)
    ensures r.Some? <==> chosen != "" && current != Some(chosen)
    ensures r.Some? ==> r.value == chosen
  {
    if chosen != "" && current != Some(chosen) then Some(chosen) else None
  }

  function BuildPayload(c: ComplaintRow, correctDepartment: string, correctUrgency: string): (p: Payload)
    ensures p.complaintId == c.id
    ensures p.correctDepartment == Correction(correctDepartment, c.department)
    ensures p.correctUrgency == Correction(correctUrgency, c.urgency)
  {
    Payload(c.id, Correction(correctDepartment, c.department), Correction(correctUrgency, c.urgency))
  }

  /** A payload never asks to move a complaint to where it already is, and it is empty exactly when nothing changes. */
  lemma PayloadOnlyRealCorrections(c: ComplaintRow, dept: string, urg: string)
    ensures var p := BuildPayload(c, dept, urg);
      && (p.correctDepartment.Some? ==> Some(p.correctDepartment.value) != c.department)
      && (p.correctUrgency.Some? ==> Some(p.correctUrgency.value) != c.urgency)
      && (p.correctDepartment.None? && p.correctUrgency.None? <==>
            (dept == "" || c.department == Some(dept)) && (urg == "" || c.urgency == Some(urg)))
  {
  }

  /** `x?.toLowerCase().includes(term.toLowerCase())` */
  predicate FieldMatches(x: Option<string>, term: string)
  {
    x.Some? && Text.ContainsIgnoringCase(x.value, term)
  }

  predicate Matches(c: ComplaintRow, term: string)
  {
    FieldMatches(c.message, term) || FieldMatches(c.department, term)
  }

  /** The complaints the search keeps, in order. */
  function Search(cs: seq<ComplaintRow>, term: string): (r: seq<ComplaintRow>)
    ensures |r| <= |cs|
    ensures forall c :: c in r <==> c in cs && Matches(c, term)
  {
    if cs == [] then [] else (if Matches(cs[0], term) then [cs[0]] else []) + Search(cs[1..], term)
  }

  /** The search ignores the case of the term: typing it in upper or lower case finds the same complaints. */
  lemma SearchIgnoresCase(cs: seq<ComplaintRow>, term: string)
    ensures Search(cs, Text.Lower(term)) == Search(cs, term)
  {
    Text.LowerIdempotent(term);
    SearchSameMatches(cs, Text.Lower(term), term);
  }

  lemma {:induction false} SearchSameMatches(cs: seq<ComplaintRow>, t1: string, t2: string)
    requires Text.Lower(t1) == Text.Lower(t2)
    ensures Search(cs, t1) == Search(cs, t2)
  {
    if cs != [] {
      SearchSameMatches(cs[1..], t1, t2);
    }
  }

  /** An empty search keeps every complaint with a message or a department, and drops one with neither. */
  lemma EmptySearch(c: ComplaintRow)
    ensures Matches(c, "") <==> c.message.Some? || c.department.Some?
  {
    if c.message.Some? {
      Text.ContainsEmpty(c.message.value);
    }
    if c.department.Some? {
      Text.ContainsEmpty(c.department.value);
    }
  }

  // ---------------------------------------------------------------------
  // The component's state and handlers
  // ---------------------------------------------------------------------

  /** The alerts the component shows; AlertText gives each one's text. */
  datatype Alert = NoCorrection | Reported | ReportFailed(detail: Option<string>) | Deleted | DeleteFailed(detail: Option<string>)

  /** A failure shows the server's detail when it has a non-empty one, else a fixed message. */
  function AlertText(a: Alert): string
  {
    match a
    case NoCorrection => "Please select at least one correction that differs from the current classification."
    case Reported => "Misclassification reported successfully!"
    case ReportFailed(d) => if StrSet(d) then d.value else "Failed to report misclassification"
    case Deleted => "Report deleted successfully"
    case DeleteFailed(d) => if StrSet(d) then d.value else "Failed to delete report"
  }

  /** The reports with the given id removed. */
  function WithoutReport(rs: seq<Report>, id: int): (r: seq<Report>)
    ensures |r| <= |rs|
    ensures forall x :: x in r <==> x in rs && x.id != id
  {
    if rs == [] then [] else (if rs[0].id == id then [] else [rs[0]]) + WithoutReport(rs[1..], id)
  }

  /** Deleting removes only that id: the other reports stay, in their order. */
  lemma {:induction false} WithoutKeepsOthers(rs: seq<Report>, id: int)
    requires forall i :: 0 <= i < |rs| ==> rs[i].id != id
    ensures WithoutReport(rs, id) == rs
  {
    if rs != [] {
      WithoutKeepsOthers(rs[1..], id);
    }
  }

  /** What the server answers a request: ok, or an error with an optional detail. */
  datatype Answer = Ok | Failed(detail: Option<string>)

  class Manager {
    const user: User
    var complaints: seq<ComplaintRow>
    var reports: seq<Report>
    var searchTerm: string
    var selected: Option<ComplaintRow>
    var showReportModal: bool
    var correctDepartment: string
    var correctUrgency: string
    /** Every request sent and every alert shown, oldest first. */
    var requests: seq<Request>
    var alerts: seq<Alert>

    constructor(u: User)
      ensures user == u && complaints == [] && reports == [] && searchTerm == "" && selected.None?
      ensures !showReportModal && correctDepartment == "" && correctUrgency == ""
      ensures requests == [GetComplaints(ComplaintParams(u)), GetPending(PendingParams(u))]
      ensures alerts == []
    {
      user := u;
      complaints := [];
      reports := [];
      searchTerm := "";
      selected := None;
      showReportModal := false;
      correctDepartment := "";
      correctUrgency := "";
      requests := [GetComplaints(ComplaintParams(u)), GetPending(PendingParams(u))];
      alerts := [];
    }

    /** The complaints the list shows under the current search. */
    function Shown(): seq<ComplaintRow>
      reads this
    {
      Search(complaints, searchTerm)
    }

    /**
     * handleReportMisclassification: nothing without a selection; an alert
     * and no request when neither correction differs; otherwise the
     * payload is posted and, on success, the dialog is reset and the
     * pending reports are fetched again: as written with reviewed=false
     * only, dropping the department (RefreshDropsDepartment); corrected with
     * the parameters of the first fetch.
     */
    method ReportMisclassification(v: Refresh, answer: Answer, refreshed: Option<seq<Report>>)
      modifies this
      ensures old(selected).None? ==>
        && requests == old(requests) && alerts == old(alerts) && selected == old(selected) && reports == old(reports)
        && showReportModal == old(showReportModal) && correctDepartment == old(correctDepartment) && correctUrgency == old(correctUrgency)
      ensures old(selected).Some? ==>
        var p := BuildPayload(old(selected).value, old(correctDepartment), old(correctUrgency));
        && (p.correctDepartment.None? && p.correctUrgency.None? ==>
              && requests == old(requests) && alerts == old(alerts) + [NoCorrection]
              && selected == old(selected) && reports == old(reports) && showReportModal == old(showReportModal)
              && correctDepartment == old(correctDepartment) && correctUrgency == old(correctUrgency))
        && (p.correctDepartment.Some? || p.correctUrgency.Some? ==>
              && |requests| > |old(requests)| && requests[..|old(requests)| + 1] == old(requests) + [PostReport(user.id, p)]
              && (answer.Ok? ==>
                    && requests == old(requests) + [PostReport(user.id, p), GetPending(RefreshFor(v, user))]
                    && alerts == old(alerts) + [Reported] && selected.None? && !showReportModal
                    && correctDepartment == "" && correctUrgency == ""
                    && reports == (if refreshed.Some? then refreshed.value else old(reports)))
              && (answer.Failed? ==>
                    && requests == old(requests) + [PostReport(user.id, p)]
                    && alerts == old(alerts) + [ReportFailed(answer.detail)]
                    && selected == old(selected) && reports == old(reports) && showReportModal == old(showReportModal)
                    && correctDepartment == old(correctDepartment) && correctUrgency == old(correctUrgency)))
      ensures complaints == old(complaints) && searchTerm == old(searchTerm)
    {
      if selected.None? {
        return;
      }
      var p := BuildPayload(selected.value, correctDepartment, correctUrgency);
      if p.correctDepartment.None? && p.correctUrgency.None? {
        alerts := alerts + [NoCorrection];
        return;
      }
      requests := requests + [PostReport(user.id, p)];
      if answer.Ok? {
        alerts := alerts + [Reported];
        showReportModal := false;
        selected := None;
        correctDepartment := "";
        correctUrgency := "";
        requests := requests + [GetPending(RefreshFor(v, user))];
        if refreshed.Some? {
          reports := refreshed.value;
        }
      } else {
        alerts := alerts + [ReportFailed(answer.detail)];
      }
    }

    /** handleDeleteReport: nothing unless confirmed; on success only that report leaves the list. */
    method HandleDeleteReport(reportId: int, confirmed: bool, answer: Answer)
      modifies this
      ensures !confirmed ==> requests == old(requests) && alerts == old(alerts) && reports == old(reports)
      ensures confirmed ==> requests == old(requests) + [DeleteReport(reportId, user.id)]
      ensures confirmed && answer.Ok? ==> reports == WithoutReport(old(reports), reportId) && alerts == old(alerts) + [Deleted]
      ensures confirmed && answer.Failed? ==>
        reports == old(reports) && alerts == old(alerts) + [DeleteFailed(answer.detail)]
      ensures complaints == old(complaints) && selected == old(selected) && searchTerm == old(searchTerm)
      ensures showReportModal == old(showReportModal)
      ensures correctDepartment == old(correctDepartment) && correctUrgency == old(correctUrgency)
    {
      if !confirmed {
        return;
      }
      requests := requests + [DeleteReport(reportId, user.id)];
      if answer.Ok? {
        alerts := alerts + [Deleted];
        reports := WithoutReport(reports, reportId);
      } else {
        alerts := alerts + [DeleteFailed(answer.detail)];
      }
    }
  }

  /** The URL of a request (the query parameters of a GET go separately). */
  function Path(r: Request): string
  {
    match r
    case GetComplaints(_) => "/api/complaints/"
    case GetPending(_) => "/api/misclassifications/"
    case PostReport(reporter, _) => "/api/misclassifications/?reported_by_admin_id=" + Text.IntText(reporter)
    case DeleteReport(id, reporter) => "/api/misclassifications/" + Text.IntText(id) + "?reported_by_admin_id=" + Text.IntText(reporter)
  }
}
