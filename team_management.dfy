/**
 * The admin team view: which admins it lists for the viewer's role and
 * selection, the search and department or municipality filter, the
 * grouping under the four departments with its count of active ones, and
 * the handlers that move between municipal and department admins and
 * load an admin's stats once, and the requests the view sends when it is
 * mounted.
 *
 * Each response enters as a parameter and is applied at once.
 */
module TeamManagement {
  import opened Wrappers
  import Text

  const DEPARTMENTS: seq<string> := [
    "Municipal Governance & Community Services",
    "Education, Health & Social Welfare",
    "Infrastructure, Utilities & Natural Resources",
    "Security & Law Enforcement"
  ]

  datatype Admin = Admin(id: int, name: Option<string>, email: Option<string>, department: Option<string>,
                         municipalityId: Option<int>)

  /** An analytics summary; only whether one is cached matters here. */
  datatype Summary = Summary(total: int)

  datatype Param = Department(d: string) | MunicipalityId(m: int) | DistrictId(di: int) | RoleParam(r: string)

  datatype Request =
    | GetAdmins(params: seq<Param>)
    | GetSummary(params: seq<Param>)
    | GetMunicipalities(districtId: int)

  /** The signed-in admin the view is given: the role and the two location ids. */
  datatype Viewer = Viewer(role: string, districtId: Option<int>, municipalityId: Option<int>)

  datatype Municipality = Municipality(id: int, name: string)

  /** A number is truthy unless missing or 0. */
  predicate IdSet(x: Option<int>) { x.Some? && x.value != 0 }

  /**
   * The mount effect: nothing without a user; a super admin asks for the
   * municipal admins of the district and, when the district is set, its
   * municipalities; a municipal admin with a municipality asks for its
   * department admins; anyone else asks nothing.
   */
  function MountRequests(u: Option<Viewer>): (r: seq<Request>)
    ensures u.None? ==> r == []
    ensures u.Some? && u.value.role == "super_admin" ==>
      && 1 <= |r| <= 2
      && r[0] == GetAdmins((if u.value.districtId.Some? then [DistrictId(u.value.districtId.value)] else []) + [RoleParam("municipal_admin")])
      && (|r| == 2 <==> IdSet(u.value.districtId))
      && (|r| == 2 ==> r[1] == GetMunicipalities(u.value.districtId.value))
    ensures u.Some? && u.value.role == "municipal_admin" ==>
      r == if IdSet(u.value.municipalityId)
           then [GetAdmins([MunicipalityId(u.value.municipalityId.value), RoleParam("department_admin")])] else []
    ensures u.Some? && u.value.role != "super_admin" && u.value.role != "municipal_admin" ==> r == []
  {
    if u.None? then []
    else if u.value.role == "super_admin" then
      [GetAdmins((if u.value.districtId.Some? then [DistrictId(u.value.districtId.value)] else []) + [RoleParam("municipal_admin")])]
      + (if IdSet(u.value.districtId) then [GetMunicipalities(u.value.districtId.value)] else [])
    else if u.value.role == "municipal_admin" && IdSet(u.value.municipalityId) then
      [GetAdmins([MunicipalityId(u.value.municipalityId.value), RoleParam("department_admin")])]
    else []
  }

  // ---------------------------------------------------------------------
  // Filtering and grouping
  // ---------------------------------------------------------------------

  /** The name or the e-mail contains the search term, ignoring case. */
  predicate MatchesSearch(a: Admin, term: string)
  {
    (a.name.Some? && Text.ContainsIgnoringCase(a.name.value, term))
    || (a.email.Some? && Text.ContainsIgnoringCase(a.email.value, term))
  }

  /** "all", or the municipality id equal to parseInt of the chosen value (NaN equals nothing). */
  predicate MatchesMunicipality(a: Admin, filter: string)
  {
    filter == "all" || (a.municipalityId.Some? && Text.JsParseInt(filter) == Some(a.municipalityId.value))
  }

  predicate MatchesDepartment(a: Admin, filter: string)
  {
    filter == "all" || a.department == Some(filter)
  }

  /**
   * The filter of the list: a super admin looking at municipal admins
   * filters by municipality, everyone else by department; both with the
   * search.
   */
  predicate Keep(a: Admin, term: string, byMunicipality: bool, filterMunicipality: string, filterDepartment: string)
  {
    MatchesSearch(a, term)
    && (if byMunicipality then MatchesMunicipality(a, filterMunicipality) else MatchesDepartment(a, filterDepartment))
  }

  function Filter(as_: seq<Admin>, term: string, byMunicipality: bool, fm: string, fd: string): (r: seq<Admin>)
    ensures |r| <= |as_|
    ensures forall a :: a in r <==> a in as_ && Keep(a, term, byMunicipality, fm, fd)
  {
    if as_ == [] then []
    else (if Keep(as_[0], term, byMunicipality, fm, fd) then [as_[0]] else []) + Filter(as_[1..], term, byMunicipality, fm, fd)
  }

  /** With an empty search and "all", every admin with a name or an e-mail is listed. */
  lemma NoFilterKeepsNamed(a: Admin, byMunicipality: bool)
    ensures Keep(a, "", byMunicipality, "all", "all") <==> a.name.Some? || a.email.Some?
  {
    if a.name.Some? {
      Text.ContainsEmpty(a.name.value);
    }
    if a.email.Some? {
      Text.ContainsEmpty(a.email.value);
    }
  }

  /** The admins of one department, in order. */
  function Group(as_: seq<Admin>, dept: string): (r: seq<Admin>)
    ensures |r| <= |as_|
    ensures forall a :: a in r <==> a in as_ && a.department == Some(dept)
  {
    if as_ == [] then [] else (if as_[0].department == Some(dept) then [as_[0]] else []) + Group(as_[1..], dept)
  }

  /** How many of the given departments have at least one admin. */
  function ActiveAmong(as_: seq<Admin>, depts: seq<string>): (n: nat)
    ensures n <= |depts|
  {
    if depts == [] then 0 else (if Group(as_, depts[0]) != [] then 1 else 0) + ActiveAmong(as_, depts[1..])
  }

  /** activeDepartments: the number of the four departments with at least one listed admin. */
  function ActiveDepartments(as_: seq<Admin>): (n: nat)
  {
    ActiveAmong(as_, DEPARTMENTS)
  }

  /** A department counts exactly when some admin is in it; so no admins means none active, and at most four are. */
  lemma {:induction false} ActiveAmongExact(as_: seq<Admin>, depts: seq<string>)
    ensures ActiveAmong(as_, depts) == 0 <==> forall i :: 0 <= i < |depts| ==> forall a :: a in as_ ==> a.department != Some(depts[i])
  {
    if depts != [] {
      ActiveAmongExact(as_, depts[1..]);
      if Group(as_, depts[0]) != [] {
        assert Group(as_, depts[0])[0] in Group(as_, depts[0]);
      }
      assert forall i :: 1 <= i < |depts| ==> depts[i] == depts[1..][i - 1];
    }
  }

  lemma ActiveDepartmentsBounds(as_: seq<Admin>)
    ensures ActiveDepartments(as_) <= 4
    ensures ActiveDepartments(as_) == 0 <==> forall a :: a in as_ ==> a.department !in {Some(DEPARTMENTS[0]), Some(DEPARTMENTS[1]), Some(DEPARTMENTS[2]), Some(DEPARTMENTS[3])}
  {
    ActiveAmongExact(as_, DEPARTMENTS);
  }

  /** The groups' sizes added up. */
  function GroupedCount(as_: seq<Admin>, depts: seq<string>): nat
  {
    if depts == [] then 0 else |Group(as_, depts[0])| + GroupedCount(as_, depts[1..])
  }

  /** The admins whose department is among the given ones. */
  function InAny(as_: seq<Admin>, depts: seq<string>): seq<Admin>
  {
    if as_ == [] then [] else (if as_[0].department.Some? && as_[0].department.value in depts then [as_[0]] else []) + InAny(as_[1..], depts)
  }

  /**
   * With distinct departments, the groups together hold exactly the admins
   * of those departments: an admin of some other department is counted in
   * the total but shown in no group.
   */
  lemma {:induction false} GroupsPartition(as_: seq<Admin>, depts: seq<string>)
    requires forall i, j :: 0 <= i < j < |depts| ==> depts[i] != depts[j]
    ensures GroupedCount(as_, depts) == |InAny(as_, depts)|
    decreases |as_|
  {
    if as_ != [] {
      GroupsPartition(as_[1..], depts);
      GroupedCountCons(as_, depts);
      var d := as_[0].department;
      if d.Some? && d.value in depts {
        OnceAmong(d.value, depts);
      } else if d.Some? {
        NotAmong(d.value, depts);
      } else {
        NoDepartmentNoHits(depts);
      }
      assert |InAny(as_, depts)| == (if d.Some? && d.value in depts then 1 else 0) + |InAny(as_[1..], depts)|;
    } else {
      NoAdminsNoGroups(depts);
    }
  }

  lemma {:induction false} NoAdminsNoGroups(depts: seq<string>)
    ensures GroupedCount([], depts) == 0
  {
    if depts != [] {
      NoAdminsNoGroups(depts[1..]);
    }
  }

  lemma {:induction false} GroupedCountCons(as_: seq<Admin>, depts: seq<string>)
    requires as_ != []
    ensures GroupedCount(as_, depts) == Hits(as_[0].department, depts) + GroupedCount(as_[1..], depts)
  {
    if depts != [] {
      GroupedCountCons(as_, depts[1..]);
    }
  }

  /** How many of the departments equal the given one. */
  function Hits(d: Option<string>, depts: seq<string>): nat
  {
    if depts == [] then 0 else (if d == Some(depts[0]) then 1 else 0) + Hits(d, depts[1..])
  }

  lemma {:induction false} OnceAmong(d: string, depts: seq<string>)
    requires forall i, j :: 0 <= i < j < |depts| ==> depts[i] != depts[j]
    requires d in depts
    ensures Hits(Some(d), depts) == 1
  {
    if depts[0] == d {
      assert d !in depts[1..];
      NotAmong(d, depts[1..]);
    } else {
      OnceAmong(d, depts[1..]);
    }
  }

  lemma {:induction false} NotAmong(d: string, depts: seq<string>)
    requires d !in depts
    ensures Hits(Some(d), depts) == 0
  {
    if depts != [] {
      NotAmong(d, depts[1..]);
    }
  }

  lemma {:induction false} NoDepartmentNoHits(depts: seq<string>)
    ensures Hits(None, depts) == 0
  {
    if depts != [] {
      NoDepartmentNoHits(depts[1..]);
    }
  }

  /** The four department groups hold every listed admin of those departments, and no one else. */
  lemma FourGroupsPartition(as_: seq<Admin>)
    ensures GroupedCount(as_, DEPARTMENTS) == |InAny(as_, DEPARTMENTS)| <= |as_|
  {
    GroupsPartition(as_, DEPARTMENTS);
    InAnyShorter(as_, DEPARTMENTS);
  }

  lemma {:induction false} InAnyShorter(as_: seq<Admin>, depts: seq<string>)
    ensures |InAny(as_, depts)| <= |as_|
  {
    if as_ != [] {
      InAnyShorter(as_[1..], depts);
    }
  }

  // ---------------------------------------------------------------------
  // The component's state and handlers
  // ---------------------------------------------------------------------

  class Team {
    const isSuperAdmin: bool
    const isMunicipalAdmin: bool
    var admins: seq<Admin>
    var departmentAdmins: seq<Admin>
    var selectedMunicipalAdmin: Option<Admin>
    var selectedAdmin: Option<Admin>
    /** The stats loaded per admin id (None for a response without data), and which are loading. */
    var adminStats: map<int, Option<Summary>>
    var statsLoading: map<int, bool>
    var searchTerm: string
    var filterDepartment: string
    var filterMunicipality: string
    var municipalities: seq<Municipality>
    var requests: seq<Request>

    /** The view mounted for `u`: the initial state, and the requests of the mount effect. */
    constructor(u: Option<Viewer>)
      ensures isSuperAdmin == (u.Some? && u.value.role == "super_admin")
      ensures isMunicipalAdmin == (u.Some? && u.value.role == "municipal_admin")
      ensures admins == [] && departmentAdmins == [] && selectedMunicipalAdmin.None? && selectedAdmin.None?
      ensures adminStats == map[] && statsLoading == map[] && municipalities == []
      ensures searchTerm == "" && filterDepartment == "all" && filterMunicipality == "all"
      ensures requests == MountRequests(u)
    {
      isSuperAdmin := u.Some? && u.value.role == "super_admin";
      isMunicipalAdmin := u.Some? && u.value.role == "municipal_admin";
      admins := [];
      departmentAdmins := [];
      selectedMunicipalAdmin := None;
      selectedAdmin := None;
      adminStats := map[];
      statsLoading := map[];
      searchTerm := "";
      filterDepartment := "all";
      filterMunicipality := "all";
      municipalities := [];
      requests := MountRequests(u);
    }

    /** The answer to the mount's admin list request: the list (`res.data || []`) on success, nothing on an error. */
    method LoadAdmins(answer: Option<seq<Admin>>)
      modifies this
      ensures admins == if answer.Some? then answer.value else old(admins)
      ensures departmentAdmins == old(departmentAdmins) && selectedMunicipalAdmin == old(selectedMunicipalAdmin)
      ensures selectedAdmin == old(selectedAdmin) && adminStats == old(adminStats) && statsLoading == old(statsLoading)
      ensures searchTerm == old(searchTerm) && filterDepartment == old(filterDepartment) && filterMunicipality == old(filterMunicipality)
      ensures municipalities == old(municipalities) && requests == old(requests)
    {
      if answer.Some? {
        admins := answer.value;
      }
    }

    /** The answer to the municipalities request: the list on success, an empty list on an error. */
    method LoadMunicipalities(answer: Option<seq<Municipality>>)
      modifies this
      ensures municipalities == if answer.Some? then answer.value else []
      ensures admins == old(admins) && departmentAdmins == old(departmentAdmins) && selectedMunicipalAdmin == old(selectedMunicipalAdmin)
      ensures selectedAdmin == old(selectedAdmin) && adminStats == old(adminStats) && statsLoading == old(statsLoading)
      ensures searchTerm == old(searchTerm) && filterDepartment == old(filterDepartment) && filterMunicipality == old(filterMunicipality)
      ensures requests == old(requests)
    {
      municipalities := if answer.Some? then answer.value else [];
    }

    /** getDisplayAdmins: a super admin who opened a municipal admin sees that municipality's department admins. */
    function DisplayAdmins(): (r: seq<Admin>)
      reads this
      ensures isSuperAdmin && selectedMunicipalAdmin.Some? ==> r == departmentAdmins
      ensures !(isSuperAdmin && selectedMunicipalAdmin.Some?) ==> r == admins
    {
      if isSuperAdmin && selectedMunicipalAdmin.Some? then departmentAdmins else admins
    }

    /** filteredAdmins: by municipality exactly when a super admin looks at municipal admins. */
    function FilteredAdmins(): (r: seq<Admin>)
      reads this
      ensures forall a :: a in r <==>
        (a in DisplayAdmins() && Keep(a, searchTerm, isSuperAdmin && selectedMunicipalAdmin.None?, filterMunicipality, filterDepartment))
    {
      Filter(DisplayAdmins(), searchTerm, isSuperAdmin && selectedMunicipalAdmin.None?, filterMunicipality, filterDepartment)
    }

    /** fetchDepartmentAdmins: open a municipal admin, drop the selected admin, and list its municipality's department admins. */
    method FetchDepartmentAdmins(m: Admin, answer: Option<seq<Admin>>)
      modifies this
      ensures selectedMunicipalAdmin == Some(m) && selectedAdmin.None?
      ensures requests == old(requests) + [GetAdmins(MunicipalityParam(m.municipalityId) + [RoleParam("department_admin")])]
      ensures departmentAdmins == if answer.Some? then answer.value else old(departmentAdmins)
      ensures admins == old(admins) && adminStats == old(adminStats) && statsLoading == old(statsLoading)
      ensures searchTerm == old(searchTerm) && filterDepartment == old(filterDepartment) && filterMunicipality == old(filterMunicipality)
      ensures municipalities == old(municipalities)
    {
      selectedMunicipalAdmin := Some(m);
      selectedAdmin := None;
      requests := requests + [GetAdmins(MunicipalityParam(m.municipalityId) + [RoleParam("department_admin")])];
      if answer.Some? {
        departmentAdmins := answer.value;
      }
    }

    /** goBackToMunicipalAdmins: close the municipal admin; the list is the municipal admins again. */
    method GoBackToMunicipalAdmins()
      modifies this
      ensures selectedMunicipalAdmin.None? && departmentAdmins == [] && selectedAdmin.None?
      ensures DisplayAdmins() == admins
      ensures admins == old(admins) && adminStats == old(adminStats) && statsLoading == old(statsLoading)
      ensures requests == old(requests) && searchTerm == old(searchTerm)
      ensures filterDepartment == old(filterDepartment) && filterMunicipality == old(filterMunicipality)
      ensures municipalities == old(municipalities)
    {
      selectedMunicipalAdmin := None;
      departmentAdmins := [];
      selectedAdmin := None;
    }

    /** The parameters of the stats request for an admin, by role and selection. */
    function StatsParams(a: Admin): seq<Param>
      reads this
    {
      if isSuperAdmin && selectedMunicipalAdmin.None? then MunicipalityParam(a.municipalityId)
      else if isSuperAdmin || isMunicipalAdmin then DepartmentParam(a.department) + MunicipalityParam(a.municipalityId)
      else []
    }

    /**
     * fetchAdminStats: stats already loaded only select the admin, with no
     * request; otherwise the summary is requested, and on an answer it is
     * cached and the admin selected.
     */
    method FetchAdminStats(a: Admin, answer: Option<Option<Summary>>)
      modifies this
      ensures Cached(old(adminStats), a.id) ==>
        && selectedAdmin == Some(a) && requests == old(requests)
        && adminStats == old(adminStats) && statsLoading == old(statsLoading)
      ensures !Cached(old(adminStats), a.id) ==>
        && requests == old(requests) + [GetSummary(old(StatsParams(a)))]
        && statsLoading == old(statsLoading)[a.id := false]
        && (answer.Some? ==> adminStats == old(adminStats)[a.id := answer.value] && selectedAdmin == Some(a))
        && (answer.None? ==> adminStats == old(adminStats) && selectedAdmin == old(selectedAdmin))
      ensures admins == old(admins) && departmentAdmins == old(departmentAdmins) && selectedMunicipalAdmin == old(selectedMunicipalAdmin)
      ensures searchTerm == old(searchTerm) && filterDepartment == old(filterDepartment) && filterMunicipality == old(filterMunicipality)
      ensures municipalities == old(municipalities)
    {
      if Cached(adminStats, a.id) {
        selectedAdmin := Some(a);
        return;
      }
      statsLoading := statsLoading[a.id := true];
      requests := requests + [GetSummary(StatsParams(a))];
      if answer.Some? {
        adminStats := adminStats[a.id := answer.value];
        selectedAdmin := Some(a);
      }
      statsLoading := statsLoading[a.id := false];
    }
  }

  /** A cached entry counts only when it holds data. */
  predicate Cached(stats: map<int, Option<Summary>>, id: int)
  {
    id in stats && stats[id].Some?
  }

  /** axios leaves out a parameter whose value is null or undefined. */
  function MunicipalityParam(m: Option<int>): seq<Param>
  {
    if m.Some? then [MunicipalityId(m.value)] else []
  }

  function DepartmentParam(d: Option<string>): seq<Param>
  {
    if d.Some? then [Department(d.value)] else []
  }

  /** Once an admin's stats arrive with data, asking again sends nothing more. */
  method StatsLoadedOnce(t: Team, a: Admin, s: Summary)
    modifies t
    ensures |t.requests| <= |old(t.requests)| + 1
    ensures t.selectedAdmin == Some(a)
  {
    t.FetchAdminStats(a, Some(Some(s)));
    var afterFirst := t.requests;
    t.FetchAdminStats(a, None);
    assert t.requests == afterFirst;
  }
}
