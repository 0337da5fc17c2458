/**
 * The location endpoints of the backend: resolving district, municipality
 * and ward names to ids against the bundled location-id file, and the
 * district, municipality and ward tables, whose deletes are soft and whose
 * lists filter by the active flag and an optional parent id before paging.
 */
module Locations {
  import opened Wrappers
  import Text

  // ---------------------------------------------------------------------
  // get_location_ids
  // ---------------------------------------------------------------------

  /** One entry of the location-id file. */
  datatype LocationEntry = LocationEntry(
    district: string, municipality: string, ward: int,
    districtId: int, municipalityId: int, wardId: int)

  /** normalize(): strip, then lower-case. */
  function Normalize(s: string): string
  {
    Text.Lower(Text.PyStrip(s))
  }

  /** A text parameter is truthy when given and non-empty. */
  predicate Given(p: Option<string>)
  {
    p.Some? && p.value != ""
  }

  /** A ward parameter is truthy when given and non-zero. */
  predicate GivenWard(w: Option<int>)
  {
    w.Some? && w.value != 0
  }

  /**
   * The entry passes every filter that applies: a name filter applies when
   * its normalised parameter is non-empty and compares normalised names;
   * the ward filter applies when the ward is non-zero and compares exactly.
   */
  predicate Keeps(e: LocationEntry, district: Option<string>, municipality: Option<string>, ward: Option<int>)
  {
    && (district.Some? && Normalize(district.value) != "" ==> Normalize(e.district) == Normalize(district.value))
    && (municipality.Some? && Normalize(municipality.value) != "" ==>
          Normalize(e.municipality) == Normalize(municipality.value))
    && (GivenWard(ward) ==> e.ward == ward.value)
  }

  /** The entries that pass a filter, in file order. */
  function Matching(data: seq<LocationEntry>, keep: LocationEntry -> bool): seq<LocationEntry>
  {
    if data == [] then []
    else
      var rest := Matching(data[..|data| - 1], keep);
      if keep(data[|data| - 1]) then rest + [data[|data| - 1]] else rest
  }

  predicate FirstMatchAt(data: seq<LocationEntry>, keep: LocationEntry -> bool, i: int)
  {
    0 <= i < |data| && keep(data[i]) && forall j :: 0 <= j < i ==> !keep(data[j])
  }

  /** Nothing matches exactly when no entry passes the filter. */
  lemma {:induction false} MatchingEmpty(data: seq<LocationEntry>, keep: LocationEntry -> bool)
    ensures Matching(data, keep) == [] <==> forall i :: 0 <= i < |data| ==> !keep(data[i])
  {
    if data != [] {
      var init := data[..|data| - 1];
      MatchingEmpty(init, keep);
      assert forall i :: 0 <= i < |init| ==> init[i] == data[i];
    }
  }

  /** The first match is the first entry that passes the filter. */
  lemma {:induction false} MatchingFirst(data: seq<LocationEntry>, keep: LocationEntry -> bool)
    requires Matching(data, keep) != []
    ensures exists i :: FirstMatchAt(data, keep, i) && Matching(data, keep)[0] == data[i]
  {
    var init := data[..|data| - 1];
    var rest := Matching(init, keep);
    assert forall i :: 0 <= i < |init| ==> init[i] == data[i];
    if rest != [] {
      MatchingFirst(init, keep);
      var i :| FirstMatchAt(init, keep, i) && rest[0] == init[i];
      assert FirstMatchAt(data, keep, i);
    } else {
      MatchingEmpty(init, keep);
      assert FirstMatchAt(data, keep, |data| - 1);
    }
  }

  /** The ids returned: one key per truthy parameter, as the parameters were given (before normalising). */
  datatype LocationIds = LocationIds(districtId: Option<int>, municipalityId: Option<int>, wardId: Option<int>)

  function IdsOf(e: LocationEntry, district: Option<string>, municipality: Option<string>, ward: Option<int>)
    : (r: LocationIds)
    ensures r.districtId.Some? <==> Given(district)
    ensures r.municipalityId.Some? <==> Given(municipality)
    ensures r.wardId.Some? <==> GivenWard(ward)
  {
    LocationIds(
      if Given(district) then Some(e.districtId) else None,
      if Given(municipality) then Some(e.municipalityId) else None,
      if GivenWard(ward) then Some(e.wardId) else None)
  }

  /** HTTP 404 "No matching location found". */
  datatype NotFound = NotFound

  /**
   * get_location_ids: the ids of the first entry that passes the filters,
   * or 404 when none does. A blank name ("  ") filters nothing yet, being
   * truthy as given, still puts its id in the answer.
   */
  method GetLocationIds(data: seq<LocationEntry>, district: Option<string>, municipality: Option<string>,
                        ward: Option<int>) returns (r: Result<LocationIds, NotFound>)
    ensures r.Err? <==> forall i :: 0 <= i < |data| ==> !Keeps(data[i], district, municipality, ward)
    ensures r.Ok? ==> exists i ::
      && FirstMatchAt(data, e => Keeps(e, district, municipality, ward), i)
      && r.value == IdsOf(data[i], district, municipality, ward)
  {
    var keep := e => Keeps(e, district, municipality, ward);
    var matches: seq<LocationEntry> := [];
    for k := 0 to |data|
      invariant matches == Matching(data[..k], keep)
    {
      assert data[..k + 1][..k] == data[..k];
      if Keeps(data[k], district, municipality, ward) {
        matches := matches + [data[k]];
      }
    }
    assert data[..|data|] == data;
    MatchingEmpty(data, keep);
    if matches == [] {
      return Err(NotFound);
    }
    MatchingFirst(data, keep);
    r := Ok(IdsOf(matches[0], district, municipality, ward));
  }

  /** A blank district name filters nothing but still yields the first entry's district id. */
  lemma BlankDistrictStillAnswered(data: seq<LocationEntry>)
    requires |data| > 0
    ensures Keeps(data[0], Some("  "), None, None)
    ensures IdsOf(data[0], Some("  "), None, None) == LocationIds(Some(data[0].districtId), None, None)
  {
    assert Text.PyStrip("  ") == "" by {
      Text.TrimEmptyIffAllSpace("  ", Text.IsPySpace);
    }
  }

  // ---------------------------------------------------------------------
  // The district, municipality and ward tables
  // ---------------------------------------------------------------------

  /** A row of a location table: its id, its payload (a name, or a ward number), its parent's id, and the active flag. */
  datatype Row<T> = Row(id: int, value: T, parent: Option<int>, isActive: bool)

  predicate UniqueIds<T>(rows: seq<Row<T>>)
  {
    forall i, j :: 0 <= i < j < |rows| ==> rows[i].id != rows[j].id
  }

  /** `.filter(X.id == id).first()`. */
  function FindIndex<T>(rows: seq<Row<T>>, id: int): (r: Option<nat>)
    ensures r.Some? ==> r.value < |rows| && rows[r.value].id == id
    ensures r.None? <==> forall i :: 0 <= i < |rows| ==> rows[i].id != id
  {
    if rows == [] then None
    else if rows[0].id == id then Some(0)
    else
      var r := FindIndex(rows[1..], id);
      if r.Some? then Some(r.value + 1) else None
  }

  /** Rows whose active flag is `isActive`, and, when the parent filter is truthy, whose parent is it. */
  predicate Listed<T>(r: Row<T>, parent: Option<int>, isActive: bool)
  {
    r.isActive == isActive && (parent.Some? && parent.value != 0 ==> r.parent == parent)
  }

  function Filter<T>(rows: seq<Row<T>>, parent: Option<int>, isActive: bool): (r: seq<Row<T>>)
    ensures forall x :: x in r ==> x in rows && Listed(x, parent, isActive)
    ensures forall x :: x in rows && Listed(x, parent, isActive) ==> x in r
  {
    if rows == [] then []
    else (if Listed(rows[0], parent, isActive) then [rows[0]] else []) + Filter(rows[1..], parent, isActive)
  }

  /** The filter keeps table order: the matches of a table's front come before those of its back. */
  lemma {:induction false} FilterKeepsOrder<T>(front: seq<Row<T>>, back: seq<Row<T>>, parent: Option<int>, isActive: bool)
    ensures Filter(front + back, parent, isActive) == Filter(front, parent, isActive) + Filter(back, parent, isActive)
  {
    if front == [] {
      assert front + back == back;
    } else {
      var ab := front + back;
      var head := if Listed(front[0], parent, isActive) then [front[0]] else [];
      assert ab[0] == front[0] && ab[1..] == front[1..] + back;
      FilterKeepsOrder(front[1..], back, parent, isActive);
      calc {
        Filter(ab, parent, isActive);
        head + Filter(front[1..] + back, parent, isActive);
        head + (Filter(front[1..], parent, isActive) + Filter(back, parent, isActive));
        (head + Filter(front[1..], parent, isActive)) + Filter(back, parent, isActive);
      }
    }
  }

  /** `.offset(skip).limit(limit)`. */
  function Window<T>(rows: seq<T>, skip: nat, limit: nat): (r: seq<T>)
    ensures |r| <= limit
    ensures skip <= |rows| ==> r == rows[skip..][..if limit < |rows| - skip then limit else |rows| - skip]
    ensures skip >= |rows| ==> r == []
  {
    if skip >= |rows| then []
    else if limit < |rows| - skip then rows[skip..skip + limit]
    else rows[skip..]
  }

  /** read_districts, read_municipalities, read_wards: filter, then page. */
  function List<T>(rows: seq<Row<T>>, parent: Option<int>, skip: nat, limit: nat, isActive: bool): seq<Row<T>>
  {
    Window(Filter(rows, parent, isActive), skip, limit)
  }

  /** A page holds at most `limit` rows, each from the table and passing the filters; a parent id of 0 filters nothing. */
  lemma ListRules<T>(rows: seq<Row<T>>, parent: Option<int>, skip: nat, limit: nat, isActive: bool)
    ensures |List(rows, parent, skip, limit, isActive)| <= limit
    ensures forall x :: x in List(rows, parent, skip, limit, isActive) ==> x in rows && Listed(x, parent, isActive)
    ensures List(rows, Some(0), skip, limit, isActive) == List(rows, None, skip, limit, isActive)
  {
    var f := Filter(rows, parent, isActive);
    var w := Window(f, skip, limit);
    forall x | x in w
      ensures x in f
    {
      var k :| 0 <= k < |w| && w[k] == x;
      assert w[k] == f[skip + k];
    }
    FilterZeroParent(rows, isActive);
  }

  lemma {:induction false} FilterZeroParent<T>(rows: seq<Row<T>>, isActive: bool)
    ensures Filter(rows, Some(0), isActive) == Filter(rows, None, isActive)
  {
    if rows != [] {
      FilterZeroParent(rows[1..], isActive);
    }
  }

  /** The table after a soft delete of `id`: the row keeps its place and its fields, only its flag is cleared. */
  function SoftDeleted<T>(rows: seq<Row<T>>, id: int): seq<Row<T>>
  {
    var i := FindIndex(rows, id);
    if i.None? then rows else rows[i.value := rows[i.value].(isActive := false)]
  }

  /** A soft-deleted row leaves the active lists and appears in the inactive ones; no row is removed. */
  lemma SoftDeleteRules<T>(rows: seq<Row<T>>, id: int, parent: Option<int>)
    requires UniqueIds(rows)
    requires FindIndex(rows, id).Some?
    ensures |SoftDeleted(rows, id)| == |rows|
    ensures forall x :: x in Filter(SoftDeleted(rows, id), parent, true) ==> x.id != id
    ensures var i := FindIndex(rows, id).value;
      Listed(rows[i], parent, true) ==> rows[i].(isActive := false) in Filter(SoftDeleted(rows, id), parent, false)
  {
    var i := FindIndex(rows, id).value;
    var d := SoftDeleted(rows, id);
    forall x | x in Filter(d, parent, true)
      ensures x.id != id
    {
      var k :| 0 <= k < |d| && d[k] == x;
      if k != i {
        assert rows[k].id != rows[i].id;
      }
    }
  }

  /** A table the handlers operate on; ids are unique. */
  class LocationTable<T> {
    var rows: seq<Row<T>>

    ghost predicate Valid()
      reads this
    {
      UniqueIds(rows)
    }

    constructor (initial: seq<Row<T>>)
      requires UniqueIds(initial)
      ensures Valid() && rows == initial
    {
      rows := initial;
    }

    /** read_district and friends: the row, or 404. */
    method Read(id: int) returns (r: Result<Row<T>, NotFound>)
      ensures r.Err? <==> forall i :: 0 <= i < |rows| ==> rows[i].id != id
      ensures r.Ok? ==> r.value in rows && r.value.id == id
    {
      var i := FindIndex(rows, id);
      if i.None? {
        return Err(NotFound);
      }
      r := Ok(rows[i.value]);
    }

    /** update_*: the row's payload and parent are replaced; 404 when absent. */
    method Update(id: int, value: T, parent: Option<int>) returns (r: Result<Row<T>, NotFound>)
      requires Valid()
      modifies this
      ensures Valid()
      ensures r.Err? <==> FindIndex(old(rows), id).None?
      ensures r.Err? ==> rows == old(rows)
      ensures r.Ok? ==>
        var i := FindIndex(old(rows), id).value;
        && rows == old(rows)[i := Row(id, value, parent, old(rows)[i].isActive)]
        && r.value == rows[i]
    {
      var i := FindIndex(rows, id);
      if i.None? {
        return Err(NotFound);
      }
      var row := rows[i.value].(value := value, parent := parent);
      rows := rows[i.value := row];
      r := Ok(row);
    }

    /** delete_*: a soft delete, which only clears the row's active flag; 404 when absent. */
    method Delete(id: int) returns (r: Result<Row<T>, NotFound>)
      requires Valid()
      modifies this
      ensures Valid()
      ensures r.Err? <==> FindIndex(old(rows), id).None?
      ensures rows == SoftDeleted(old(rows), id)
      ensures r.Ok? ==> r.value == rows[FindIndex(old(rows), id).value] && !r.value.isActive && r.value.id == id
    {
      var i := FindIndex(rows, id);
      if i.None? {
        return Err(NotFound);
      }
      var row := rows[i.value].(isActive := false);
      rows := rows[i.value := row];
      r := Ok(row);
    }
  }
}
