/**
 * The misclassification-report endpoints of the backend: an admin reports
 * that a complaint was classified wrongly, lists, deletes and reviews the
 * reports. The misclassified-complaints table is a sequence of records in
 * insertion order; the complaints table is read only.
 *
 * HTTP errors are the status codes the handlers raise; the clock reading
 * stamped by a review is a parameter.
 */
module Misclassification {
  import opened Wrappers

  /** The fields of a complaint the handlers read. */
  datatype Complaint = Complaint(department: Option<string>, urgency: Option<string>)

  datatype Record = Record(
    id: int,
    complaintId: int,
    predictedDepartment: Option<string>,
    predictedUrgency: Option<string>,
    correctDepartment: Option<string>,
    correctUrgency: Option<string>,
    reporter: int,
    reviewed: bool,
    reviewedAt: Option<int>)

  datatype HttpError = NotFound | BadRequest | Forbidden

  function StatusCode(e: HttpError): (code: int)
    ensures code in {404, 400, 403}
  {
    match e
    case NotFound => 404
    case BadRequest => 400
    case Forbidden => 403
  }

  /** Python truthiness of an optional string: neither None nor "". */
  predicate Truthy(s: Option<string>)
  {
    s.Some? && s.value != ""
  }

  /** Some record for the complaint is still waiting for review. */
  predicate HasPending(records: seq<Record>, complaintId: int)
  {
    exists i :: 0 <= i < |records| && records[i].complaintId == complaintId && !records[i].reviewed
  }

  /** The invariant the report endpoint keeps: at most one pending report per complaint. */
  predicate AtMostOnePending(records: seq<Record>)
  {
    forall i, j :: 0 <= i < j < |records| && records[i].complaintId == records[j].complaintId ==>
      records[i].reviewed || records[j].reviewed
  }

  predicate UniqueIds(records: seq<Record>)
  {
    forall i, j :: 0 <= i < j < |records| ==> records[i].id != records[j].id
  }

  // ---------------------------------------------------------------- report

  /**
   * The checks of report_misclassification, in their order: the complaint
   * must exist (404), must have no pending report (400), and at least one
   * correction must be given (400).
   */
  function ReportCheck(complaints: map<int, Complaint>, records: seq<Record>, complaintId: int,
                       correctDepartment: Option<string>, correctUrgency: Option<string>): (r: Option<HttpError>)
    ensures r.None? <==>
      && complaintId in complaints
      && !HasPending(records, complaintId)
      && (Truthy(correctDepartment) || Truthy(correctUrgency))
  {
    if complaintId !in complaints then Some(NotFound)
    else if HasPending(records, complaintId) then Some(BadRequest)
    else if !Truthy(correctDepartment) && !Truthy(correctUrgency) then Some(BadRequest)
    else None
  }

  /** The existence check comes first: a missing complaint is 404 whatever else is wrong. */
  lemma ReportCheckOrder(complaints: map<int, Complaint>, records: seq<Record>, complaintId: int,
                         correctDepartment: Option<string>, correctUrgency: Option<string>)
    ensures complaintId !in complaints ==>
      ReportCheck(complaints, records, complaintId, correctDepartment, correctUrgency) == Some(NotFound)
    ensures complaintId in complaints && HasPending(records, complaintId) ==>
      ReportCheck(complaints, records, complaintId, correctDepartment, correctUrgency) == Some(BadRequest)
    ensures complaintId in complaints && !Truthy(correctDepartment) && !Truthy(correctUrgency) ==>
      ReportCheck(complaints, records, complaintId, correctDepartment, correctUrgency) == Some(BadRequest)
  {
  }

  /** Adding an unreviewed report for a complaint without a pending one keeps at most one pending per complaint. */
  lemma AddKeepsOnePending(records: seq<Record>, rec: Record)
    requires AtMostOnePending(records)
    requires !HasPending(records, rec.complaintId)
    ensures AtMostOnePending(records + [rec])
  {
    var s := records + [rec];
    forall i, j | 0 <= i < j < |s| && s[i].complaintId == s[j].complaintId
      ensures s[i].reviewed || s[j].reviewed
    {
      if j == |records| {
        assert s[i] == records[i] && records[i].complaintId == rec.complaintId;
      } else {
        assert s[i] == records[i] && s[j] == records[j];
      }
    }
  }

  /** A report just filed is pending, so a second report for the same complaint is refused until it is reviewed. */
  lemma SecondReportRefused(complaints: map<int, Complaint>, records: seq<Record>, rec: Record,
                            correctDepartment: Option<string>, correctUrgency: Option<string>)
    requires rec.complaintId in complaints && !rec.reviewed
    ensures ReportCheck(complaints, records + [rec], rec.complaintId, correctDepartment, correctUrgency) == Some(BadRequest)
  {
    assert (records + [rec])[|records|] == rec;
  }

  // ---------------------------------------------------------------- list and get

  /** The filters of list_misclassifications: reviewed when given, and the complaint's department through the join. */
  predicate Listed(complaints: map<int, Complaint>, rec: Record, reviewed: Option<bool>, department: Option<string>)
  {
    && (reviewed.Some? ==> rec.reviewed == reviewed.value)
    && (Truthy(department) ==> rec.complaintId in complaints && complaints[rec.complaintId].department == department)
  }

  function Filter(complaints: map<int, Complaint>, records: seq<Record>, reviewed: Option<bool>, department: Option<string>)
    : (r: seq<Record>)
    ensures |r| <= |records|
  {
    if records == [] then []
    else
      (if Listed(complaints, records[0], reviewed, department) then [records[0]] else [])
        + Filter(complaints, records[1..], reviewed, department)
  }

  /** The filter keeps exactly the matching records. */
  lemma {:induction false} FilterExactly(complaints: map<int, Complaint>, records: seq<Record>,
                                         reviewed: Option<bool>, department: Option<string>)
    ensures forall x :: x in Filter(complaints, records, reviewed, department) <==>
      x in records && Listed(complaints, x, reviewed, department)
  {
    if records != [] {
      FilterExactly(complaints, records[1..], reviewed, department);
      assert forall x :: x in records <==> x == records[0] || x in records[1..];
    }
  }

  /**
   * The filter keeps table order: filtering a table made of two parts
   * lists the matches of the first part before those of the second.
   */
  lemma {:induction false} FilterKeepsOrder(complaints: map<int, Complaint>, front: seq<Record>, back: seq<Record>,
                                            reviewed: Option<bool>, department: Option<string>)
    ensures Filter(complaints, front + back, reviewed, department)
         == Filter(complaints, front, reviewed, department) + Filter(complaints, back, reviewed, department)
  {
    if front == [] {
      assert front + back == back;
    } else {
      var ab := front + back;
      var head := if Listed(complaints, front[0], reviewed, department) then [front[0]] else [];
      assert ab[0] == front[0] && ab[1..] == front[1..] + back;
      FilterKeepsOrder(complaints, front[1..], back, reviewed, department);
      calc {
        Filter(complaints, ab, reviewed, department);
        head + Filter(complaints, front[1..] + back, reviewed, department);
        head + (Filter(complaints, front[1..], reviewed, department) + Filter(complaints, back, reviewed, department));
        (head + Filter(complaints, front[1..], reviewed, department)) + Filter(complaints, back, reviewed, department);
      }
    }
  }

  /** .offset(skip).limit(limit). */
  function Page<T>(s: seq<T>, skip: nat, limit: nat): (r: seq<T>)
    ensures |r| <= limit
    ensures forall x :: x in r ==> x in s
    ensures skip + limit <= |s| ==> r == s[skip..skip + limit]
  {
    var lo := if skip < |s| then skip else |s|;
    var hi := if skip + limit < |s| then skip + limit else |s|;
    s[lo..hi]
  }

  /** list_misclassifications: filter, then offset and limit. */
  function ListMisclassifications(complaints: map<int, Complaint>, records: seq<Record>,
                                  reviewed: Option<bool>, department: Option<string>, skip: nat, limit: nat): (r: seq<Record>)
  {
    Page(Filter(complaints, records, reviewed, department), skip, limit)
  }

  /** Every listed record is in the table and passes the filters, and there are at most `limit`. */
  lemma ListMisclassificationsSound(complaints: map<int, Complaint>, records: seq<Record>,
                                    reviewed: Option<bool>, department: Option<string>, skip: nat, limit: nat)
    ensures var r := ListMisclassifications(complaints, records, reviewed, department, skip, limit);
      && |r| <= limit
      && (forall x :: x in r ==> x in records && Listed(complaints, x, reviewed, department))
  {
    FilterExactly(complaints, records, reviewed, department);
  }

  /** Without filters the first page is the head of the table. */
  lemma UnfilteredFirstPage(complaints: map<int, Complaint>, records: seq<Record>, limit: nat)
    ensures ListMisclassifications(complaints, records, None, None, 0, limit)
         == records[..if limit < |records| then limit else |records|]
  {
    FilterAll(complaints, records);
  }

  /** With no filters the whole table passes, so offset 0 and a large enough limit list every record. */
  lemma {:induction false} UnfilteredListsAll(complaints: map<int, Complaint>, records: seq<Record>, limit: nat)
    requires |records| <= limit
    ensures ListMisclassifications(complaints, records, None, None, 0, limit) == records
  {
    FilterAll(complaints, records);
  }

  lemma {:induction false} FilterAll(complaints: map<int, Complaint>, records: seq<Record>)
    ensures Filter(complaints, records, None, None) == records
  {
    if records != [] {
      FilterAll(complaints, records[1..]);
      assert [records[0]] + records[1..] == records;
    }
  }

  /** get_misclassification and the lookups of delete and review: the first record with the id. */
  function Find(records: seq<Record>, id: int): (r: Option<nat>)
    ensures r.Some? ==> r.value < |records| && records[r.value].id == id
    ensures r.None? <==> forall i :: 0 <= i < |records| ==> records[i].id != id
  {
    if records == [] then None
    else if records[0].id == id then Some(0)
    else
      var rest := Find(records[1..], id);
      if rest.None? then
        assert forall i :: 1 <= i < |records| ==> records[i] == records[1..][i - 1];
        None
      else Some(rest.value + 1)
  }

  // ---------------------------------------------------------------- delete and review

  /** The checks of delete_misclassification, in order: 404, then 403 for another admin, then 400 once reviewed. */
  function DeleteCheck(records: seq<Record>, id: int, caller: int): (r: Option<HttpError>)
  {
    match Find(records, id)
    case None => Some(NotFound)
    case Some(i) =>
      if records[i].reporter != caller then Some(Forbidden)
      else if records[i].reviewed then Some(BadRequest)
      else None
  }

  /** A report can be deleted exactly by its reporter, and only before it is reviewed. */
  lemma DeleteCheckRules(records: seq<Record>, id: int, caller: int)
    requires UniqueIds(records)
    ensures DeleteCheck(records, id, caller) == None <==>
      exists i :: 0 <= i < |records| && records[i].id == id && records[i].reporter == caller && !records[i].reviewed
    ensures DeleteCheck(records, id, caller) == Some(NotFound) <==> forall i :: 0 <= i < |records| ==> records[i].id != id
  {
    if DeleteCheck(records, id, caller) != None {
      forall i | 0 <= i < |records| && records[i].id == id
        ensures records[i].reporter != caller || records[i].reviewed
      {
        var k := Find(records, id).value;
        assert i == k;
      }
    }
  }

  /** The table without the record with the id. */
  function Without(records: seq<Record>, id: int): (r: seq<Record>)
    ensures |r| <= |records|
  {
    if records == [] then []
    else (if records[0].id == id then [] else [records[0]]) + Without(records[1..], id)
  }

  /** Deleting removes exactly that record: every other record stays. */
  lemma {:induction false} WithoutExactly(records: seq<Record>, id: int)
    ensures forall x :: x in Without(records, id) <==> x in records && x.id != id
  {
    if records != [] {
      WithoutExactly(records[1..], id);
      assert forall x :: x in records <==> x == records[0] || x in records[1..];
    }
  }

  /** Removing records keeps the table's invariants. */
  lemma {:induction false} WithoutKeepsInvariants(records: seq<Record>, id: int)
    requires AtMostOnePending(records) && UniqueIds(records)
    ensures AtMostOnePending(Without(records, id)) && UniqueIds(Without(records, id))
  {
    if records != [] {
      var tail := records[1..];
      assert AtMostOnePending(tail) && UniqueIds(tail) by {
        forall i, j | 0 <= i < j < |tail| ensures tail[i] == records[i + 1] && tail[j] == records[j + 1] { }
      }
      WithoutKeepsInvariants(tail, id);
      WithoutExactly(tail, id);
      var rest := Without(tail, id);
      if records[0].id != id {
        var s := [records[0]] + rest;
        assert Without(records, id) == s;
        forall j | 0 < j < |s|
          ensures s[0].id != s[j].id
          ensures s[0].complaintId == s[j].complaintId ==> s[0].reviewed || s[j].reviewed
        {
          assert s[j] == rest[j - 1];
          assert rest[j - 1] in tail;
          var k :| 0 <= k < |tail| && tail[k] == rest[j - 1];
          assert records[k + 1] == s[j];
        }
        forall i, j | 0 <= i < j < |s|
          ensures s[i].id != s[j].id
          ensures s[i].complaintId == s[j].complaintId ==> s[i].reviewed || s[j].reviewed
        {
          if i > 0 {
            assert s[i] == rest[i - 1] && s[j] == rest[j - 1];
          }
        }
      } else {
        assert Without(records, id) == rest;
      }
    }
  }

  /** query.update({"reviewed": True, "reviewed_at": now}) on the rows with the id. */
  function MarkReviewed(records: seq<Record>, id: int, now: int): (r: seq<Record>)
    ensures |r| == |records|
    ensures forall i :: 0 <= i < |r| ==>
      r[i] == if records[i].id == id then records[i].(reviewed := true, reviewedAt := Some(now)) else records[i]
  {
    if records == [] then []
    else
      [if records[0].id == id then records[0].(reviewed := true, reviewedAt := Some(now)) else records[0]]
        + MarkReviewed(records[1..], id, now)
  }

  /** Reviewing again leaves the report reviewed and only moves its review time. */
  lemma ReviewTwice(records: seq<Record>, id: int, t1: int, t2: int)
    ensures MarkReviewed(MarkReviewed(records, id, t1), id, t2) == MarkReviewed(records, id, t2)
  {
    var a := MarkReviewed(MarkReviewed(records, id, t1), id, t2);
    var b := MarkReviewed(records, id, t2);
    assert |a| == |b|;
    forall i | 0 <= i < |a| ensures a[i] == b[i] { }
  }

  /** Reviewing keeps the table's invariants (it can only end a pending state). */
  lemma ReviewKeepsInvariants(records: seq<Record>, id: int, now: int)
    requires AtMostOnePending(records) && UniqueIds(records)
    ensures AtMostOnePending(MarkReviewed(records, id, now)) && UniqueIds(MarkReviewed(records, id, now))
  {
    var r := MarkReviewed(records, id, now);
    forall i, j | 0 <= i < j < |r| && r[i].complaintId == r[j].complaintId
      ensures r[i].reviewed || r[j].reviewed
    {
      assert r[i].complaintId == records[i].complaintId && r[j].complaintId == records[j].complaintId;
    }
  }

  // ---------------------------------------------------------------- the table

  /** The misclassified-complaints table, with the complaints table it reads. */
  class MisclassificationTable {
    var complaints: map<int, Complaint>
    var records: seq<Record>
    var nextId: int

    /** Ids are unique and below the next one handed out; at most one report per complaint is pending. */
    predicate Valid()
      reads this
    {
      && UniqueIds(records)
      && (forall i :: 0 <= i < |records| ==> records[i].id < nextId)
      && AtMostOnePending(records)
    }

    constructor(complaints: map<int, Complaint>)
      ensures Valid()
      ensures this.complaints == complaints && records == [] && nextId == 1
    {
      this.complaints := complaints;
      records := [];
      nextId := 1;
    }

    /**
     * report_misclassification: after the checks, a new unreviewed record
     * that copies the complaint's current department and urgency as the
     * model's predictions.
     */
    method Report(complaintId: int, correctDepartment: Option<string>, correctUrgency: Option<string>, reporter: int)
      returns (r: Result<Record, HttpError>)
      requires Valid()
      modifies this`records, this`nextId
      ensures Valid()
      ensures var check := ReportCheck(complaints, old(records), complaintId, correctDepartment, correctUrgency);
        && (check.Some? ==> r == Err(check.value) && records == old(records))
        && (check.None? ==> r.Ok? && records == old(records) + [r.value])
      ensures r.Ok? ==> r.value == Record(old(nextId), complaintId,
        complaints[complaintId].department, complaints[complaintId].urgency,
        correctDepartment, correctUrgency, reporter, false, None)
    {
      var check := ReportCheck(complaints, records, complaintId, correctDepartment, correctUrgency);
      if check.Some? {
        return Err(check.value);
      }
      var complaint := complaints[complaintId];
      var rec := Record(nextId, complaintId, complaint.department, complaint.urgency,
                        correctDepartment, correctUrgency, reporter, false, None);
      AddKeepsOnePending(records, rec);
      records := records + [rec];
      nextId := nextId + 1;
      r := Ok(rec);
    }

    /** delete_misclassification: after the checks, only that record is removed. */
    method Delete(id: int, caller: int) returns (r: Option<HttpError>)
      requires Valid()
      modifies this`records
      ensures Valid()
      ensures r == DeleteCheck(old(records), id, caller)
      ensures r.None? ==> records == Without(old(records), id)
      ensures r.Some? ==> records == old(records)
    {
      r := DeleteCheck(records, id, caller);
      if r.None? {
        WithoutKeepsInvariants(records, id);
        WithoutExactly(records, id);
        records := Without(records, id);
      }
    }

    /** review_misclassification: 404 for an unknown id, else the record is marked reviewed at `now`. */
    method Review(id: int, now: int) returns (r: Result<Record, HttpError>)
      requires Valid()
      modifies this`records
      ensures Valid()
      ensures Find(old(records), id).None? <==> r == Err(NotFound)
      ensures r.Err? ==> records == old(records)
      ensures r.Ok? ==> records == MarkReviewed(old(records), id, now) && r.value.id == id && r.value.reviewed
    {
      var found := Find(records, id);
      if found.None? {
        return Err(NotFound);
      }
      ReviewKeepsInvariants(records, id, now);
      records := MarkReviewed(records, id, now);
      r := Ok(records[found.value]);
    }
  }
}
