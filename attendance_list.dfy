/** The attendance list: rows filtered by student name, paged, with a
    per-row present/absent toggle and a bulk "mark all present". */
module AttendanceList {
  import opened Common
  import Pagination

  /** One attendance record. `sessionDate` is "" when missing. */
  datatype AttendanceRow = AttendanceRow(oid: string, student: Ref, classRef: Ref, sessionDate: string, status: string)

  /** The bulk request: the class and session of the first row. */
  datatype BulkMark = BulkMark(classId: string, sessionDate: string)

  const PAGE_SIZE: nat := 10
  const PRESENT: string := "present"
  const ABSENT: string := "absent"
  const MSG_UPDATE_FAILED: string := "Failed to update attendance"
  const MSG_NO_SESSION: string := "Cannot determine class/session for bulk mark"
  const MSG_BULK_FAILED: string := "Failed bulk mark"

  /** A row is kept iff the query is empty or the student's name contains it, ignoring case. */
  predicate Matches(row: AttendanceRow, query: string)
  {
    query == "" || MatchesQuery(RefName(row.student), query)
  }

  function Filtered(items: seq<AttendanceRow>, query: string): (r: seq<AttendanceRow>)
    ensures query == "" ==> r == items
    ensures forall i :: 0 <= i < |r| ==> r[i] in items && Matches(r[i], query)
    ensures forall i :: 0 <= i < |items| && Matches(items[i], query) ==> items[i] in r
  {
    if query == "" then items else Filter(items, (row: AttendanceRow) => Matches(row, query))
  }

  /** The status a click asks for: present becomes absent, anything else present. */
  function NextStatus(status: string): (s: string)
    ensures status == PRESENT ==> s == ABSENT
    ensures status != PRESENT ==> s == PRESENT
  {
    if status == PRESENT then ABSENT else PRESENT
  }

  /** Two clicks bring a present or absent row back to where it was. */
  lemma NextStatusTwice(status: string)
    requires status == PRESENT || status == ABSENT
    ensures NextStatus(NextStatus(status)) == status
  {
  }

  /** The list after one row's status changed: the rows with that id take the new status, the others stay. */
  function WithStatus(items: seq<AttendanceRow>, id: string, status: string): (r: seq<AttendanceRow>)
    ensures |r| == |items|
    ensures forall i :: 0 <= i < |items| && items[i].oid == id ==> r[i] == items[i].(status := status)
    ensures forall i :: 0 <= i < |items| && items[i].oid != id ==> r[i] == items[i]
  {
    seq(|items|, i requires 0 <= i < |items| => if items[i].oid == id then items[i].(status := status) else items[i])
  }

  /** The list with every row marked present. */
  function AllPresent(items: seq<AttendanceRow>): (r: seq<AttendanceRow>)
    ensures |r| == |items|
    ensures forall i :: 0 <= i < |items| ==> r[i] == items[i].(status := PRESENT)
  {
    seq(|items|, i requires 0 <= i < |items| => items[i].(status := PRESENT))
  }

  /** Marking everyone present twice is marking them once. */
  lemma AllPresentIdempotent(items: seq<AttendanceRow>)
    ensures AllPresent(AllPresent(items)) == AllPresent(items)
  {
  }

  /** Toggling a row and toggling it back restores the list when its status was present or absent. */
  lemma {:induction false} ToggleTwiceRestores(items: seq<AttendanceRow>, row: AttendanceRow)
    requires row.status == PRESENT || row.status == ABSENT
    requires forall i :: 0 <= i < |items| && items[i].oid == row.oid ==> items[i].status == row.status
    ensures WithStatus(WithStatus(items, row.oid, NextStatus(row.status)), row.oid, row.status) == items
  {
    var once := WithStatus(items, row.oid, NextStatus(row.status));
    var twice := WithStatus(once, row.oid, row.status);
    forall i | 0 <= i < |items|
      ensures twice[i] == items[i]
    {
      if items[i].oid == row.oid {
        assert once[i].oid == row.oid;
      }
    }
  }

  class AttendanceListPage {
    var items: seq<AttendanceRow>
    var error: string
    var query: string
    var page: int
    /** Requests made, oldest first. */
    var updates: seq<(string, string)>
    var bulkMarks: seq<BulkMark>

    constructor (loaded: seq<AttendanceRow>)
      ensures items == loaded && error == "" && query == "" && page == 1 && updates == [] && bulkMarks == []
    {
      items, error, query, page, updates, bulkMarks := loaded, "", "", 1, [], [];
    }

    /** The rows the table shows. */
    function PageRows(): (r: seq<AttendanceRow>)
      reads this
      ensures |r| <= PAGE_SIZE
      ensures forall k :: 0 <= k < |r| ==> r[k] in items && Matches(r[k], query)
    {
      Pagination.PageData(Filtered(items, query), page, PAGE_SIZE)
    }

    /** A row's status button was clicked; `api` is how the update ends. */
    method ToggleStatus(row: AttendanceRow, api: ApiOutcome)
      modifies this
      ensures updates == old(updates) + [(row.oid, NextStatus(row.status))]
      ensures api.Succeeded? ==> items == WithStatus(old(items), row.oid, NextStatus(row.status)) && error == old(error)
      ensures api.FailedWith? ==> items == old(items) && error == MSG_UPDATE_FAILED
      ensures query == old(query) && page == old(page) && bulkMarks == old(bulkMarks)
    {
      var newStatus := NextStatus(row.status);
      updates := updates + [(row.oid, newStatus)];
      if api.Succeeded? {
        items := WithStatus(items, row.oid, newStatus);
      } else {
        error := MSG_UPDATE_FAILED;
      }
    }

    /** "Mark all present": the class and session come from the first row. */
    method MarkAllPresent(api: ApiOutcome)
      modifies this
      ensures old(items) == [] ==> items == old(items) && error == old(error) && bulkMarks == old(bulkMarks)
      ensures old(items) != [] && (RefId(old(items)[0].classRef) == "" || old(items)[0].sessionDate == "") ==>
                items == old(items) && error == MSG_NO_SESSION && bulkMarks == old(bulkMarks)
      ensures old(items) != [] && RefId(old(items)[0].classRef) != "" && old(items)[0].sessionDate != "" ==>
                bulkMarks == old(bulkMarks) + [BulkMark(RefId(old(items)[0].classRef), old(items)[0].sessionDate)]
      ensures old(items) != [] && RefId(old(items)[0].classRef) != "" && old(items)[0].sessionDate != "" && api.Succeeded? ==>
                items == AllPresent(old(items)) && error == old(error)
      ensures old(items) != [] && RefId(old(items)[0].classRef) != "" && old(items)[0].sessionDate != "" && api.FailedWith? ==>
                items == old(items) && error == MSG_BULK_FAILED
      ensures query == old(query) && page == old(page) && updates == old(updates)
    {
      if |items| == 0 {
        return;
      }
      var first := items[0];
      var classId := RefId(first.classRef);
      if classId == "" || first.sessionDate == "" {
        error := MSG_NO_SESSION;
        return;
      }
      bulkMarks := bulkMarks + [BulkMark(classId, first.sessionDate)];
      if api.Succeeded? {
        items := AllPresent(items);
      } else {
        error := MSG_BULK_FAILED;
      }
    }
  }
}
