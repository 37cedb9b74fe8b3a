/** The transactions page: it owns the selection of transaction ids and the
    refresh flag that the table's fetch effect depends on, and deletes the selected
    transactions one remote call at a time. */
module TransactionsPage {
  import opened TokenStore

  /** What one `api.delete` call did: answered with a status, or threw. */
  datatype DeleteReply = Status(code: int) | Threw

  /** The alerts the page raises, in the order raised. */
  datatype Alert = NothingSelected | NotLoggedIn | DeleteFailed(id: int) | AllDeleted | DeleteError

  /** The position of the first delete call that throws among the first
      `n`, or `n` when none does. */
  function FirstThrow(n: nat, reply: nat -> DeleteReply): (k: nat)
    ensures k <= n
    ensures forall j :: 0 <= j < k ==> !reply(j).Threw?
    ensures k < n ==> reply(k).Threw?
  {
    if n == 0 then 0
    else if FirstThrow(n - 1, reply) < n - 1 then FirstThrow(n - 1, reply)
    else if reply(n - 1).Threw? then n - 1
    else n
  }

  /** A delete call that answered, but not with 200. */
  predicate Refused(d: DeleteReply)
  {
    d.Status? && d.code != 200
  }

  /** How many of the first `m` calls were refused. */
  function RefusedBefore(reply: nat -> DeleteReply, m: nat): (c: nat)
    ensures c <= m
  {
    if m == 0 then 0 else RefusedBefore(reply, m - 1) + (if Refused(reply(m - 1)) then 1 else 0)
  }

  /** A later prefix holds at least as many refusals, and one more past a refused call. */
  lemma {:induction false} RefusedBeforeGrows(reply: nat -> DeleteReply, j: nat, m: nat)
    requires j < m
    ensures RefusedBefore(reply, j) + (if Refused(reply(j)) then 1 else 0) <= RefusedBefore(reply, m)
  {
    if j < m - 1 {
      RefusedBeforeGrows(reply, j, m - 1);
    }
  }

  /** The ids among the first `n` calls that answered with a status other
      than 200, in call order: the refusal at call `j` is entry
      `RefusedBefore(reply, j)` of the report, and nothing else is in it. */
  function NotDeleted(ids: seq<int>, reply: nat -> DeleteReply, n: nat): (r: seq<int>)
    requires n <= |ids|
    ensures forall x :: x in r ==> x in ids[..n]
    ensures |r| == RefusedBefore(reply, n)
    ensures forall j :: 0 <= j < n && Refused(reply(j)) ==>
      RefusedBefore(reply, j) < |r| && r[RefusedBefore(reply, j)] == ids[j]
  {
    if n == 0 then []
    else
      var r := NotDeleted(ids, reply, n - 1) + (if Refused(reply(n - 1)) then [ids[n - 1]] else []);
      assert forall j :: 0 <= j < n && Refused(reply(j)) ==>
        RefusedBefore(reply, j) < |r| && r[RefusedBefore(reply, j)] == ids[j] by {
        forall j | 0 <= j < n - 1 && Refused(reply(j))
          ensures RefusedBefore(reply, j) < |r| && r[RefusedBefore(reply, j)] == ids[j]
        {
          RefusedBeforeGrows(reply, j, n - 1);
        }
      }
      r
  }

  /** Every refused id is reported: the alerts miss no failed delete. */
  lemma RefusedIdsAreReported(ids: seq<int>, reply: nat -> DeleteReply, n: nat, j: nat)
    requires n <= |ids| && j < n && Refused(reply(j))
    ensures ids[j] in NotDeleted(ids, reply, n)
  {
    var r := NotDeleted(ids, reply, n);
    assert r[RefusedBefore(reply, j)] == ids[j];
  }

  /** The `for` loop of `handleDelete`: one delete per id, in order. A reply
      other than 200 is recorded in `failed` and the loop goes on; a thrown
      call ends it (`completed` is false). */
  method IssueDeletes(ids: seq<int>, reply: nat -> DeleteReply)
    returns (issued: seq<int>, failed: seq<int>, completed: bool)
    ensures completed <==> FirstThrow(|ids|, reply) == |ids|
    ensures completed ==> issued == ids
    ensures !completed ==> issued == ids[..FirstThrow(|ids|, reply) + 1]
    ensures failed == NotDeleted(ids, reply, FirstThrow(|ids|, reply))
  {
    issued, failed, completed := [], [], true;
    var i := 0;
    while i < |ids|
      invariant 0 <= i <= |ids|
      invariant forall j :: 0 <= j < i ==> !reply(j).Threw?
      invariant issued == ids[..i]
      invariant failed == NotDeleted(ids, reply, i)
      invariant completed
    {
      issued := issued + [ids[i]];
      if reply(i).Threw? {
        completed := false;
        assert FirstThrow(|ids|, reply) == i;
        return;
      }
      if Refused(reply(i)) {
        failed := failed + [ids[i]];
      }
      i := i + 1;
    }
    assert issued == ids;
  }

  /** When every call answers 200, no failure is reported. */
  lemma {:induction false} AllOkReportsNoFailure(ids: seq<int>, reply: nat -> DeleteReply, n: nat)
    requires n <= |ids|
    requires forall j :: 0 <= j < n ==> reply(j) == Status(200)
    ensures NotDeleted(ids, reply, n) == []
    ensures FirstThrow(n, reply) == n
  {
    if n > 0 {
      AllOkReportsNoFailure(ids, reply, n - 1);
    }
  }

  function FailureAlerts(failed: seq<int>): (r: seq<Alert>)
    ensures |r| == |failed|
    ensures forall k :: 0 <= k < |failed| ==> r[k] == DeleteFailed(failed[k])
  {
    seq(|failed|, k requires 0 <= k < |failed| => DeleteFailed(failed[k]))
  }

  class Page {
    var selectedIds: seq<int>
    var refreshFlag: bool
    var filterType: string
    var filterCategory: string

    constructor ()
      ensures selectedIds == [] && !refreshFlag
      ensures filterType == "All" && filterCategory == "All"
    {
      selectedIds, refreshFlag := [], false;
      filterType, filterCategory := "All", "All";
    }

    /** `setSelectedIds`, passed to the table. */
    method SetSelectedIds(ids: seq<int>)
      modifies this`selectedIds
      ensures selectedIds == ids
    {
      selectedIds := ids;
    }

    /** `handleCreated`. */
    method HandleCreated()
      modifies this`refreshFlag
      ensures refreshFlag == !old(refreshFlag)
    {
      refreshFlag := !refreshFlag;
    }

    /** `handleTransactionUpdate`, passed to the table as `onTransactionUpdated`. */
    method HandleTransactionUpdate()
      modifies this`refreshFlag
      ensures refreshFlag == !old(refreshFlag)
    {
      refreshFlag := !refreshFlag;
    }

    /** `handleDelete`. `confirmed` is the user's answer to the confirmation
        dialog, `reply(k)` the outcome of the k-th delete call. */
    method HandleDelete(confirmed: bool, storage: Storage, reply: nat -> DeleteReply)
      returns (issued: seq<int>, alerts: seq<Alert>)
      modifies this`selectedIds, this`refreshFlag
      ensures old(selectedIds) == [] ==>
        issued == [] && alerts == [NothingSelected] && selectedIds == old(selectedIds) && refreshFlag == old(refreshFlag)
      ensures old(selectedIds) != [] && !confirmed ==>
        issued == [] && alerts == [] && selectedIds == old(selectedIds) && refreshFlag == old(refreshFlag)
      ensures old(selectedIds) != [] && confirmed && !Present(storage, AccessKey) ==>
        issued == [] && alerts == [NotLoggedIn] && selectedIds == old(selectedIds) && refreshFlag == old(refreshFlag)
      ensures old(selectedIds) != [] && confirmed && Present(storage, AccessKey) ==>
        var ids := old(selectedIds);
        var k := FirstThrow(|ids|, reply);
        if k == |ids| then
          && issued == ids
          && alerts == FailureAlerts(NotDeleted(ids, reply, k)) + [AllDeleted]
          && selectedIds == [] && refreshFlag == !old(refreshFlag)
        else
          && issued == ids[..k + 1]
          && alerts == FailureAlerts(NotDeleted(ids, reply, k)) + [DeleteError]
          && selectedIds == ids && refreshFlag == old(refreshFlag)
    {
      issued := [];
      if |selectedIds| == 0 {
        alerts := [NothingSelected];
        return;
      }
      if !confirmed {
        alerts := [];
        return;
      }
      if !Present(storage, AccessKey) {
        alerts := [NotLoggedIn];
        return;
      }
      var failed, completed;
      issued, failed, completed := IssueDeletes(selectedIds, reply);
      alerts := FailureAlerts(failed);
      if completed {
        alerts := alerts + [AllDeleted];
        selectedIds := [];
        refreshFlag := !refreshFlag;
      } else {
        alerts := alerts + [DeleteError];
      }
    }
  }
}
