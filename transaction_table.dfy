/** The transaction table: it fetches the transactions that match the
    filters, shows each amount with a sign, toggles ids in the page's
    selection and opens the edit modal for a clicked row. */
module TransactionTable {
  import opened Remote
  import opened TokenStore
  import TransactionsPage

  datatype TxType = Income | Expense

  datatype Transaction = Transaction(
    id: int,
    subject: string,
    date: string,
    amount: real,
    category: string,
    txType: TxType)

  // ---------------------------------------------------------------------
  // Selection

  predicate NoDuplicates(ids: seq<int>)
  {
    forall i, j :: 0 <= i < j < |ids| ==> ids[i] != ids[j]
  }

  /** `ids.filter((selectedId) => selectedId !== id)`. */
  function Without(ids: seq<int>, id: int): (r: seq<int>)
    ensures id !in r
    ensures forall x :: x in r <==> x in ids && x != id
    ensures |r| <= |ids|
    ensures NoDuplicates(ids) ==> NoDuplicates(r)
  {
    if ids == [] then []
    else if ids[0] == id then Without(ids[1..], id)
    else
      var rest := Without(ids[1..], id);
      assert NoDuplicates(ids) ==> NoDuplicates(ids[1..]) && ids[0] !in rest by {
        if NoDuplicates(ids) {
          assert forall j :: 0 <= j < |ids[1..]| ==> ids[1..][j] == ids[j + 1];
        }
      }
      [ids[0]] + rest
  }

  /** `handleCheckboxChange`: remove the id if selected, else append it. */
  function Toggle(ids: seq<int>, id: int): (r: seq<int>)
    ensures id in ids ==> id !in r && forall x :: x != id ==> (x in r <==> x in ids)
    ensures id !in ids ==> r == ids + [id]
  {
    if id in ids then Without(ids, id) else ids + [id]
  }

  /** Filtering an absent id changes nothing. */
  lemma {:induction false} WithoutAbsent(ids: seq<int>, id: int)
    requires id !in ids
    ensures Without(ids, id) == ids
  {
    if ids != [] {
      WithoutAbsent(ids[1..], id);
    }
  }

  /** Filtering works piecewise, so the kept ids keep their relative order. */
  lemma {:induction false} WithoutDistributes(a: seq<int>, b: seq<int>, id: int)
    ensures Without(a + b, id) == Without(a, id) + Without(b, id)
  {
    if a == [] {
      assert a + b == b;
    } else {
      assert (a + b)[1..] == a[1..] + b;
      WithoutDistributes(a[1..], b, id);
    }
  }

  /** In a selection without duplicates, unticking an id removes exactly its
      one position. */
  lemma WithoutRemovesItsPosition(ids: seq<int>, k: nat)
    requires k < |ids| && NoDuplicates(ids)
    ensures Without(ids, ids[k]) == ids[..k] + ids[k + 1..]
  {
    var id := ids[k];
    assert ids == ids[..k] + ([id] + ids[k + 1..]);
    WithoutDistributes(ids[..k], [id] + ids[k + 1..], id);
    WithoutDistributes([id], ids[k + 1..], id);
    assert id !in ids[..k];
    assert id !in ids[k + 1..];
    WithoutAbsent(ids[..k], id);
    WithoutAbsent(ids[k + 1..], id);
  }

  /** A selection without duplicates stays so after any toggle. */
  lemma ToggleKeepsNoDuplicates(ids: seq<int>, id: int)
    requires NoDuplicates(ids)
    ensures NoDuplicates(Toggle(ids, id))
  {
  }

  /** Ticking an unselected id and unticking it again restores the selection. */
  lemma ToggleTwiceRestores(ids: seq<int>, id: int)
    requires id !in ids
    ensures Toggle(Toggle(ids, id), id) == ids
  {
    WithoutDistributes(ids, [id], id);
    WithoutAbsent(ids, id);
  }

  // ---------------------------------------------------------------------
  // Query

  datatype Param = Param(name: string, value: string)

  /** The filter parameters a query carries: `type` when the type filter is
      not "All", `category` when the category filter is not "All", with
      `type` first. */
  predicate QueryMatchesFilters(query: seq<Param>, filterType: string, category: string)
  {
    && |query| == (if filterType != "All" then 1 else 0) + (if category != "All" then 1 else 0)
    && (Param("type", filterType) in query <==> filterType != "All")
    && (Param("category", category) in query <==> category != "All")
    && (filterType != "All" ==> query[0] == Param("type", filterType))
    && (category != "All" ==> query[|query| - 1] == Param("category", category))
  }

  /** The `URLSearchParams` built at the start of `fetchTransactions`. */
  method BuildQuery(filterType: string, category: string) returns (query: seq<Param>)
    ensures QueryMatchesFilters(query, filterType, category)
  {
    query := [];
    if filterType != "All" {
      query := query + [Param("type", filterType)];
    }
    if category != "All" {
      query := query + [Param("category", category)];
    }
  }

  // ---------------------------------------------------------------------
  // Amount display

  /** The amount cell: a sign, then `Math.abs(amount)`. */
  datatype AmountLabel = AmountLabel(sign: char, magnitude: real)

  function Label(t: Transaction): (r: AmountLabel)
    ensures r.sign == '-' <==> t.txType == Expense
    ensures r.sign == '+' <==> t.txType == Income
    ensures r.magnitude >= 0.0 && (r.magnitude == t.amount || r.magnitude == -t.amount)
  {
    AmountLabel(if t.txType == Expense then '-' else '+', if t.amount < 0.0 then -t.amount else t.amount)
  }

  /** The sign shown comes from the type alone: a stored negative amount is
      displayed like its positive counterpart. */
  lemma LabelIgnoresStoredSign(t: Transaction)
    ensures Label(t.(amount := -t.amount)) == Label(t)
  {
  }

  // ---------------------------------------------------------------------
  // Component state

  datatype FetchAlert = NeedLogin | FetchFailed

  class Table {
    var transactions: seq<Transaction>
    var editingId: Option<int>

    constructor ()
      ensures transactions == [] && editingId == None
    {
      transactions, editingId := [], None;
    }

    /** `fetchTransactions`. `sent` is the query of the GET request, if one
        was sent; `reply` is its outcome. */
    method FetchTransactions(storage: Storage, filterType: string, category: string, reply: Reply<seq<Transaction>>)
      returns (sent: Option<seq<Param>>, alert: Option<FetchAlert>)
      modifies this`transactions
      ensures sent.Some? <==> Present(storage, AccessKey)
      ensures sent.Some? ==> QueryMatchesFilters(sent.value, filterType, category)
      ensures !Present(storage, AccessKey) ==> alert == Some(NeedLogin) && transactions == old(transactions)
      ensures Present(storage, AccessKey) && reply.Ok? ==> alert == None && transactions == reply.value
      ensures Present(storage, AccessKey) && reply.Fail? ==> alert == Some(FetchFailed) && transactions == old(transactions)
    {
      var query := BuildQuery(filterType, category);
      if !Present(storage, AccessKey) {
        return None, Some(NeedLogin);
      }
      sent := Some(query);
      match reply
      case Ok(data) =>
        transactions := data;
        alert := None;
      case Fail(_) =>
        alert := Some(FetchFailed);
    }

    /** `handleCheckboxChange`, through the page's `setSelectedIds`. */
    method HandleCheckboxChange(page: TransactionsPage.Page, id: int)
      modifies page`selectedIds
      ensures page.selectedIds == Toggle(old(page.selectedIds), id)
    {
      page.SetSelectedIds(Toggle(page.selectedIds, id));
    }

    /** `handleRowClick`. */
    method HandleRowClick(id: int)
      modifies this`editingId
      ensures editingId == Some(id)
    {
      editingId := Some(id);
    }

    /** `handleModalClose`. */
    method HandleModalClose()
      modifies this`editingId
      ensures editingId == None
    {
      editingId := None;
    }

    /** `handleModalSuccess`: close the modal, then `onTransactionUpdated`. */
    method HandleModalSuccess(page: TransactionsPage.Page)
      modifies this`editingId, page`refreshFlag
      ensures editingId == None
      ensures page.refreshFlag == !old(page.refreshFlag)
      ensures transactions == old(transactions)
    {
      HandleModalClose();
      page.HandleTransactionUpdate();
    }
  }
}
