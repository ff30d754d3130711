/** `getPosInvoice`: one page of a branch's POS invoices for a list tab
    ("Draft", "Unbilled", "Recently Paid" or a raw status), fetched with one
    look-ahead row that decides the `next` flag.

    The `tabPOS Invoice` table is the sequence `rows`, already in the query's
    `ORDER BY modified desc` order; the SQL is modelled by its WHERE clause
    (`MatchesListFilter`) and its `LIMIT … OFFSET …` (`Window`). */
module InvoiceList {
  import opened Wrappers

  /** The columns of a POS invoice that the WHERE clauses read. */
  datatype InvoiceRow = InvoiceRow(
    name: string,
    branch: string,
    status: string,
    invoicePrinted: int,
    restaurantTable: Option<string>)

  /** What the handler returns: `{"data": ..., "next": ...}`. */
  datatype InvoicePage = InvoicePage(data: seq<InvoiceRow>, next: bool)

  /** What the handler raises: `getBranch`'s `frappe.throw` for a user of no
      branch, the database rejecting a negative `LIMIT` or `OFFSET`, or
      `IndexError` from `pop()` on an empty list. */
  datatype ListError = NoBranch | NegativeLimitOrOffset | PopFromEmpty

  /** `COALESCE(restaurant_table, '')`. */
  function Coalesce(table: Option<string>): string
  {
    if table.Some? then table.value else ""
  }

  /** The WHERE clause the handler's query uses for the list tab `status`.
      Only rows of the branch pass; both draft tabs list only drafts, the
      "Unbilled" tab only unprinted ones with a table, and the "Draft" tab
      only printed ones or unprinted ones without a table; "Recently Paid"
      lists the paid rows and any other tab the rows of that status. */
  function MatchesListFilter(row: InvoiceRow, branch: string, status: string): (r: bool)
    ensures r ==> row.branch == branch
    ensures r && (status == "Draft" || status == "Unbilled") ==> row.status == "Draft"
    ensures r && status == "Unbilled" ==> row.invoicePrinted == 0 && row.restaurantTable.Some?
    ensures r && status == "Draft" ==>
      row.invoicePrinted == 1 || (row.invoicePrinted == 0 && (row.restaurantTable.None? || row.restaurantTable.value == ""))
    ensures status != "Draft" && status != "Unbilled" ==>
      (r <==> row.branch == branch && row.status == if status == "Recently Paid" then "Paid" else status)
  {
    && row.branch == branch
    && if status == "Draft" then
         && row.status == "Draft"
         && (row.invoicePrinted == 1 || (row.invoicePrinted == 0 && Coalesce(row.restaurantTable) == ""))
       else if status == "Unbilled" then
         row.status == "Draft" && row.invoicePrinted == 0 && row.restaurantTable.Some?
       else if status == "Recently Paid" then
         row.status == "Paid"
       else
         row.status == status
  }

  /** The rows the WHERE clause keeps, in table order. */
  function Selected(rows: seq<InvoiceRow>, branch: string, status: string): (s: seq<InvoiceRow>)
    ensures |s| <= |rows|
    ensures forall x :: x in s <==> x in rows && MatchesListFilter(x, branch, status)
  {
    if rows == [] then []
    else if MatchesListFilter(rows[0], branch, status) then [rows[0]] + Selected(rows[1..], branch, status)
    else Selected(rows[1..], branch, status)
  }

  /** The filter keeps the table's order and each row's multiplicity: it
      distributes over concatenation, and a single row is kept or dropped. */
  lemma {:induction false} SelectedAppend(a: seq<InvoiceRow>, b: seq<InvoiceRow>, branch: string, status: string)
    ensures Selected(a + b, branch, status) == Selected(a, branch, status) + Selected(b, branch, status)
  {
    if a != [] {
      assert (a + b)[1..] == a[1..] + b;
      SelectedAppend(a[1..], b, branch, status);
    } else {
      assert a + b == b;
    }
  }

  /** A single row is kept exactly when it passes the WHERE clause. */
  lemma SelectedSingle(x: InvoiceRow, branch: string, status: string)
    ensures Selected([x], branch, status) == if MatchesListFilter(x, branch, status) then [x] else []
  {
  }

  /** `LIMIT count OFFSET start` over `s`. */
  function Window(s: seq<InvoiceRow>, start: nat, count: nat): (w: seq<InvoiceRow>)
    ensures |w| <= count
    ensures |w| == if start >= |s| then 0 else if start + count <= |s| then count else |s| - start
    ensures forall k :: 0 <= k < |w| ==> w[k] == s[start + k]
  {
    if start >= |s| then [] else s[start..if start + count <= |s| then start + count else |s|]
  }

  /** A window one row longer extends the shorter one by at most one row,
      and it has `count + 1` rows exactly when rows remain past the shorter
      one. */
  lemma LookAhead(s: seq<InvoiceRow>, start: nat, count: nat)
    ensures |Window(s, start, count + 1)| == count + 1 <==> |s| > start + count
    ensures |Window(s, start, count + 1)| == count + 1 ==>
      Window(s, start, count + 1)[..count] == Window(s, start, count)
    ensures |Window(s, start, count + 1)| != count + 1 ==>
      Window(s, start, count + 1) == Window(s, start, count)
  {
  }

  /** `getPosInvoice(status, limit, limit_start)`: `branch` is what
      `getBranch` finds for the session user (`None` when it raises). Fetch
      `limit + 1` rows; outside "Recently Paid", a full fetch means there is
      a next page, and its look-ahead row is popped. For `limit == -1` the
      fetch is `LIMIT 0`, which is "full" with no row to pop. */
  method GetPosInvoice(status: string, limit: int, limitStart: int, branch: Option<string>, rows: seq<InvoiceRow>)
    returns (page: Result<InvoicePage, ListError>)
    ensures branch.None? ==> page == Err(NoBranch)
    ensures branch.Some? && (limit < -1 || limitStart < 0) ==> page == Err(NegativeLimitOrOffset)
    ensures branch.Some? && limit == -1 && limitStart >= 0 ==>
      page == if status == "Recently Paid" then Ok(InvoicePage([], false)) else Err(PopFromEmpty)
    ensures page.Ok? ==> forall x :: x in page.value.data ==> x in rows && MatchesListFilter(x, branch.value, status)
    ensures branch.Some? && limit >= 0 && limitStart >= 0 && status != "Recently Paid" ==>
      var s := Selected(rows, branch.value, status);
      && page.Ok?
      && page.value.data == Window(s, limitStart, limit)
      && (page.value.next <==> |s| > limitStart + limit)
    ensures branch.Some? && limit >= 0 && limitStart >= 0 && status == "Recently Paid" ==>
      page == Ok(InvoicePage(Window(Selected(rows, branch.value, status), limitStart, limit + 1), false))
  {
    if branch.None? {
      return Err(NoBranch);
    }
    var fetchLimit := limit + 1;
    if fetchLimit < 0 || limitStart < 0 {
      return Err(NegativeLimitOrOffset);
    }
    var updatedList: seq<InvoiceRow> := [];
    var invoices := Window(Selected(rows, branch.value, status), limitStart, fetchLimit);
    updatedList := updatedList + invoices;
    assert updatedList == invoices;
    var next: bool;
    if |updatedList| == fetchLimit && status != "Recently Paid" {
      next := true;
      if updatedList == [] {
        return Err(PopFromEmpty);
      }
      updatedList := updatedList[..|updatedList| - 1];
    } else {
      next := false;
    }
    if limit >= 0 {
      LookAhead(Selected(rows, branch.value, status), limitStart, limit);
    }
    page := Ok(InvoicePage(updatedList, next));
  }

  /** The "Draft" and "Unbilled" tabs are not disjoint: an unprinted draft
      whose table is the empty string (not NULL) passes both WHERE clauses. */
  lemma DraftAndUnbilledOverlap(branch: string)
    ensures exists row :: MatchesListFilter(row, branch, "Draft") && MatchesListFilter(row, branch, "Unbilled")
  {
    var row := InvoiceRow("ACC-PSINV-0001", branch, "Draft", 0, Some(""));
    assert MatchesListFilter(row, branch, "Draft") && MatchesListFilter(row, branch, "Unbilled");
  }

  /** Apart from that case the tabs split the unprinted drafts: one with a
      NULL table is only in "Draft", one with a non-empty table only in
      "Unbilled". */
  lemma UnprintedDraftTabs(row: InvoiceRow, branch: string)
    requires row.branch == branch && row.status == "Draft" && row.invoicePrinted == 0
    ensures row.restaurantTable.None? ==>
      MatchesListFilter(row, branch, "Draft") && !MatchesListFilter(row, branch, "Unbilled")
    ensures row.restaurantTable.Some? && row.restaurantTable.value != "" ==>
      !MatchesListFilter(row, branch, "Draft") && MatchesListFilter(row, branch, "Unbilled")
  {
  }
}
