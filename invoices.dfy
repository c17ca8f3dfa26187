/**
 * The Invoices view (src/components/Invoices.tsx): the invoice list, its
 * search / status / subsidiary filter, and `handleCreateInvoice`, which
 * turns a submitted form into a new Draft invoice, appends it to the list
 * in place and opens it in the preview.
 */
module Invoices {
  import opened Base
  import opened Text
  import opened Access
  import opened Numbering
  import InvoiceForm

  datatype InvoiceStatus = Draft | Sent | Paid | Overdue

  datatype InvoiceItem = InvoiceItem(description: string, quantity: int, unitPrice: real, total: real)

  /** `subsidiaryId` is `None` when `parseInt` gave NaN. */
  datatype Invoice = Invoice(
    id: int,
    invoiceNumber: string,
    customerName: string,
    customerPhone: string,
    customerEmail: string,
    items: seq<InvoiceItem>,
    subtotal: real,
    tax: real,
    total: real,
    status: InvoiceStatus,
    issueDate: string,
    dueDate: string,
    subsidiaryId: Option<int>)


  function MockInvoices(): seq<Invoice>
  {
    [ Invoice(1, "INV-2024-001", "Mwalimu John Kasonga", "+255712345678", "john.kasonga@gmail.com",
        [InvoiceItem("Fertilizer A (50kg)", 10, 45000.0, 450000.0)], 450000.0, 81000.0, 531000.0,
        Paid, "2024-01-15", "2024-02-15", Some(1)),
      Invoice(2, "INV-2024-002", "Mama Grace Mwangi", "+255723456789", "grace.mwangi@yahoo.com",
        [InvoiceItem("Engine Oil (5L)", 25, 18000.0, 450000.0)], 450000.0, 81000.0, 531000.0,
        Sent, "2024-01-16", "2024-02-16", Some(2)),
      Invoice(3, "INV-2024-003", "Bwana Ahmed Hassan", "+255734567890", "ahmed.hassan@hotmail.com",
        [InvoiceItem("Maize Flour (25kg)", 50, 35000.0, 1750000.0)], 1750000.0, 315000.0, 2065000.0,
        Overdue, "2024-01-10", "2024-02-10", Some(3)) ]
  }

  /** Invoice number or customer name contains the term, ignoring case. */
  predicate MatchesSearch(inv: Invoice, term: string)
  {
    Contains(Lower(inv.invoiceNumber), Lower(term)) || Contains(Lower(inv.customerName), Lower(term))
  }

  /** The predicate of `filteredInvoices`. */
  predicate Listed(inv: Invoice, current: Option<User>, term: string, status: Selection<InvoiceStatus>, scope: Scope)
  {
    MatchesSearch(inv, term) && Selects(status, inv.status) && InViewScopeParsed(current, scope, inv.subsidiaryId)
  }

  /** `filteredInvoices`. */
  function FilteredInvoices(invoices: seq<Invoice>, current: Option<User>, term: string,
                            status: Selection<InvoiceStatus>, scope: Scope): seq<Invoice>
  {
    Filter(inv => Listed(inv, current, term, status, scope), invoices)
  }

  /** An invoice is listed iff it matches the search, the status filter and the scope rule. */
  lemma ListedIff(invoices: seq<Invoice>, current: Option<User>, term: string,
                  status: Selection<InvoiceStatus>, scope: Scope, inv: Invoice)
    ensures inv in FilteredInvoices(invoices, current, term, status, scope) <==>
      inv in invoices && MatchesSearch(inv, term) && Selects(status, inv.status)
      && ViewRuleParsed(RoleOf(current), HomeOf(current), scope, inv.subsidiaryId)
  {
    FilterMembership(inv => Listed(inv, current, term, status, scope), invoices, inv);
  }

  lemma FilteredIsSubsequence(invoices: seq<Invoice>, current: Option<User>, term: string,
                              status: Selection<InvoiceStatus>, scope: Scope)
    ensures IsSubsequence(FilteredInvoices(invoices, current, term, status, scope), invoices)
  {
    FilterIsSubsequence(inv => Listed(inv, current, term, status, scope), invoices);
  }

  /**
   * A non-Owner sees only invoices of their own subsidiary, whatever scope
   * is selected; an invoice whose subsidiary is NaN is listed only for an
   * Owner under "all".
   */
  lemma ScopeOfListed(invoices: seq<Invoice>, current: Option<User>, term: string,
                      status: Selection<InvoiceStatus>, s1: Scope, s2: Scope)
    ensures RoleOf(current) != Some(Owner) ==>
      FilteredInvoices(invoices, current, term, status, s1) == FilteredInvoices(invoices, current, term, status, s2)
    ensures RoleOf(current) != Some(Owner) ==> forall inv :: inv in FilteredInvoices(invoices, current, term, status, s1) ==>
      inv.subsidiaryId.Some? && HomeOf(current) == inv.subsidiaryId
    ensures forall inv :: inv in FilteredInvoices(invoices, current, term, status, s1) && inv.subsidiaryId.None? ==>
      RoleOf(current) == Some(Owner) && s1 == Any
  {
    if RoleOf(current) != Some(Owner) {
      FilterCongruent(inv => Listed(inv, current, term, status, s1), inv => Listed(inv, current, term, status, s2), invoices);
    }
  }

  /** `Math.max(...ids)`, over a non-empty list. */
  function MaxId(invoices: seq<Invoice>): (m: int)
    requires |invoices| >= 1
    ensures forall i :: 0 <= i < |invoices| ==> invoices[i].id <= m
    ensures exists i :: 0 <= i < |invoices| && invoices[i].id == m
  {
    if |invoices| == 1 then invoices[0].id
    else
      var rest := MaxId(invoices[1..]);
      if invoices[0].id >= rest then invoices[0].id else rest
  }

  /** One created item: the form row copied, with `total` = quantity × unit price. */
  function ItemOf(line: InvoiceForm.LineItem): InvoiceItem
  {
    InvoiceItem(line.description, line.quantity, line.unitPrice, line.quantity as real * line.unitPrice)
  }

  function ItemsOf(lines: seq<InvoiceForm.LineItem>): (r: seq<InvoiceItem>)
    ensures |r| == |lines| && forall i :: 0 <= i < |lines| ==> r[i] == ItemOf(lines[i])
  {
    if lines == [] then [] else [ItemOf(lines[0])] + ItemsOf(lines[1..])
  }

  /** The sum of the item totals of an invoice. */
  function ItemsTotal(items: seq<InvoiceItem>): real
  {
    if items == [] then 0.0 else items[0].total + ItemsTotal(items[1..])
  }

  lemma {:induction false} ItemsTotalOfForm(rows: seq<InvoiceForm.ItemInput>)
    requires forall i :: 0 <= i < |rows| ==> InvoiceForm.ItemValid(rows[i])
    ensures ItemsTotal(ItemsOf(InvoiceForm.LineItems(rows))) == InvoiceForm.Subtotal(rows)
  {
    if rows != [] {
      var ls := InvoiceForm.LineItems(rows);
      assert ls[1..] == InvoiceForm.LineItems(rows[1..]);
      assert ItemsOf(ls)[1..] == ItemsOf(ls[1..]);
      ItemsTotalOfForm(rows[1..]);
    }
  }

  /**
   * An invoice created from a submitted form is consistent: its subtotal is
   * the sum of its item totals, and its total is subtotal plus tax.
   */
  lemma CreatedFromFormAddsUp(f: InvoiceForm.InvoiceFormValues, rate: int, isEmail: string -> bool)
    requires InvoiceForm.Submit(f, rate, isEmail).Some?
    ensures var p := InvoiceForm.Submit(f, rate, isEmail).value;
      ItemsTotal(ItemsOf(p.items)) == p.subtotal && p.total == p.subtotal + p.tax
  {
    InvoiceForm.ValidateEmptyIff(f, isEmail);
    ItemsTotalOfForm(f.items);
  }

  /** The numbering of the list: the record at index `i` reads back as sequence number `i + 1`. */
  ghost predicate NumberedInOrder(invoices: seq<Invoice>)
  {
    forall i :: 0 <= i < |invoices| ==> SequenceOf("INV", invoices[i].invoiceNumber) == Some(i + 1)
  }

  ghost predicate DistinctIds(invoices: seq<Invoice>)
  {
    forall i, j :: 0 <= i < j < |invoices| ==> invoices[i].id != invoices[j].id
  }

  /** Numbered in order, the document numbers are pairwise distinct. */
  lemma NumbersDistinct(invoices: seq<Invoice>)
    requires NumberedInOrder(invoices)
    ensures forall i, j :: 0 <= i < j < |invoices| ==> invoices[i].invoiceNumber != invoices[j].invoiceNumber
  {
    forall i, j | 0 <= i < j < |invoices|
      ensures invoices[i].invoiceNumber != invoices[j].invoiceNumber
    {
      assert SequenceOf("INV", invoices[i].invoiceNumber) != SequenceOf("INV", invoices[j].invoiceNumber);
    }
  }

  /** The seed invoices have the distinct ids 1, 2, 3. */
  lemma SeedIds()
    ensures |MockInvoices()| == 3 && DistinctIds(MockInvoices())
  {
    var inv := MockInvoices();
    assert forall i :: 0 <= i < 3 ==> inv[i].id == i + 1;
  }

  lemma SeedNumber(k: nat, number: string)
    requires 1 <= k < 10 && number == "INV-2024-00" + [DigitChar(k)]
    ensures SequenceOf("INV", number) == Some(k)
  {
    NumberIn2024("INV", k);
    assert "INV-2024-00" == "INV" + "-2024-00";
    assert number == DocumentNumber("INV", 2024, k);
    SequenceOfNumber("INV", 2024, k);
  }

  /** The seed invoices are numbered 1, 2, 3 in 2024. */
  lemma SeedNumbers()
    ensures NumberedInOrder(MockInvoices())
  {
    var inv := MockInvoices();
    forall i | 0 <= i < 3
      ensures SequenceOf("INV", inv[i].invoiceNumber) == Some(i + 1)
    {
      SeedNumber(i + 1, inv[i].invoiceNumber);
    }
  }

  /** The record `handleCreateInvoice` builds from the submitted payload. */
  function NewInvoice(invoices: seq<Invoice>, data: InvoiceForm.InvoicePayload, year: nat): Invoice
    requires |invoices| >= 1
  {
    Invoice(MaxId(invoices) + 1, DocumentNumber("INV", year, |invoices| + 1),
      data.customerName, data.customerPhone, data.customerEmail, ItemsOf(data.items),
      data.subtotal, data.tax, data.total, Draft, data.issueDate, data.dueDate,
      ParseInt(data.subsidiaryId))
  }

  /**
   * What the new record holds: id one above the largest, the next
   * zero-padded `INV-year-NNN` number, which reads back as that sequence
   * number, the form's rows with their line totals, status Draft, the
   * parsed subsidiary and the form's other fields.
   */
  lemma NewInvoiceContents(invoices: seq<Invoice>, data: InvoiceForm.InvoicePayload, year: nat)
    requires |invoices| >= 1
    ensures var c := NewInvoice(invoices, data, year);
      && c.id == MaxId(invoices) + 1
      && (forall i :: 0 <= i < |invoices| ==> invoices[i].id < c.id)
      && c.invoiceNumber == DocumentNumber("INV", year, |invoices| + 1)
      && SequenceOf("INV", c.invoiceNumber) == Some(|invoices| + 1)
      && |c.items| == |data.items|
      && (forall i :: 0 <= i < |data.items| ==>
            && c.items[i].description == data.items[i].description
            && c.items[i].quantity == data.items[i].quantity
            && c.items[i].unitPrice == data.items[i].unitPrice
            && c.items[i].total == data.items[i].quantity as real * data.items[i].unitPrice)
      && c.status == Draft
      && c.subsidiaryId == ParseInt(data.subsidiaryId)
      && c.customerName == data.customerName && c.customerPhone == data.customerPhone
      && c.customerEmail == data.customerEmail
      && c.subtotal == data.subtotal && c.tax == data.tax && c.total == data.total
      && c.issueDate == data.issueDate && c.dueDate == data.dueDate
  {
    var c := NewInvoice(invoices, data, year);
    assert c.id == MaxId(invoices) + 1;
    assert c.items == ItemsOf(data.items);
    assert c.invoiceNumber == DocumentNumber("INV", year, |invoices| + 1);
    SequenceOfNumber("INV", year, |invoices| + 1);
  }

  /** Appending a record with a larger id and the next number keeps the ids distinct and the list numbered in order. */
  lemma AppendKeepsNumbering(invoices: seq<Invoice>, created: Invoice)
    requires DistinctIds(invoices) && NumberedInOrder(invoices)
    requires forall i :: 0 <= i < |invoices| ==> invoices[i].id < created.id
    requires SequenceOf("INV", created.invoiceNumber) == Some(|invoices| + 1)
    ensures DistinctIds(invoices + [created])
    ensures NumberedInOrder(invoices + [created])
  {
    var s := invoices + [created];
    assert forall i :: 0 <= i < |invoices| ==> s[i] == invoices[i];
  }

  /**
   * The module-level `mockInvoices` array, which `handleCreateInvoice`
   * pushes onto, together with the view's `selectedInvoice` and
   * `showPreviewModal` state.
   */
  class InvoiceStore {
    var invoices: seq<Invoice>
    /** The index of `selectedInvoice` in the list. */
    var selected: Option<nat>
    var showPreview: bool

    /**
     * The list is never empty (so `Math.max` of the ids is a number), its
     * ids are distinct, and the invoice at index `i` is numbered `i + 1`.
     */
    ghost predicate Valid()
      reads this
    {
      |invoices| >= 1 && DistinctIds(invoices) && NumberedInOrder(invoices)
    }

    constructor ()
      ensures Valid()
      ensures invoices == MockInvoices() && selected == None && !showPreview
    {
      SeedIds();
      SeedNumbers();
      selected := None;
      showPreview := false;
      invoices := MockInvoices();
    }

    /** `handlePreviewInvoice` on the invoice at index `k`. */
    method Preview(k: nat)
      requires Valid() && k < |invoices|
      modifies this
      ensures Valid() && invoices == old(invoices)
      ensures selected == Some(k) && showPreview
    {
      selected := Some(k);
      showPreview := true;
    }

    /** `handleCreateInvoice`; `year` is the current calendar year. */
    method Create(data: InvoiceForm.InvoicePayload, year: nat) returns (created: Invoice)
      requires Valid()
      modifies this
      ensures Valid()
      ensures invoices == old(invoices) + [created]
      ensures created == NewInvoice(old(invoices), data, year)
      ensures selected == Some(|old(invoices)|) && showPreview
    {
      created := NewInvoice(invoices, data, year);
      selected := Some(|invoices|);
      showPreview := true;
      NewInvoiceContents(invoices, data, year);
      AppendKeepsNumbering(invoices, created);
      invoices := invoices + [created];
    }
  }

  /** A subsidiary chosen in the form's select (its id as a numeral) comes back as that id. */
  lemma CreatedSubsidiaryFromSelect(sid: nat)
    ensures ParseInt(IntString(sid)) == Some(sid)
  {
    ParseIntOfNumeral(sid);
  }
}
