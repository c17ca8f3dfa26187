/**
 * The Create Invoice form (src/components/CreateInvoiceForm.tsx): the
 * validation schema, the subtotal / VAT / total computed from the item
 * rows, the default values, the item-list editing and the submitted
 * payload.
 */
module InvoiceForm {
  import opened Base
  import opened Text
  import opened Access

  /**
   * One item row as the form holds it. Quantity comes from `parseInt` and
   * unit price from `parseFloat` of the input text; `None` stands for the
   * NaN those give on text that is not a number.
   */
  datatype ItemInput = ItemInput(description: string, quantity: Option<int>, unitPrice: Option<real>)

  datatype InvoiceFormValues = InvoiceFormValues(
    customerName: string,
    customerPhone: string,
    customerEmail: string,
    subsidiaryId: string,
    issueDate: string,
    dueDate: string,
    items: seq<ItemInput>,
    notes: Option<string>)

  /** An item row after validation: both numbers are present. */
  datatype LineItem = LineItem(description: string, quantity: int, unitPrice: real)

  /** What `handleFormSubmit` hands to the Invoices view. */
  datatype InvoicePayload = InvoicePayload(
    customerName: string,
    customerPhone: string,
    customerEmail: string,
    subsidiaryId: string,
    issueDate: string,
    dueDate: string,
    items: seq<LineItem>,
    notes: Option<string>,
    subtotal: real,
    tax: real,
    total: real)

  /** The schema's findings, one per violated rule. */
  datatype FieldError =
    | CustomerNameRequired
    | PhoneRequired
    | InvalidEmail
    | SubsidiaryRequired
    | IssueDateRequired
    | DueDateRequired
    | NoItems
    | DescriptionRequired(row: nat)
    | QuantityNotANumber(row: nat)
    | QuantityTooSmall(row: nat)
    | PriceNotANumber(row: nat)
    | PriceTooSmall(row: nat)

  function Message(e: FieldError): string
  {
    match e
    case CustomerNameRequired => "Customer name is required"
    case PhoneRequired => "Phone number is required"
    case InvalidEmail => "Invalid email address"
    case SubsidiaryRequired => "Subsidiary is required"
    case IssueDateRequired => "Issue date is required"
    case DueDateRequired => "Due date is required"
    case NoItems => "At least one item is required"
    case DescriptionRequired(_) => "Description is required"
    case QuantityNotANumber(_) => "Expected number, received nan"
    case QuantityTooSmall(_) => "Quantity must be at least 1"
    case PriceNotANumber(_) => "Expected number, received nan"
    case PriceTooSmall(_) => "Price must be at least 1"
  }

  /** An item row the schema accepts. */
  predicate ItemValid(it: ItemInput)
  {
    |it.description| >= 1
    && it.quantity.Some? && it.quantity.value >= 1
    && it.unitPrice.Some? && it.unitPrice.value >= 1.0
  }

  /** The schema as one predicate; `isEmail` stands for the library's email check. */
  predicate SchemaValid(f: InvoiceFormValues, isEmail: string -> bool)
  {
    |f.customerName| >= 1 && |f.customerPhone| >= 1 && isEmail(f.customerEmail)
    && |f.subsidiaryId| >= 1 && |f.issueDate| >= 1 && |f.dueDate| >= 1
    && |f.items| >= 1 && forall i :: 0 <= i < |f.items| ==> ItemValid(f.items[i])
  }

  function ItemErrors(row: nat, it: ItemInput): seq<FieldError>
  {
    (if |it.description| >= 1 then [] else [DescriptionRequired(row)])
    + (match it.quantity
       case None => [QuantityNotANumber(row)]
       case Some(q) => if q >= 1 then [] else [QuantityTooSmall(row)])
    + (match it.unitPrice
       case None => [PriceNotANumber(row)]
       case Some(p) => if p >= 1.0 then [] else [PriceTooSmall(row)])
  }

  function RowErrors(from: nat, items: seq<ItemInput>): seq<FieldError>
    decreases |items|
  {
    if items == [] then [] else ItemErrors(from, items[0]) + RowErrors(from + 1, items[1..])
  }

  /** `invoiceSchema.safeParse`: every rule that the values break. */
  function Validate(f: InvoiceFormValues, isEmail: string -> bool): seq<FieldError>
  {
    (if |f.customerName| >= 1 then [] else [CustomerNameRequired])
    + (if |f.customerPhone| >= 1 then [] else [PhoneRequired])
    + (if isEmail(f.customerEmail) then [] else [InvalidEmail])
    + (if |f.subsidiaryId| >= 1 then [] else [SubsidiaryRequired])
    + (if |f.issueDate| >= 1 then [] else [IssueDateRequired])
    + (if |f.dueDate| >= 1 then [] else [DueDateRequired])
    + (if |f.items| >= 1 then [] else [NoItems])
    + RowErrors(0, f.items)
  }

  lemma {:induction false} RowErrorsEmpty(from: nat, items: seq<ItemInput>)
    ensures RowErrors(from, items) == [] <==> forall i :: 0 <= i < |items| ==> ItemValid(items[i])
    decreases |items|
  {
    if items != [] {
      RowErrorsEmpty(from + 1, items[1..]);
      assert forall i :: 1 <= i < |items| ==> items[i] == items[1..][i - 1];
    }
  }

  /** The error list is empty exactly when every rule of the schema holds. */
  lemma ValidateEmptyIff(f: InvoiceFormValues, isEmail: string -> bool)
    ensures Validate(f, isEmail) == [] <==> SchemaValid(f, isEmail)
  {
    RowErrorsEmpty(0, f.items);
  }

  /** `x || 0` on a parsed number: NaN (and 0) count as 0. */
  function QuantityOrZero(q: Option<int>): int
  {
    if q.Some? then q.value else 0
  }

  function PriceOrZero(p: Option<real>): real
  {
    if p.Some? then p.value else 0.0
  }

  function LineAmount(it: ItemInput): real
  {
    QuantityOrZero(it.quantity) as real * PriceOrZero(it.unitPrice)
  }

  /** `subtotal`: the sum over the rows of quantity times unit price. */
  function Subtotal(items: seq<ItemInput>): real
  {
    if items == [] then 0.0 else LineAmount(items[0]) + Subtotal(items[1..])
  }

  /** `taxAmount`: the VAT percentage of the subtotal. */
  function TaxAmount(subtotal: real, rate: int): real
  {
    subtotal * (rate as real / 100.0)
  }

  /** `total`. */
  function Total(subtotal: real, rate: int): real
  {
    subtotal + TaxAmount(subtotal, rate)
  }

  /** Adding a row adds its amount to the subtotal. */
  lemma {:induction false} SubtotalAppend(items: seq<ItemInput>, it: ItemInput)
    ensures Subtotal(items + [it]) == Subtotal(items) + LineAmount(it)
  {
    if items != [] {
      assert (items + [it])[1..] == items[1..] + [it];
      SubtotalAppend(items[1..], it);
    }
  }

  /** Removing a row takes its amount off the subtotal. */
  lemma {:induction false} SubtotalRemove(items: seq<ItemInput>, k: nat)
    requires k < |items|
    ensures Subtotal(items[..k] + items[k + 1..]) == Subtotal(items) - LineAmount(items[k])
  {
    if k > 0 {
      assert (items[..k] + items[k + 1..])[1..] == items[1..][..k - 1] + items[1..][k..];
      SubtotalRemove(items[1..], k - 1);
    } else {
      assert items[..k] + items[k + 1..] == items[1..];
    }
  }

  /** Every accepted row has an amount of at least 1, so the subtotal of an accepted list is at least its length. */
  lemma {:induction false} SubtotalOfValidItems(items: seq<ItemInput>)
    requires forall i :: 0 <= i < |items| ==> ItemValid(items[i])
    ensures Subtotal(items) >= |items| as real
  {
    if items != [] {
      var q, p := items[0].quantity.value as real, items[0].unitPrice.value;
      assert q * p >= 1.0 * p by {
        assert q >= 1.0 && p >= 1.0;
      }
      SubtotalOfValidItems(items[1..]);
    }
  }

  /** VAT of 0% leaves the total equal to the subtotal; 18% adds 18 hundredths. */
  lemma TotalByRate(subtotal: real)
    ensures Total(subtotal, 0) == subtotal
    ensures Total(subtotal, 18) == subtotal * 1.18
    ensures TaxAmount(subtotal, 18) == subtotal * 0.18
  {
  }

  /** The row the Add Item button appends, and the only row of a fresh form. */
  const BlankItem: ItemInput := ItemInput("", Some(1), Some(0.0))

  /** A blank row has amount 0: adding one leaves subtotal, VAT and total as they were. */
  lemma AppendBlankKeepsTotals(items: seq<ItemInput>, rate: int)
    ensures Subtotal(items + [BlankItem]) == Subtotal(items)
    ensures Total(Subtotal(items + [BlankItem]), rate) == Total(Subtotal(items), rate)
  {
    SubtotalAppend(items, BlankItem);
  }

  /** `currentUser?.subsidiaryId?.toString() || ""`. */
  function DefaultSubsidiaryField(current: Option<User>): string
  {
    match HomeOf(current)
    case None => ""
    case Some(sid) => IntString(sid)
  }

  /** The subsidiary field starts empty exactly when the user has no subsidiary, and otherwise holds its numeral. */
  lemma DefaultSubsidiaryFieldIff(current: Option<User>)
    ensures DefaultSubsidiaryField(current) == "" <==> HomeOf(current).None?
    ensures HomeOf(current).Some? && HomeOf(current).value >= 0 ==>
      ParseDigits(DefaultSubsidiaryField(current)) == HomeOf(current).value
  {
    if HomeOf(current).Some? && HomeOf(current).value >= 0 {
      ParseDecimalString(HomeOf(current).value);
    }
  }

  /** The form's default values; `today` and `dueDay` are read from the clock by the source. */
  function DefaultValues(current: Option<User>, today: string, dueDay: string): InvoiceFormValues
  {
    InvoiceFormValues("", "", "", DefaultSubsidiaryField(current), today, dueDay, [BlankItem], Some(""))
  }

  /** A fresh form cannot be submitted as it stands: its one row has a unit price of 0. */
  lemma DefaultFormRejected(current: Option<User>, today: string, dueDay: string, isEmail: string -> bool)
    ensures PriceTooSmall(0) in Validate(DefaultValues(current, today, dueDay), isEmail)
    ensures CustomerNameRequired in Validate(DefaultValues(current, today, dueDay), isEmail)
    ensures !SchemaValid(DefaultValues(current, today, dueDay), isEmail)
    ensures Subtotal(DefaultValues(current, today, dueDay).items) == 0.0
  {
    var f := DefaultValues(current, today, dueDay);
    ValidateEmptyIff(f, isEmail);
    assert ItemErrors(0, BlankItem) == [DescriptionRequired(0), PriceTooSmall(0)];
    assert RowErrors(0, f.items) == ItemErrors(0, BlankItem);
  }

  function ToLine(it: ItemInput): LineItem
    requires ItemValid(it)
  {
    LineItem(it.description, it.quantity.value, it.unitPrice.value)
  }

  /** The validated rows as numbers: the same rows, in the same order. */
  function LineItems(items: seq<ItemInput>): (r: seq<LineItem>)
    requires forall i :: 0 <= i < |items| ==> ItemValid(items[i])
    ensures |r| == |items|
    ensures forall i :: 0 <= i < |items| ==> r[i] == ToLine(items[i])
  {
    if items == [] then [] else [ToLine(items[0])] + LineItems(items[1..])
  }

  /**
   * `handleFormSubmit`, reached only when the schema accepts the values:
   * the values as entered plus the subtotal, the VAT amount and the total
   * at the current rate; the subsidiary stays a string.
   */
  function Submit(f: InvoiceFormValues, rate: int, isEmail: string -> bool): (r: Option<InvoicePayload>)
    ensures r.Some? <==> Validate(f, isEmail) == []
  {
    if Validate(f, isEmail) != [] then None
    else
      ValidateEmptyIff(f, isEmail);
      var sub := Subtotal(f.items);
      Some(InvoicePayload(f.customerName, f.customerPhone, f.customerEmail, f.subsidiaryId,
        f.issueDate, f.dueDate, LineItems(f.items), f.notes, sub, TaxAmount(sub, rate), Total(sub, rate)))
  }

  /** A submitted payload carries the entered values unchanged and figures that add up. */
  lemma SubmittedPayload(f: InvoiceFormValues, rate: int, isEmail: string -> bool)
    requires Submit(f, rate, isEmail).Some?
    ensures var p := Submit(f, rate, isEmail).value;
      && p.subsidiaryId == f.subsidiaryId && |p.subsidiaryId| >= 1
      && p.customerName == f.customerName && p.customerEmail == f.customerEmail && isEmail(p.customerEmail)
      && |p.items| == |f.items| >= 1
      && p.total == p.subtotal + p.tax
      && p.subtotal >= |p.items| as real
      && (rate == 0 ==> p.total == p.subtotal)
  {
    ValidateEmptyIff(f, isEmail);
    SubtotalOfValidItems(f.items);
  }

  /** The VAT drop-down: `setTax(parseInt(value))` with the option values "0" and "18". */
  predicate IsVatOption(v: string)
  {
    v == "0" || v == "18"
  }

  /** The form as it changes while the user fills it in. */
  class InvoiceFormModel {
    /** The default values, computed once when the form is created and restored by `reset`. */
    const defaults: InvoiceFormValues
    /** Whether the subsidiary select is enabled: only for an Owner. */
    const owner: bool
    var values: InvoiceFormValues
    var rate: int

    /**
     * At least one row, VAT 0 or 18, and for anyone but an Owner the
     * subsidiary still the default, the select being disabled.
     */
    ghost predicate Valid()
      reads this
    {
      |values.items| >= 1 && |defaults.items| >= 1 && (rate == 0 || rate == 18)
      && (owner || values.subsidiaryId == defaults.subsidiaryId)
    }

    constructor (current: Option<User>, today: string, dueDay: string)
      ensures Valid()
      ensures defaults == DefaultValues(current, today, dueDay) && values == defaults
      ensures owner <==> RoleOf(current) == Some(Owner)
      ensures rate == 18
    {
      defaults := DefaultValues(current, today, dueDay);
      owner := RoleOf(current) == Some(Owner);
      values := DefaultValues(current, today, dueDay);
      rate := 18;
    }

    /**
     * Typing into the inputs: any values with the same number of rows; the
     * subsidiary changes only through the select, which only an Owner can use.
     */
    method Edit(f: InvoiceFormValues)
      requires Valid() && |f.items| == |values.items|
      requires owner || f.subsidiaryId == values.subsidiaryId
      modifies this
      ensures Valid() && values == f && rate == old(rate)
      ensures !owner ==> values.subsidiaryId == defaults.subsidiaryId
    {
      values := f;
    }

    /** The Add Item button. */
    method AppendItem()
      requires Valid()
      modifies this
      ensures Valid() && rate == old(rate)
      ensures values == old(values).(items := old(values).items + [BlankItem])
      ensures Subtotal(values.items) == Subtotal(old(values).items)
    {
      AppendBlankKeepsTotals(values.items, rate);
      values := values.(items := values.items + [BlankItem]);
    }

    /** The remove button of row `k`, disabled while only one row is left. */
    method RemoveItem(k: nat)
      requires Valid() && k < |values.items|
      modifies this
      ensures Valid() && rate == old(rate)
      ensures old(|values.items|) == 1 ==> values == old(values)
      ensures old(|values.items|) > 1 ==>
        values == old(values).(items := old(values).items[..k] + old(values).items[k + 1..])
      ensures old(|values.items|) > 1 ==>
        Subtotal(values.items) == Subtotal(old(values).items) - LineAmount(old(values).items[k])
    {
      if |values.items| != 1 {
        SubtotalRemove(values.items, k);
        values := values.(items := values.items[..k] + values.items[k + 1..]);
      }
    }

    /** The VAT drop-down. */
    method SetVat(v: string)
      requires Valid() && IsVatOption(v)
      modifies this
      ensures Valid() && values == old(values)
      ensures v == "0" ==> rate == 0
      ensures v == "18" ==> rate == 18
    {
      rate := if v == "0" then 0 else 18;
    }

    /**
     * The Create button: when the schema accepts the values, hand over the
     * payload and `reset` the form to its defaults; the VAT rate is React
     * state outside the form and survives the reset.
     */
    method SubmitForm(isEmail: string -> bool) returns (payload: Option<InvoicePayload>)
      requires Valid()
      modifies this
      ensures Valid() && rate == old(rate)
      ensures payload == Submit(old(values), old(rate), isEmail)
      ensures payload.Some? && !owner ==> payload.value.subsidiaryId == defaults.subsidiaryId
      ensures payload.Some? ==> values == defaults
      ensures payload.None? ==> values == old(values)
    {
      payload := Submit(values, rate, isEmail);
      if payload.Some? {
        values := defaults;
      }
    }
  }
}
