/**
 * The Create Delivery Note form (src/components/CreateDeliveryNoteForm.tsx):
 * the validation schema, the default values, the item-list editing and the
 * submit handler, which passes the validated values on unchanged.
 */
module DeliveryNoteForm {
  import opened Base
  import opened Text
  import opened Access

  /** One item row; the quantity comes from `parseInt`, `None` being NaN. */
  datatype ItemInput = ItemInput(description: string, quantity: Option<int>)

  datatype DeliveryNoteFormValues = DeliveryNoteFormValues(
    orderNumber: string,
    customerName: string,
    customerPhone: string,
    customerAddress: string,
    subsidiaryId: string,
    deliveryDate: string,
    driverName: string,
    vehicleNumber: string,
    items: seq<ItemInput>,
    notes: Option<string>)

  /** An item row after validation. */
  datatype LineItem = LineItem(description: string, quantity: int)

  /** The validated values as the Delivery Notes view receives them. */
  datatype DeliveryNotePayload = DeliveryNotePayload(
    orderNumber: string,
    customerName: string,
    customerPhone: string,
    customerAddress: string,
    subsidiaryId: string,
    deliveryDate: string,
    driverName: string,
    vehicleNumber: string,
    items: seq<LineItem>,
    notes: Option<string>)

  datatype FieldError =
    | OrderNumberRequired
    | CustomerNameRequired
    | PhoneRequired
    | AddressRequired
    | SubsidiaryRequired
    | DeliveryDateRequired
    | DriverNameRequired
    | VehicleNumberRequired
    | NoItems
    | DescriptionRequired(row: nat)
    | QuantityNotANumber(row: nat)
    | QuantityTooSmall(row: nat)

  function Message(e: FieldError): string
  {
    match e
    case OrderNumberRequired => "Order number is required"
    case CustomerNameRequired => "Customer name is required"
    case PhoneRequired => "Phone number is required"
    case AddressRequired => "Address is required"
    case SubsidiaryRequired => "Subsidiary is required"
    case DeliveryDateRequired => "Delivery date is required"
    case DriverNameRequired => "Driver name is required"
    case VehicleNumberRequired => "Vehicle number is required"
    case NoItems => "At least one item is required"
    case DescriptionRequired(_) => "Description is required"
    case QuantityNotANumber(_) => "Expected number, received nan"
    case QuantityTooSmall(_) => "Quantity must be at least 1"
  }

  predicate ItemValid(it: ItemInput)
  {
    |it.description| >= 1 && it.quantity.Some? && it.quantity.value >= 1
  }

  /** The schema as one predicate: every text field filled in and at least one valid row; notes are optional. */
  predicate SchemaValid(f: DeliveryNoteFormValues)
  {
    |f.orderNumber| >= 1 && |f.customerName| >= 1 && |f.customerPhone| >= 1
    && |f.customerAddress| >= 1 && |f.subsidiaryId| >= 1 && |f.deliveryDate| >= 1
    && |f.driverName| >= 1 && |f.vehicleNumber| >= 1
    && |f.items| >= 1 && forall i :: 0 <= i < |f.items| ==> ItemValid(f.items[i])
  }

  function ItemErrors(row: nat, it: ItemInput): seq<FieldError>
  {
    (if |it.description| >= 1 then [] else [DescriptionRequired(row)])
    + (match it.quantity
       case None => [QuantityNotANumber(row)]
       case Some(q) => if q >= 1 then [] else [QuantityTooSmall(row)])
  }

  function RowErrors(from: nat, items: seq<ItemInput>): seq<FieldError>
    decreases |items|
  {
    if items == [] then [] else ItemErrors(from, items[0]) + RowErrors(from + 1, items[1..])
  }

  /** `deliveryNoteSchema.safeParse`: every rule that the values break. */
  function Validate(f: DeliveryNoteFormValues): seq<FieldError>
  {
    (if |f.orderNumber| >= 1 then [] else [OrderNumberRequired])
    + (if |f.customerName| >= 1 then [] else [CustomerNameRequired])
    + (if |f.customerPhone| >= 1 then [] else [PhoneRequired])
    + (if |f.customerAddress| >= 1 then [] else [AddressRequired])
    + (if |f.subsidiaryId| >= 1 then [] else [SubsidiaryRequired])
    + (if |f.deliveryDate| >= 1 then [] else [DeliveryDateRequired])
    + (if |f.driverName| >= 1 then [] else [DriverNameRequired])
    + (if |f.vehicleNumber| >= 1 then [] else [VehicleNumberRequired])
    + (if |f.items| >= 1 then [] else [NoItems])
    + RowErrors(0, f.items)
  }

  lemma {:induction false} RowErrorsEmpty(from: nat, items: seq<ItemInput>)
    ensures RowErrors(from, items) == [] <==> forall i :: 0 <= i < |items| ==> ItemValid(items[i])
    decreases |items|
  {
    if items != [] {
      RowErrorsEmpty(from + 1, items[1..]);
      assert forall i :: 1 <= i < |items| ==> items[i] == items[1..][i - 1];
    }
  }

  /** The error list is empty exactly when every rule of the schema holds. */
  lemma ValidateEmptyIff(f: DeliveryNoteFormValues)
    ensures Validate(f) == [] <==> SchemaValid(f)
  {
    RowErrorsEmpty(0, f.items);
  }

  /** A row whose quantity is not a number is reported as such, and never as too small. */
  lemma NaNQuantityReported(f: DeliveryNoteFormValues, k: nat)
    requires k < |f.items| && f.items[k].quantity.None?
    ensures !SchemaValid(f)
    ensures Validate(f) != []
  {
    ValidateEmptyIff(f);
  }

  /** The row the Add Item button appends, and the only row of a fresh form. */
  const BlankItem: ItemInput := ItemInput("", Some(1))

  /** `currentUser?.subsidiaryId?.toString() || ""`. */
  function DefaultSubsidiaryField(current: Option<User>): string
  {
    match HomeOf(current)
    case None => ""
    case Some(sid) => IntString(sid)
  }

  /** The form's default values; `today` is the clock's date. */
  function DefaultValues(current: Option<User>, today: string): DeliveryNoteFormValues
  {
    DeliveryNoteFormValues("", "", "", "", DefaultSubsidiaryField(current), today, "", "", [BlankItem], Some(""))
  }

  /**
   * A fresh form has one row of quantity 1 and the user's subsidiary, and
   * cannot be submitted before the text fields and the description are filled in.
   */
  lemma DefaultFormShape(current: Option<User>, today: string)
    ensures var f := DefaultValues(current, today);
      && f.items == [ItemInput("", Some(1))]
      && (f.subsidiaryId == "" <==> HomeOf(current).None?)
      && (HomeOf(current).Some? && HomeOf(current).value >= 0 ==>
            ParseInt(f.subsidiaryId) == HomeOf(current))
      && !SchemaValid(f)
      && Validate(f) != []
  {
    var f := DefaultValues(current, today);
    ValidateEmptyIff(f);
    if HomeOf(current).Some? && HomeOf(current).value >= 0 {
      ParseIntOfNumeral(HomeOf(current).value);
    }
  }

  function ToLine(it: ItemInput): LineItem
    requires ItemValid(it)
  {
    LineItem(it.description, it.quantity.value)
  }

  function LineItems(items: seq<ItemInput>): (r: seq<LineItem>)
    requires forall i :: 0 <= i < |items| ==> ItemValid(items[i])
    ensures |r| == |items|
    ensures forall i :: 0 <= i < |items| ==> r[i] == ToLine(items[i])
  {
    if items == [] then [] else [ToLine(items[0])] + LineItems(items[1..])
  }

  /** `handleFormSubmit`, reached only when the schema accepts the values. */
  function Submit(f: DeliveryNoteFormValues): (r: Option<DeliveryNotePayload>)
    ensures r.Some? <==> Validate(f) == []
  {
    if Validate(f) != [] then None
    else
      ValidateEmptyIff(f);
      Some(DeliveryNotePayload(f.orderNumber, f.customerName, f.customerPhone, f.customerAddress,
        f.subsidiaryId, f.deliveryDate, f.driverName, f.vehicleNumber, LineItems(f.items), f.notes))
  }

  /**
   * The submitted values are the entered ones, unconverted: the subsidiary
   * stays the text of the select, and every row keeps its description and
   * quantity, which is at least 1.
   */
  lemma SubmitPassesThrough(f: DeliveryNoteFormValues)
    requires Submit(f).Some?
    ensures var p := Submit(f).value;
      && p.orderNumber == f.orderNumber && p.customerName == f.customerName
      && p.customerPhone == f.customerPhone && p.customerAddress == f.customerAddress
      && p.subsidiaryId == f.subsidiaryId && p.deliveryDate == f.deliveryDate
      && p.driverName == f.driverName && p.vehicleNumber == f.vehicleNumber && p.notes == f.notes
      && |p.items| == |f.items| >= 1
      && forall i :: 0 <= i < |p.items| ==>
           && p.items[i].description == f.items[i].description && |p.items[i].description| >= 1
           && Some(p.items[i].quantity) == f.items[i].quantity && p.items[i].quantity >= 1
  {
    ValidateEmptyIff(f);
  }

  /** The form as it changes while the user fills it in. */
  class DeliveryNoteFormModel {
    const defaults: DeliveryNoteFormValues
    /** Whether the subsidiary select is enabled: only for an Owner. */
    const owner: bool
    var values: DeliveryNoteFormValues

    /**
     * The item list is never empty, and for anyone but an Owner the
     * subsidiary is still the default, the select being disabled.
     */
    ghost predicate Valid()
      reads this
    {
      |values.items| >= 1 && |defaults.items| >= 1
      && (owner || values.subsidiaryId == defaults.subsidiaryId)
    }

    constructor (current: Option<User>, today: string)
      ensures Valid()
      ensures defaults == DefaultValues(current, today) && values == defaults
      ensures owner <==> RoleOf(current) == Some(Owner)
    {
      defaults := DefaultValues(current, today);
      owner := RoleOf(current) == Some(Owner);
      values := DefaultValues(current, today);
    }

    /**
     * Typing into the inputs: any values with the same number of rows; the
     * subsidiary changes only through the select, which only an Owner can use.
     */
    method Edit(f: DeliveryNoteFormValues)
      requires Valid() && |f.items| == |values.items|
      requires owner || f.subsidiaryId == values.subsidiaryId
      modifies this
      ensures Valid() && values == f
      ensures !owner ==> values.subsidiaryId == defaults.subsidiaryId
    {
      values := f;
    }

    /** The Add Item button. */
    method AppendItem()
      requires Valid()
      modifies this
      ensures Valid()
      ensures values == old(values).(items := old(values).items + [BlankItem])
    {
      values := values.(items := values.items + [BlankItem]);
    }

    /** The remove button of row `k`, disabled while only one row is left. */
    method RemoveItem(k: nat)
      requires Valid() && k < |values.items|
      modifies this
      ensures Valid()
      ensures old(|values.items|) == 1 ==> values == old(values)
      ensures old(|values.items|) > 1 ==>
        values == old(values).(items := old(values).items[..k] + old(values).items[k + 1..])
    {
      if |values.items| != 1 {
        values := values.(items := values.items[..k] + values.items[k + 1..]);
      }
    }

    /** The Create button: hand the values over when valid, then `reset` to the defaults. */
    method SubmitForm() returns (payload: Option<DeliveryNotePayload>)
      requires Valid()
      modifies this
      ensures Valid()
      ensures payload == Submit(old(values))
      ensures payload.Some? && !owner ==> payload.value.subsidiaryId == defaults.subsidiaryId
      ensures payload.Some? ==> values == defaults
      ensures payload.None? ==> values == old(values)
    {
      payload := Submit(values);
      if payload.Some? {
        values := defaults;
      }
    }
  }
}
