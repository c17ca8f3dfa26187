/**
 * The Delivery Notes view (src/components/DeliveryNotes.tsx): the note
 * list, its search / status / subsidiary filter, the Items figure and the
 * Complete / Partial badge of each item, and `handleCreateDeliveryNote`,
 * which turns a submitted form into a new Pending note with nothing
 * delivered yet, appends it in place and opens it in the preview.
 */
module DeliveryNotes {
  import opened Base
  import opened Text
  import opened Access
  import opened Numbering
  import DeliveryNoteForm

  datatype DeliveryStatus = Pending | InTransit | Delivered | Failed

  datatype DeliveryItem = DeliveryItem(description: string, quantity: int, delivered: int)

  /** `subsidiaryId` is `None` when `parseInt` gave NaN. */
  datatype DeliveryNote = DeliveryNote(
    id: int,
    deliveryNumber: string,
    orderNumber: string,
    customerName: string,
    customerPhone: string,
    customerAddress: string,
    items: seq<DeliveryItem>,
    status: DeliveryStatus,
    deliveryDate: string,
    deliveredDate: Option<string>,
    driverName: string,
    vehicleNumber: string,
    subsidiaryId: Option<int>)

  function MockDeliveryNotes(): seq<DeliveryNote>
  {
    [ DeliveryNote(1, "DN-2024-001", "ORD-2024-001", "Mwalimu John Kasonga", "+255712345678",
        "Mwanza, Tanzania", [DeliveryItem("Fertilizer A (50kg)", 10, 10)], Delivered,
        "2024-01-20", Some("2024-01-20"), "Hassan Mwalimu", "T123 ABC", Some(1)),
      DeliveryNote(2, "DN-2024-002", "ORD-2024-002", "Mama Grace Mwangi", "+255723456789",
        "Dar es Salaam, Tanzania", [DeliveryItem("Engine Oil (5L)", 25, 25)], InTransit,
        "2024-01-18", None, "John Kiprotich", "T456 DEF", Some(2)),
      DeliveryNote(3, "DN-2024-003", "ORD-2024-003", "Bwana Ahmed Hassan", "+255734567890",
        "Arusha, Tanzania", [DeliveryItem("Maize Flour (25kg)", 50, 50)], Delivered,
        "2024-01-18", Some("2024-01-18"), "Peter Mwangi", "T789 GHI", Some(3)) ]
  }

  /** Delivery number, customer name or order number contains the term, ignoring case. */
  predicate MatchesSearch(n: DeliveryNote, term: string)
  {
    var t := Lower(term);
    Contains(Lower(n.deliveryNumber), t) || Contains(Lower(n.customerName), t) || Contains(Lower(n.orderNumber), t)
  }

  /** The predicate of `filteredDeliveryNotes`. */
  predicate Listed(n: DeliveryNote, current: Option<User>, term: string, status: Selection<DeliveryStatus>, scope: Scope)
  {
    MatchesSearch(n, term) && Selects(status, n.status) && InViewScopeParsed(current, scope, n.subsidiaryId)
  }

  /** `filteredDeliveryNotes`. */
  function FilteredDeliveryNotes(notes: seq<DeliveryNote>, current: Option<User>, term: string,
                                 status: Selection<DeliveryStatus>, scope: Scope): seq<DeliveryNote>
  {
    Filter(n => Listed(n, current, term, status, scope), notes)
  }

  /** A note is listed iff it matches the search, the status filter and the scope rule. */
  lemma ListedIff(notes: seq<DeliveryNote>, current: Option<User>, term: string,
                  status: Selection<DeliveryStatus>, scope: Scope, n: DeliveryNote)
    ensures n in FilteredDeliveryNotes(notes, current, term, status, scope) <==>
      n in notes && MatchesSearch(n, term) && Selects(status, n.status)
      && ViewRuleParsed(RoleOf(current), HomeOf(current), scope, n.subsidiaryId)
  {
    FilterMembership(n => Listed(n, current, term, status, scope), notes, n);
  }

  lemma FilteredIsSubsequence(notes: seq<DeliveryNote>, current: Option<User>, term: string,
                              status: Selection<DeliveryStatus>, scope: Scope)
    ensures IsSubsequence(FilteredDeliveryNotes(notes, current, term, status, scope), notes)
  {
    FilterIsSubsequence(n => Listed(n, current, term, status, scope), notes);
  }

  /**
   * A non-Owner sees only notes of their own subsidiary, whatever scope is
   * selected; a note whose subsidiary is NaN is listed only for an Owner
   * under "all".
   */
  lemma ScopeOfListed(notes: seq<DeliveryNote>, current: Option<User>, term: string,
                      status: Selection<DeliveryStatus>, s1: Scope, s2: Scope)
    ensures RoleOf(current) != Some(Owner) ==>
      FilteredDeliveryNotes(notes, current, term, status, s1) == FilteredDeliveryNotes(notes, current, term, status, s2)
    ensures RoleOf(current) != Some(Owner) ==> forall n :: n in FilteredDeliveryNotes(notes, current, term, status, s1) ==>
      n.subsidiaryId.Some? && HomeOf(current) == n.subsidiaryId
    ensures forall n :: n in FilteredDeliveryNotes(notes, current, term, status, s1) && n.subsidiaryId.None? ==>
      RoleOf(current) == Some(Owner) && s1 == Any
  {
    if RoleOf(current) != Some(Owner) {
      FilterCongruent(n => Listed(n, current, term, status, s1), n => Listed(n, current, term, status, s2), notes);
    }
  }

  /** The badge of an item in the preview. */
  datatype ItemProgress = Complete | Partial

  function Progress(it: DeliveryItem): ItemProgress
  {
    if it.quantity == it.delivered then Complete else Partial
  }

  /** The Items figure of a note: `items.reduce((sum, item) => sum + item.quantity, 0)`. */
  function ItemsFigure(n: DeliveryNote): int
  {
    SumOf((it: DeliveryItem) => it.quantity, n.items)
  }

  /** `Math.max(...ids)`, over a non-empty list. */
  function MaxId(notes: seq<DeliveryNote>): (m: int)
    requires |notes| >= 1
    ensures forall i :: 0 <= i < |notes| ==> notes[i].id <= m
    ensures exists i :: 0 <= i < |notes| && notes[i].id == m
  {
    if |notes| == 1 then notes[0].id
    else
      var rest := MaxId(notes[1..]);
      if notes[0].id >= rest then notes[0].id else rest
  }

  /** One created item: the form row copied, nothing delivered yet. */
  function ItemOf(line: DeliveryNoteForm.LineItem): DeliveryItem
  {
    DeliveryItem(line.description, line.quantity, 0)
  }

  function ItemsOf(lines: seq<DeliveryNoteForm.LineItem>): (r: seq<DeliveryItem>)
    ensures |r| == |lines| && forall i :: 0 <= i < |lines| ==> r[i] == ItemOf(lines[i])
  {
    if lines == [] then [] else [ItemOf(lines[0])] + ItemsOf(lines[1..])
  }

  /** The record `handleCreateDeliveryNote` builds from the submitted values. */
  function NewNote(notes: seq<DeliveryNote>, data: DeliveryNoteForm.DeliveryNotePayload, year: nat): DeliveryNote
    requires |notes| >= 1
  {
    DeliveryNote(MaxId(notes) + 1, DocumentNumber("DN", year, |notes| + 1), data.orderNumber,
      data.customerName, data.customerPhone, data.customerAddress, ItemsOf(data.items), Pending,
      data.deliveryDate, None, data.driverName, data.vehicleNumber, ParseInt(data.subsidiaryId))
  }

  /**
   * What the new note holds: id one above the largest, the next zero-padded
   * `DN-year-NNN` number, which reads back as that sequence number, the
   * form's rows with nothing delivered, status Pending, the parsed
   * subsidiary and the form's other fields.
   */
  lemma NewNoteContents(notes: seq<DeliveryNote>, data: DeliveryNoteForm.DeliveryNotePayload, year: nat)
    requires |notes| >= 1
    ensures var c := NewNote(notes, data, year);
      && c.id == MaxId(notes) + 1
      && (forall i :: 0 <= i < |notes| ==> notes[i].id < c.id)
      && c.deliveryNumber == DocumentNumber("DN", year, |notes| + 1)
      && SequenceOf("DN", c.deliveryNumber) == Some(|notes| + 1)
      && |c.items| == |data.items|
      && (forall i :: 0 <= i < |data.items| ==>
            && c.items[i].description == data.items[i].description
            && c.items[i].quantity == data.items[i].quantity
            && c.items[i].delivered == 0)
      && c.status == Pending && c.deliveredDate.None?
      && c.subsidiaryId == ParseInt(data.subsidiaryId)
      && c.orderNumber == data.orderNumber && c.customerName == data.customerName
      && c.customerPhone == data.customerPhone && c.customerAddress == data.customerAddress
      && c.deliveryDate == data.deliveryDate && c.driverName == data.driverName
      && c.vehicleNumber == data.vehicleNumber
  {
    var c := NewNote(notes, data, year);
    assert c.id == MaxId(notes) + 1;
    assert c.items == ItemsOf(data.items);
    assert c.deliveryNumber == DocumentNumber("DN", year, |notes| + 1);
    SequenceOfNumber("DN", year, |notes| + 1);
  }

  lemma {:induction false} ItemsFigureOfForm(rows: seq<DeliveryNoteForm.ItemInput>)
    requires forall i :: 0 <= i < |rows| ==> DeliveryNoteForm.ItemValid(rows[i])
    ensures SumOf((it: DeliveryItem) => it.quantity, ItemsOf(DeliveryNoteForm.LineItems(rows))) >= |rows|
  {
    if rows != [] {
      var ls := DeliveryNoteForm.LineItems(rows);
      assert ls[1..] == DeliveryNoteForm.LineItems(rows[1..]);
      assert ItemsOf(ls)[1..] == ItemsOf(ls[1..]);
      ItemsFigureOfForm(rows[1..]);
    }
  }

  /**
   * A note created from a submitted form shows every item as Partial (each
   * quantity is at least 1 and nothing is delivered yet), and its Items
   * figure is at least its number of rows.
   */
  lemma NewNoteFromFormIsPartial(notes: seq<DeliveryNote>, f: DeliveryNoteForm.DeliveryNoteFormValues, year: nat)
    requires |notes| >= 1 && DeliveryNoteForm.Submit(f).Some?
    ensures var c := NewNote(notes, DeliveryNoteForm.Submit(f).value, year);
      && |c.items| == |f.items| >= 1
      && (forall i :: 0 <= i < |c.items| ==> Progress(c.items[i]) == Partial)
      && ItemsFigure(c) >= |c.items|
  {
    DeliveryNoteForm.ValidateEmptyIff(f);
    DeliveryNoteForm.SubmitPassesThrough(f);
    ItemsFigureOfForm(f.items);
  }

  /** The seed notes are fully delivered: every item shows Complete, including the note still In Transit. */
  lemma SeedItemsComplete()
    ensures forall k, i :: 0 <= k < |MockDeliveryNotes()| && 0 <= i < |MockDeliveryNotes()[k].items| ==>
      Progress(MockDeliveryNotes()[k].items[i]) == Complete
    ensures MockDeliveryNotes()[1].status == InTransit
  {
  }

  /** The Items figures of the seed notes are 10, 25 and 50. */
  lemma SeedItemsFigures()
    ensures ItemsFigure(MockDeliveryNotes()[0]) == 10
    ensures ItemsFigure(MockDeliveryNotes()[1]) == 25
    ensures ItemsFigure(MockDeliveryNotes()[2]) == 50
  {
    var ns := MockDeliveryNotes();
    assert ns[0].items[1..] == [] && ns[1].items[1..] == [] && ns[2].items[1..] == [];
  }

  /** The numbering of the list: the record at index `i` reads back as sequence number `i + 1`. */
  ghost predicate NumberedInOrder(notes: seq<DeliveryNote>)
  {
    forall i :: 0 <= i < |notes| ==> SequenceOf("DN", notes[i].deliveryNumber) == Some(i + 1)
  }

  ghost predicate DistinctIds(notes: seq<DeliveryNote>)
  {
    forall i, j :: 0 <= i < j < |notes| ==> notes[i].id != notes[j].id
  }

  /** Numbered in order, the document numbers are pairwise distinct. */
  lemma NumbersDistinct(notes: seq<DeliveryNote>)
    requires NumberedInOrder(notes)
    ensures forall i, j :: 0 <= i < j < |notes| ==> notes[i].deliveryNumber != notes[j].deliveryNumber
  {
    forall i, j | 0 <= i < j < |notes|
      ensures notes[i].deliveryNumber != notes[j].deliveryNumber
    {
      assert SequenceOf("DN", notes[i].deliveryNumber) != SequenceOf("DN", notes[j].deliveryNumber);
    }
  }

  /** The seed notes have the distinct ids 1, 2, 3. */
  lemma SeedIds()
    ensures |MockDeliveryNotes()| == 3 && DistinctIds(MockDeliveryNotes())
  {
    var ns := MockDeliveryNotes();
    assert forall i :: 0 <= i < 3 ==> ns[i].id == i + 1;
  }

  lemma SeedNumber(k: nat, number: string)
    requires 1 <= k < 10 && number == "DN-2024-00" + [DigitChar(k)]
    ensures SequenceOf("DN", number) == Some(k)
  {
    NumberIn2024("DN", k);
    assert "DN-2024-00" == "DN" + "-2024-00";
    assert number == DocumentNumber("DN", 2024, k);
    SequenceOfNumber("DN", 2024, k);
  }

  /** The seed notes are numbered 1, 2, 3 in 2024. */
  lemma SeedNumbers()
    ensures NumberedInOrder(MockDeliveryNotes())
  {
    var ns := MockDeliveryNotes();
    forall i | 0 <= i < 3
      ensures SequenceOf("DN", ns[i].deliveryNumber) == Some(i + 1)
    {
      SeedNumber(i + 1, ns[i].deliveryNumber);
    }
  }

  /** Appending a note with a larger id and the next number keeps the ids distinct and the list numbered in order. */
  lemma AppendKeepsNumbering(notes: seq<DeliveryNote>, created: DeliveryNote)
    requires DistinctIds(notes) && NumberedInOrder(notes)
    requires forall i :: 0 <= i < |notes| ==> notes[i].id < created.id
    requires SequenceOf("DN", created.deliveryNumber) == Some(|notes| + 1)
    ensures DistinctIds(notes + [created])
    ensures NumberedInOrder(notes + [created])
  {
    var s := notes + [created];
    assert forall i :: 0 <= i < |notes| ==> s[i] == notes[i];
  }

  /**
   * The module-level `mockDeliveryNotes` array, which
   * `handleCreateDeliveryNote` pushes onto, together with the view's
   * selected note (kept as its index in the list) and `showPreviewModal`.
   */
  class DeliveryNoteStore {
    var notes: seq<DeliveryNote>
    var selected: Option<nat>
    var showPreview: bool

    /**
     * The list is never empty (so `Math.max` of the ids is a number), its
     * ids are distinct, and the note at index `i` is numbered `i + 1`.
     */
    ghost predicate Valid()
      reads this
    {
      |notes| >= 1 && DistinctIds(notes) && NumberedInOrder(notes)
    }

    constructor ()
      ensures Valid()
      ensures notes == MockDeliveryNotes() && selected == None && !showPreview
    {
      SeedIds();
      SeedNumbers();
      selected := None;
      showPreview := false;
      notes := MockDeliveryNotes();
    }

    /** `handlePreviewDeliveryNote` on the note at index `k`. */
    method Preview(k: nat)
      requires Valid() && k < |notes|
      modifies this
      ensures Valid() && notes == old(notes)
      ensures selected == Some(k) && showPreview
    {
      selected := Some(k);
      showPreview := true;
    }

    /** `handleCreateDeliveryNote`; `year` is the current calendar year. */
    method Create(data: DeliveryNoteForm.DeliveryNotePayload, year: nat) returns (created: DeliveryNote)
      requires Valid()
      modifies this
      ensures Valid()
      ensures notes == old(notes) + [created]
      ensures created == NewNote(old(notes), data, year)
      ensures selected == Some(|old(notes)|) && showPreview
    {
      created := NewNote(notes, data, year);
      selected := Some(|notes|);
      showPreview := true;
      NewNoteContents(notes, data, year);
      AppendKeepsNumbering(notes, created);
      notes := notes + [created];
    }
  }
}
