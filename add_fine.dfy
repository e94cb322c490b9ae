/**
 * The add-fine form of `src/components/AddFine.tsx`: the form's string fields,
 * the type selector, the required-field check and the `Omit<Fine, 'id'>` record
 * handed to `onAddFine`. `parseFloat` of the amount is a given function to pence,
 * and the generated id and today's date are parameters.
 */
module AddFine {
  import opened Wrappers
  import opened Fines

  /** The string each `Fine['type']` is written as. */
  function TypeValue(t: FineType): string {
    match t
    case Speeding => "speeding"
    case Parking => "parking"
    case Dartford => "dartford"
    case Mot => "mot"
    case Insurance => "insurance"
    case Congestion => "congestion"
    case OtherType => "other"
  }

  /** The `Fine['type']` a string names, if any. */
  function TypeOf(s: string): (t: Option<FineType>)
    ensures t.Some? ==> TypeValue(t.value) == s
  {
    if s == "speeding" then Some(Speeding)
    else if s == "parking" then Some(Parking)
    else if s == "dartford" then Some(Dartford)
    else if s == "mot" then Some(Mot)
    else if s == "insurance" then Some(Insurance)
    else if s == "congestion" then Some(Congestion)
    else if s == "other" then Some(OtherType)
    else None
  }

  /** Every type's string names it back: the enumeration's strings are distinct. */
  lemma TypeValueRoundTrip(t: FineType)
    ensures TypeOf(TypeValue(t)) == Some(t)
  {
  }

  /** One entry of the type selector. */
  datatype TypeOption = TypeOption(value: string, caption: string)

  /** `fineTypes`, in the selector's order. */
  const FineTypes: seq<TypeOption> := [
    TypeOption("parking", "Parking Fine"),
    TypeOption("speeding", "Speeding Fine"),
    TypeOption("dartford", "Dartford Crossing Penalty"),
    TypeOption("congestion", "Congestion Charge Penalty"),
    TypeOption("other", "Other Fine/Penalty")
  ]

  /** A type the selector lets the user pick. */
  predicate Selectable(t: FineType) {
    exists i :: 0 <= i < |FineTypes| && FineTypes[i].value == TypeValue(t)
  }

  /**
   * Every option of the selector names a member of `Fine['type']`; the selector
   * offers every type except `mot` and `insurance`.
   */
  lemma FineTypesAreTypes()
    ensures forall i :: 0 <= i < |FineTypes| ==> TypeOf(FineTypes[i].value).Some?
    ensures forall t: FineType :: Selectable(t) <==> t != Mot && t != Insurance
  {
    forall t: FineType
      ensures Selectable(t) <==> t != Mot && t != Insurance
    {
      match t
      case Parking => assert FineTypes[0].value == TypeValue(t);
      case Speeding => assert FineTypes[1].value == TypeValue(t);
      case Dartford => assert FineTypes[2].value == TypeValue(t);
      case Congestion => assert FineTypes[3].value == TypeValue(t);
      case OtherType => assert FineTypes[4].value == TypeValue(t);
      case Mot => assert forall i :: 0 <= i < |FineTypes| ==> FineTypes[i].value != "mot";
      case Insurance => assert forall i :: 0 <= i < |FineTypes| ==> FineTypes[i].value != "insurance";
    }
  }

  /** `fineTypes.find(t => t.value === v)?.label`. */
  function LabelOf(v: string): (l: Option<string>)
    ensures l.Some? <==> exists i :: 0 <= i < |FineTypes| && FineTypes[i].value == v
  {
    LabelFrom(FineTypes, v)
  }

  function LabelFrom(options: seq<TypeOption>, v: string): (l: Option<string>)
    ensures l.Some? <==> exists i :: 0 <= i < |options| && options[i].value == v
    ensures l.Some? ==> exists i :: 0 <= i < |options| && options[i].value == v && options[i].caption == l.value
  {
    if options == [] then None
    else if options[0].value == v then Some(options[0].caption)
    else
      var l := LabelFrom(options[1..], v);
      assert forall i :: 0 < i < |options| ==> options[i] == options[1..][i - 1];
      l
  }

  /** The form's state; every field but the type is the text of its input. */
  datatype Form = Form(
    fineType: FineType,
    title: string,
    description: string,
    amount: string,
    dueDate: string,
    issueDate: string,
    referenceNumber: string,
    location: string,
    vehicleReg: string)

  /** The initial form: type parking, issue date today, everything else empty. */
  function InitialForm(today: string): Form {
    Form(Parking, "", "", "", "", today, "", "", "")
  }

  /** The inputs, by their `name` attribute. */
  datatype Field = TypeField | Title | Description | Amount | DueDate | IssueDate
                 | ReferenceNumber | Location | VehicleReg

  /** `{ ...prev, [name]: value }` for a text input; the type selector is set by `SelectType`. */
  function SetField(f: Form, field: Field, value: string): (g: Form)
    requires field != TypeField
  {
    match field
    case Title => f.(title := value)
    case Description => f.(description := value)
    case Amount => f.(amount := value)
    case DueDate => f.(dueDate := value)
    case IssueDate => f.(issueDate := value)
    case ReferenceNumber => f.(referenceNumber := value)
    case Location => f.(location := value)
    case VehicleReg => f.(vehicleReg := value)
  }

  /** `x || undefined` for a text field. */
  function OrAbsent(s: string): (o: Option<string>)
    ensures o == None <==> s == []
    ensures o.Some? ==> o.value == s
  {
    if s == [] then None else Some(s)
  }

  /** `!formData.title || !formData.amount || !formData.dueDate || !formData.issueDate`. */
  predicate MissingRequired(f: Form) {
    f.title == [] || f.amount == [] || f.dueDate == [] || f.issueDate == []
  }

  /** The record `handleSubmit` passes to `onAddFine`, or `None` when a required field is empty. */
  function BuildFine(f: Form, parseAmount: string -> int): (r: Option<NewFine>)
    ensures r == None <==> MissingRequired(f)
    ensures r.Some? ==>
      && r.value.fineType == f.fineType
      && r.value.title == f.title
      && r.value.description == f.description
      && r.value.amount == parseAmount(f.amount)
      && r.value.dueDate == f.dueDate
      && r.value.issueDate == f.issueDate
      && r.value.status == Unpaid
      && r.value.paymentLink == None
      && (r.value.referenceNumber == None <==> f.referenceNumber == [])
      && (r.value.location == None <==> f.location == [])
      && (r.value.vehicleReg == None <==> f.vehicleReg == [])
      && (f.referenceNumber != [] ==> r.value.referenceNumber == Some(f.referenceNumber))
      && (f.location != [] ==> r.value.location == Some(f.location))
      && (f.vehicleReg != [] ==> r.value.vehicleReg == Some(f.vehicleReg))
  {
    if MissingRequired(f) then None
    else Some(NewFine(f.fineType, f.title, f.description, parseAmount(f.amount), f.dueDate, f.issueDate,
                      Unpaid, OrAbsent(f.referenceNumber), None, OrAbsent(f.location), OrAbsent(f.vehicleReg)))
  }

  /** What the form can produce: unpaid, no payment link, required text present, optional text non-empty. */
  predicate Producible(n: NewFine) {
    && n.status == Unpaid && n.paymentLink == None
    && n.title != [] && n.dueDate != [] && n.issueDate != []
    && (n.referenceNumber.Some? ==> n.referenceNumber.value != [])
    && (n.location.Some? ==> n.location.value != [])
    && (n.vehicleReg.Some? ==> n.vehicleReg.value != [])
  }

  /** The form that, filled in with `amountText` as the amount, describes `n`. */
  function FormFor(n: NewFine, amountText: string): Form {
    Form(n.fineType, n.title, n.description, amountText, n.dueDate, n.issueDate,
         n.referenceNumber.GetOr(""), n.location.GetOr(""), n.vehicleReg.GetOr(""))
  }

  /**
   * Exactly the producible records come out of the form: any one of them is what
   * submitting its own form gives, given an amount text that parses to its amount.
   */
  lemma BuildFineComplete(n: NewFine, amountText: string, parseAmount: string -> int)
    requires Producible(n) && amountText != [] && parseAmount(amountText) == n.amount
    ensures BuildFine(FormFor(n, amountText), parseAmount) == Some(n)
  {
  }

  lemma BuildFineProducible(f: Form, parseAmount: string -> int)
    requires BuildFine(f, parseAmount).Some?
    ensures Producible(BuildFine(f, parseAmount).value)
  {
  }

  /** The `AddFine` component: its form data, success screen and the records handed to `onAddFine`. */
  class AddFineView {
    var formData: Form
    var showSuccess: bool
    var savedFine: Option<Fine>
    /** Every record passed to `onAddFine`, in order. */
    var emitted: seq<NewFine>

    /** The selector only offers the `fineTypes`, and the success screen shows a saved fine. */
    ghost predicate Valid()
      reads this
    {
      && Selectable(formData.fineType)
      && (showSuccess ==> savedFine.Some?)
      && (savedFine.Some? ==> Selectable(savedFine.value.fineType))
    }

    constructor (today: string)
      ensures Valid()
      ensures formData == InitialForm(today) && !showSuccess && savedFine == None && emitted == []
    {
      formData := InitialForm(today);
      showSuccess := false;
      savedFine := None;
      emitted := [];
      assert FineTypes[0].value == TypeValue(Parking);
    }

    /** `handleChange` on a text input: that one field takes the new text. */
    method HandleChange(field: Field, value: string)
      requires Valid() && field != TypeField
      modifies this
      ensures Valid()
      ensures formData == SetField(old(formData), field, value)
      ensures showSuccess == old(showSuccess) && savedFine == old(savedFine) && emitted == old(emitted)
    {
      formData := SetField(formData, field, value);
    }

    /** `handleChange` on the type selector: one of the offered values. */
    method SelectType(i: nat)
      requires Valid() && i < |FineTypes|
      modifies this
      ensures Valid()
      ensures TypeValue(formData.fineType) == FineTypes[i].value
      ensures formData == old(formData).(fineType := formData.fineType)
      ensures showSuccess == old(showSuccess) && savedFine == old(savedFine) && emitted == old(emitted)
    {
      FineTypesAreTypes();
      var t := TypeOf(FineTypes[i].value).value;
      formData := formData.(fineType := t);
    }

    /**
     * `handleSubmit`: with a required field empty nothing is emitted and nothing
     * changes; otherwise the record is emitted once and shown with the given id.
     */
    method HandleSubmit(parseAmount: string -> int, id: string)
      requires Valid()
      modifies this
      ensures Valid() && formData == old(formData)
      ensures MissingRequired(formData) ==>
        emitted == old(emitted) && showSuccess == old(showSuccess) && savedFine == old(savedFine)
      ensures !MissingRequired(formData) ==>
        var n := BuildFine(formData, parseAmount).value;
        && emitted == old(emitted) + [n]
        && savedFine == Some(WithId(n, id))
        && showSuccess
    {
      var r := BuildFine(formData, parseAmount);
      if r.None? {
        return;
      }
      emitted := emitted + [r.value];
      savedFine := Some(WithId(r.value, id));
      showSuccess := true;
    }

    /** The success screen's type label, `fineTypes.find(...)?.label`. */
    function SavedTypeLabel(): (l: Option<string>)
      reads this
      requires Valid()
      ensures savedFine.Some? ==> l.Some?
    {
      if savedFine.None? then None else LabelOf(TypeValue(savedFine.value.fineType))
    }
  }
}
