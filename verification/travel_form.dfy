/**
 * The travel-details form: an eight-field record of strings edited one
 * field at a time, turned into an insert record on submit, and a
 * `submitted` flag set once the server has accepted it.
 */
module TravelForm {
  import opened Wrappers
  import opened Schema
  import Storage

  /** The name of an input: `name`, or one of the seven optional travel fields. */
  datatype FormField = NameInput | TravelInput(field: TravelField)

  /** `TravelFormData`: every input's current text. */
  datatype TravelFormData = TravelFormData(
    name: string,
    arrivalDate: string,
    arrivalTime: string,
    arrivalAirlineFlight: string,
    departureDate: string,
    departureTime: string,
    departureAirlineFlight: string,
    notes: string)
  {
    /** The text of one input. */
    function Value(input: FormField): string {
      match input
      case NameInput => name
      case TravelInput(ArrivalDate) => arrivalDate
      case TravelInput(ArrivalTime) => arrivalTime
      case TravelInput(ArrivalAirlineFlight) => arrivalAirlineFlight
      case TravelInput(DepartureDate) => departureDate
      case TravelInput(DepartureTime) => departureTime
      case TravelInput(DepartureAirlineFlight) => departureAirlineFlight
      case TravelInput(Notes) => notes
    }

    /** `{ ...prev, [name]: value }`: the record with one input replaced. */
    function With(input: FormField, value: string): (r: TravelFormData)
      ensures r.Value(input) == value
      ensures forall other :: other != input ==> r.Value(other) == Value(other)
    {
      match input
      case NameInput => this.(name := value)
      case TravelInput(ArrivalDate) => this.(arrivalDate := value)
      case TravelInput(ArrivalTime) => this.(arrivalTime := value)
      case TravelInput(ArrivalAirlineFlight) => this.(arrivalAirlineFlight := value)
      case TravelInput(DepartureDate) => this.(departureDate := value)
      case TravelInput(DepartureTime) => this.(departureTime := value)
      case TravelInput(DepartureAirlineFlight) => this.(departureAirlineFlight := value)
      case TravelInput(Notes) => this.(notes := value)
    }
  }

  /** The form's initial state: every input empty. */
  function InitialForm(): (d: TravelFormData)
    ensures forall input :: d.Value(input) == ""
  {
    TravelFormData("", "", "", "", "", "", "", "")
  }

  /** `formData.x || null` on a string: "" becomes null. */
  function EmptyToNull(s: string): (r: Option<string>)
    ensures r == None <==> s == ""
    ensures r != None ==> r == Some(s)
  {
    if s == "" then None else Some(s)
  }

  /** The insert record `handleSubmit` builds from the form. */
  function BuildSubmission(d: TravelFormData): (r: InsertTravelSubmission)
    ensures r.name == d.name
    ensures forall f :: r.Field(f) == None <==> d.Value(TravelInput(f)) == ""
    ensures forall f :: r.Field(f) != None ==> r.Field(f) == Some(d.Value(TravelInput(f)))
    ensures Storage.NoEmptyText(r)
  {
    InsertTravelSubmission(
      d.name,
      EmptyToNull(d.arrivalDate),
      EmptyToNull(d.arrivalTime),
      EmptyToNull(d.arrivalAirlineFlight),
      EmptyToNull(d.departureDate),
      EmptyToNull(d.departureTime),
      EmptyToNull(d.departureAirlineFlight),
      EmptyToNull(d.notes))
  }

  /** The store's normalisation leaves a form-built record as it is: the two `|| null` steps compose to one. */
  lemma StoredFormRecordUnchanged(d: TravelFormData, id: Id)
    ensures Storage.WithoutId(Storage.MakeSubmission(id, BuildSubmission(d))) == BuildSubmission(d)
    ensures Storage.MakeSubmission(id, BuildSubmission(d)).name == d.name
  {
    Storage.NormalizeFixesNoEmptyText(id, BuildSubmission(d));
  }

  /** The `TravelForm` component's state. */
  class TravelFormState {
    var formData: TravelFormData
    var submitted: bool

    constructor ()
      ensures formData == InitialForm() && !submitted
    {
      formData := InitialForm();
      submitted := false;
    }

    /** `handleChange`: one input's new text; nothing else changes. */
    method HandleChange(input: FormField, value: string)
      modifies this
      ensures formData == old(formData).With(input, value)
      ensures formData.Value(input) == value
      ensures forall other :: other != input ==> formData.Value(other) == old(formData).Value(other)
      ensures submitted == old(submitted)
    {
      formData := formData.With(input, value);
    }

    /**
     * `handleSubmit` with the mutation's outcome: sends the record built
     * from the form, then `onSuccess` sets `submitted`; `onError` only
     * shows a message. The form data are never changed.
     */
    method HandleSubmit(accepted: bool) returns (sent: InsertTravelSubmission)
      modifies this
      ensures sent == BuildSubmission(formData)
      ensures formData == old(formData)
      ensures submitted == (old(submitted) || accepted)
    {
      sent := BuildSubmission(formData);
      if accepted {
        submitted := true;
      }
    }
  }
}
