/** TrackingForm (components/TrackingForm.tsx): the handlers of the id
    form. The view is not modelled; the component's state is the form data,
    the validation errors and the banner message. */
module TrackingForm {
  import opened Wrappers
  import opened Types
  import opened JsString
  import Storage

  datatype MessageType = SuccessMessage | ErrorMessage

  /** The banner shown under the fields. */
  datatype Message = Message(text: string, kind: MessageType)

  datatype Form = Form(data: FormData, errors: ValidationErrors, message: Option<Message>)

  const InitialForm := Form(IdPair("", ""), NoErrors, None)

  const VEHICLE_ID_REQUIRED := "Vehicle ID is required"
  const DRIVER_ID_REQUIRED := "Driver ID is required"
  const FILL_REQUIRED_FIELDS := Message("Please fill in all required fields", ErrorMessage)
  const IDS_SAVED := Message("IDs saved successfully!", SuccessMessage)
  const SAVE_FAILED := Message("Failed to save IDs. Please try again.", ErrorMessage)
  const FORM_CLEARED := Message("Form cleared successfully", SuccessMessage)
  const CLEAR_FAILED := Message("Failed to clear form", ErrorMessage)

  /** The error record `validateForm` builds: a field is missing exactly
      when it is nothing but whitespace. */
  function Validate(data: FormData): (e: ValidationErrors)
    ensures e.vehicleId.Some? <==> AllWs(data.vehicleId)
    ensures e.driverId.Some? <==> AllWs(data.driverId)
    ensures e.vehicleId.Some? ==> e.vehicleId.value == VEHICLE_ID_REQUIRED
    ensures e.driverId.Some? ==> e.driverId.value == DRIVER_ID_REQUIRED
  {
    ValidationErrors(
      if Trim(data.vehicleId) == "" then Some(VEHICLE_ID_REQUIRED) else None,
      if Trim(data.driverId) == "" then Some(DRIVER_ID_REQUIRED) else None)
  }

  /** `validateForm`: stores the new errors and reports whether there are
      none. */
  function ValidateForm(f: Form): (r: (Form, bool))
    ensures r.0 == f.(errors := Validate(f.data))
    ensures r.1 <==> NoErrorPresent(r.0.errors)
    ensures r.1 <==> Trim(f.data.vehicleId) != "" && Trim(f.data.driverId) != ""
  {
    var e := Validate(f.data);
    (f.(errors := e), NoErrorPresent(e))
  }

  /** The result of `handleSubmit`: the form, the store, and the pair passed
      to `onSubmit`, if it was called. */
  datatype SubmitResult = SubmitResult(form: Form, store: Storage.Store, submitted: Option<IdPair>)

  /** `handleSubmit`: validate; if valid, save the trimmed ids and only
      then pass them to `onSubmit`. */
  function HandleSubmit(f: Form, st: Storage.Store, saveFails: bool): (r: SubmitResult)
    // the field text itself is never changed, and the errors are revalidated
    ensures r.form.data == f.data && r.form.errors == Validate(f.data)
    // invalid: an error banner, no save, no submit
    ensures !ValidateForm(f).1 ==>
      r.store == st && r.submitted.None? && r.form.message == Some(FILL_REQUIRED_FIELDS)
    // valid and saved: the trimmed values are stored and submitted
    ensures ValidateForm(f).1 && !saveFails ==>
      && r.submitted == Some(IdPair(Trim(f.data.vehicleId), Trim(f.data.driverId)))
      && r.store == Storage.SaveIds(st, Trim(f.data.vehicleId), Trim(f.data.driverId), false).value
      && r.form.message == Some(IDS_SAVED)
    // valid but the save fails: an error banner and no submit
    ensures ValidateForm(f).1 && saveFails ==>
      r.store == st && r.submitted.None? && r.form.message == Some(SAVE_FAILED)
    // whatever is submitted is non-empty, trimmed, and what the store now returns
    ensures r.submitted.Some? ==>
      && r.submitted.value.vehicleId != "" && r.submitted.value.driverId != ""
      && Trim(r.submitted.value.vehicleId) == r.submitted.value.vehicleId
      && Trim(r.submitted.value.driverId) == r.submitted.value.driverId
      && Storage.GetIds(r.store, false) == r.submitted
  {
    var (f1, valid) := ValidateForm(f);
    if !valid then SubmitResult(f1.(message := Some(FILL_REQUIRED_FIELDS)), st, None)
    else
      var vehicleId := Trim(f.data.vehicleId);
      var driverId := Trim(f.data.driverId);
      SavedIdsReadBack(f.data, st);
      match Storage.SaveIds(st, vehicleId, driverId, saveFails)
      case Failure(_) => SubmitResult(f1.(message := Some(SAVE_FAILED)), st, None)
      case Success(st') => SubmitResult(f1.(message := Some(IDS_SAVED)), st', Some(IdPair(vehicleId, driverId)))
  }

  /** The trimmed ids of a valid form are non-empty, stay as they are
      when trimmed again, and a successful save of them reads back. */
  lemma SavedIdsReadBack(data: FormData, st: Storage.Store)
    requires !AllWs(data.vehicleId) && !AllWs(data.driverId)
    ensures var v := Trim(data.vehicleId); var d := Trim(data.driverId);
      && Trim(v) == v && Trim(d) == d
      && Storage.GetIds(Storage.SaveIds(st, v, d, false).value, false) == Some(IdPair(v, d))
  {
    TrimIdempotent(data.vehicleId);
    TrimIdempotent(data.driverId);
    Storage.SaveThenGet(st, Trim(data.vehicleId), Trim(data.driverId));
  }

  /** `clearForm`: clear the stored ids, then empty the fields and errors;
      if clearing fails only the banner changes. */
  function ClearForm(f: Form, st: Storage.Store, clearFails: bool): (r: (Form, Storage.Store))
    ensures !clearFails ==>
      && r.0 == InitialForm.(message := Some(FORM_CLEARED))
      && r.1 == Storage.ClearIds(st, false).value
      && Storage.GetIds(r.1, false).None?
    ensures clearFails ==> r.0 == f.(message := Some(CLEAR_FAILED)) && r.1 == st
  {
    match Storage.ClearIds(st, clearFails)
    case Failure(_) => (f.(message := Some(CLEAR_FAILED)), st)
    case Success(st') => (Form(IdPair("", ""), NoErrors, Some(FORM_CLEARED)), st')
  }

  /** `onChangeText` of the vehicle field: take the text and drop the
      vehicle error; the driver error and the banner stay. */
  function EditVehicleId(f: Form, text: string): (r: Form)
    ensures r.data == IdPair(text, f.data.driverId)
    ensures Truthy(f.errors.vehicleId) ==> r.errors.vehicleId.None?
    ensures !Truthy(f.errors.vehicleId) ==> r.errors.vehicleId == f.errors.vehicleId
    ensures r.errors.driverId == f.errors.driverId && r.message == f.message
  {
    var f1 := f.(data := f.data.(vehicleId := text));
    if Truthy(f.errors.vehicleId) then f1.(errors := f.errors.(vehicleId := None)) else f1
  }

  /** `onChangeText` of the driver field: take the text and drop the
      driver error; the vehicle error and the banner stay. */
  function EditDriverId(f: Form, text: string): (r: Form)
    ensures r.data == IdPair(f.data.vehicleId, text)
    ensures Truthy(f.errors.driverId) ==> r.errors.driverId.None?
    ensures !Truthy(f.errors.driverId) ==> r.errors.driverId == f.errors.driverId
    ensures r.errors.vehicleId == f.errors.vehicleId && r.message == f.message
  {
    var f1 := f.(data := f.data.(driverId := text));
    if Truthy(f.errors.driverId) then f1.(errors := f.errors.(driverId := None)) else f1
  }

  /** `loadStoredIds`: replace the form data with the stored pair when
      there is one; otherwise (nothing stored, or the read failed) leave
      the form as it is. */
  function LoadStoredIds(f: Form, st: Storage.Store, readFails: bool): (r: Form)
    ensures Storage.GetIds(st, readFails).Some? ==> r == f.(data := Storage.GetIds(st, readFails).value)
    ensures Storage.GetIds(st, readFails).None? ==> r == f
    ensures readFails ==> r == f
  {
    match Storage.GetIds(st, readFails)
    case Some(ids) => f.(data := ids)
    case None => f
  }

  /** After a failed validation, editing a field clears exactly that
      field's error. */
  lemma EditClearsOnlyItsError(f: Form, text: string)
    ensures var v := ValidateForm(f).0;
      && EditVehicleId(v, text).errors == ValidationErrors(None, v.errors.driverId)
      && EditDriverId(v, text).errors == ValidationErrors(v.errors.vehicleId, None)
  {
  }

  /** Round trip through storage: a successful submit followed by a fresh
      form's load shows exactly the submitted (trimmed) ids. */
  lemma SubmitThenLoad(f: Form, st: Storage.Store, g: Form)
    requires !AllWs(f.data.vehicleId) && !AllWs(f.data.driverId)
    ensures var r := HandleSubmit(f, st, false);
      && r.submitted.Some?
      && LoadStoredIds(g, r.store, false).data == r.submitted.value
  {
  }

  /** After a successful clear, loading leaves the emptied form as it is. */
  lemma ClearThenLoad(f: Form, st: Storage.Store)
    ensures var (f', st') := ClearForm(f, st, false);
      LoadStoredIds(f', st', false) == f'
  {
  }
}
