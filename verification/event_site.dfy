/**
 * The travel form wired to the server: the record the form builds is
 * posted, validated, stored, and then listed to an admin session.
 */
module EventSite {
  import opened Wrappers
  import opened Schema
  import Storage
  import TravelForm
  import Routes

  /**
   * One submission of the travel form. `bodyValid` is the server's
   * validation verdict on the posted record; `id` is the fresh id the
   * store draws. On success the stored row is exactly the form's record
   * under `id`, comes last in the admin listing, and the form shows
   * its "submitted" state; on failure nothing is stored.
   */
  method SubmitTravelForm(form: TravelForm.TravelFormState, bodyValid: bool, id: Id, db: Storage.MemStorage)
    returns (resp: Routes.Response)
    requires db.Valid()
    requires id !in db.travelSubmissions.entries
    modifies form, db
    ensures db.Valid()
    ensures form.formData == old(form.formData)
    ensures resp.status == 201 <==> bodyValid
    ensures form.submitted == (old(form.submitted) || bodyValid)
    ensures bodyValid ==>
              db.GetTravelSubmission(id).Some? &&
              Storage.WithoutId(db.GetTravelSubmission(id).value) == TravelForm.BuildSubmission(form.formData)
    ensures bodyValid ==>
              db.ListTravelSubmissions() == old(db.ListTravelSubmissions()) + [db.GetTravelSubmission(id).value]
    ensures !bodyValid ==> db.travelSubmissions == old(db.travelSubmissions)
    ensures db.users == old(db.users)
  {
    var record := TravelForm.BuildSubmission(form.formData);
    resp := Routes.CreateTravelSubmission(if bodyValid then Some(record) else None, id, db);
    TravelForm.StoredFormRecordUnchanged(form.formData, id);
    var sent := form.HandleSubmit(resp.status == 201);
    assert sent == record;
  }
}
