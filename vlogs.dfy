/** The vlog editor: create a vlog, or edit or delete the one it was opened
    with. */
module Vlogs {
  import opened JsValues
  import opened Supabase
  import opened Forms

  /** The vlog passed to the screen when editing. */
  datatype VlogRecord = VlogRecord(id: Value, title: string, description: string)

  /** The fields a save writes. */
  function Payload(title: string, description: string, now: int): (p: map<string, Value>)
    ensures p.Keys == {"title", "description", "updated_at"}
    ensures p["title"] == Str(title) && p["description"] == Str(description) && p["updated_at"] == Time(now)
  {
    map["title" := Str(title), "description" := Str(description), "updated_at" := Time(now)]
  }

  function EditingId(vlog: Option<VlogRecord>): Option<Value> {
    match vlog
    case Some(v) => Some(v.id)
    case None => None
  }

  /** The write `handleSave` issues. */
  function SaveCall(vlog: Option<VlogRecord>, title: string, description: string, now: int): Call {
    WriteCall("vlogs", EditingId(vlog), Payload(title, description, now), now)
  }

  /** When editing, the save updates exactly the edited vlog with the form's
      fields; otherwise it inserts one vlog with those fields, stamped with
      its creation time. */
  lemma SaveTargets(vlog: Option<VlogRecord>, title: string, description: string, now: int)
    ensures var call := SaveCall(vlog, title, description, now);
      && call.table == "vlogs"
      && (vlog.Some? ==> call.ops == [Update(Obj(Payload(title, description, now))), Eq("id", vlog.value.id)])
      && (vlog.None? ==>
            && |call.ops| == 1 && call.ops[0].Insert? && |call.ops[0].rows| == 1
            && call.ops[0].rows[0].fields["title"] == Str(title)
            && call.ops[0].rows[0].fields["description"] == Str(description)
            && call.ops[0].rows[0].fields["created_at"] == Time(now))
  {
  }

  const MissingText: string := "Please enter both a title and description."
  const SaveErrorAlert: Alert := Alert("Error", "Could not save vlog. Please try again.", false)

  /** The alert a validated save ends with. */
  function SaveAlert(editing: bool, answer: Settled): (a: Alert)
    ensures Fails(answer) ==> a == SaveErrorAlert
    ensures !Fails(answer) ==> a.title == "Success" && a.backOnOk
    ensures !Fails(answer) ==> a.message == "Vlog " + (if editing then "updated" else "created") + " successfully!"
  {
    if Fails(answer) then SaveErrorAlert
    else Alert("Success", "Vlog " + (if editing then "updated" else "created") + " successfully!", true)
  }

  /** Only a successful save leads back; the success text tells an update
      from a creation. */
  lemma SaveAlertDistinguishes(answer: Settled)
    ensures SaveAlert(true, answer).backOnOk <==> !Fails(answer)
    ensures !Fails(answer) ==> SaveAlert(true, answer) != SaveAlert(false, answer)
  {
    if !Fails(answer) {
      assert SaveAlert(true, answer).message[5] == 'u';
      assert SaveAlert(false, answer).message[5] == 'c';
    }
  }

  /** On the mock every save ends in the error alert. */
  lemma MockSaveFails(loadedAt: int, vlog: Option<VlogRecord>, title: string, description: string, now: int)
    ensures SaveAlert(vlog.Some?, MockAwait(loadedAt, SaveCall(vlog, title, description, now))) == SaveErrorAlert
  {
    MockWriteThrows(loadedAt, "vlogs", EditingId(vlog), Payload(title, description, now), now);
  }

  /** The delete `handleDelete` issues once confirmed. */
  function DeleteCall(id: Value): Call {
    Call("vlogs", [Delete, Eq("id", id)])
  }

  const DeleteErrorAlert: Alert := Alert("Error", "Could not delete vlog.", false)

  /** On the mock the builder has no delete, so deleting always fails. */
  lemma MockDeleteFails(loadedAt: int, id: Value)
    ensures Fails(MockAwait(loadedAt, DeleteCall(id)))
  {
    MockMissingMethod(loadedAt, "vlogs", [], Delete, [Eq("id", id)]);
    assert [] + [Delete] + [Eq("id", id)] == DeleteCall(id).ops;
  }

  class VlogForm {
    /** The vlog the screen was opened with, if any. */
    const vlog: Option<VlogRecord>
    var title: string
    var description: string
    var loading: bool

    /** The fields start from the vlog being edited, or empty. */
    constructor (vlog: Option<VlogRecord>)
      ensures this.vlog == vlog && !loading
      ensures title == (if vlog.Some? then vlog.value.title else "")
      ensures description == (if vlog.Some? then vlog.value.description else "")
    {
      this.vlog := vlog;
      title := if vlog.Some? then vlog.value.title else "";
      description := if vlog.Some? then vlog.value.description else "";
      loading := false;
    }

    /** `handleSave` at time `now`: nothing is written and `loading` is left
        alone when a field is blank; otherwise the write goes out and
        `loading` ends false whatever the answer. */
    method HandleSave(backend: Backend, now: int) returns (call: Option<Call>, alert: Alert)
      modifies this`loading
      ensures !Complete(title, description) ==>
        call == None && alert == MissingFields(MissingText) && loading == old(loading)
      ensures Complete(title, description) ==>
        call == Some(SaveCall(vlog, title, description, now)) && !loading
        && alert == SaveAlert(vlog.Some?, backend(call.value))
    {
      if MissingRequired(title, description) {
        call := None;
        alert := MissingFields(MissingText);
        return;
      }
      loading := true;
      var write := SaveCall(vlog, title, description, now);
      call := Some(write);
      var answer := backend(write);
      if Fails(answer) {
        alert := SaveErrorAlert;
      } else {
        alert := Alert("Success", "Vlog " + (if vlog.Some? then "updated" else "created") + " successfully!", true);
      }
      loading := false;
    }

    /** `handleDelete`, whose button is shown only when editing, after the
        confirmation dialog was answered (`confirmed` for Delete, otherwise
        Cancel). A failed delete shows an error and ends `loading`; a
        successful one goes back with `loading` still on. */
    method HandleDelete(confirmed: bool, backend: Backend) returns (call: Option<Call>, alert: Option<Alert>, wentBack: bool)
      requires vlog.Some?
      modifies this`loading
      ensures !confirmed ==> call == None && alert == None && !wentBack && loading == old(loading)
      ensures confirmed ==> call == Some(DeleteCall(vlog.value.id))
      ensures confirmed && Fails(backend(call.value)) ==> alert == Some(DeleteErrorAlert) && !wentBack && !loading
      ensures confirmed && !Fails(backend(call.value)) ==> alert == None && wentBack && loading
    {
      if !confirmed {
        return None, None, false;
      }
      loading := true;
      var write := Call("vlogs", [Delete, Eq("id", vlog.value.id)]);
      call := Some(write);
      var answer := backend(write);
      if Fails(answer) {
        alert := Some(DeleteErrorAlert);
        wentBack := false;
        loading := false;
      } else {
        alert := None;
        wentBack := true;
      }
    }
  }
}
