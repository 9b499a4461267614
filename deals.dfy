/** The deal editor: create a deal, or edit the one it was opened with. */
module Deals {
  import opened JsValues
  import opened Supabase
  import opened Forms

  /** The deal passed to the screen when editing. */
  datatype DealRecord = DealRecord(id: Value, title: string, discount: string, expiration: string, description: string)

  /** The fields a save writes. */
  function Payload(title: string, discount: string, expiration: string, description: string, now: int): (p: map<string, Value>)
    ensures p.Keys == {"title", "discount", "expiration", "description", "updated_at"}
    ensures p["title"] == Str(title) && p["discount"] == Str(discount) && p["expiration"] == Str(expiration)
    ensures p["description"] == Str(description) && p["updated_at"] == Time(now)
  {
    map["title" := Str(title), "discount" := Str(discount), "expiration" := Str(expiration),
        "description" := Str(description), "updated_at" := Time(now)]
  }

  function EditingId(deal: Option<DealRecord>): Option<Value> {
    match deal
    case Some(d) => Some(d.id)
    case None => None
  }

  /** The write `handleSave` issues. */
  function SaveCall(deal: Option<DealRecord>, title: string, discount: string, expiration: string, description: string, now: int): Call {
    WriteCall("deals", EditingId(deal), Payload(title, discount, expiration, description, now), now)
  }

  /** When editing, the save updates exactly the edited deal; otherwise it
      inserts one deal carrying every form field and its creation time. */
  lemma SaveTargets(deal: Option<DealRecord>, title: string, discount: string, expiration: string, description: string, now: int)
    ensures var call := SaveCall(deal, title, discount, expiration, description, now);
      && call.table == "deals"
      && (deal.Some? ==> call.ops == [Update(Obj(Payload(title, discount, expiration, description, now))), Eq("id", deal.value.id)])
      && (deal.None? ==>
            && |call.ops| == 1 && call.ops[0].Insert? && |call.ops[0].rows| == 1
            && call.ops[0].rows[0].fields.Keys == {"title", "discount", "expiration", "description", "updated_at", "created_at"}
            && call.ops[0].rows[0].fields["title"] == Str(title)
            && call.ops[0].rows[0].fields["discount"] == Str(discount)
            && call.ops[0].rows[0].fields["created_at"] == Time(now))
  {
  }

  const MissingText: string := "Please enter at least Title and Discount."
  const SuccessAlert: Alert := Alert("Success", "Deal saved successfully!", true)
  const DemoAlert: Alert := Alert("Demo Mode", "Deal saved locally (mock).", true)

  /** The alert a validated save ends with. A failed write is reported as a
      local save. */
  function SaveAlert(answer: Settled): (a: Alert)
    ensures Fails(answer) ==> a == DemoAlert
    ensures !Fails(answer) ==> a == SuccessAlert
  {
    if Fails(answer) then DemoAlert else SuccessAlert
  }

  /** Whatever the backend answers, the OK button leads back. */
  lemma SaveAlwaysGoesBack(answer: Settled)
    ensures SaveAlert(answer).backOnOk
  {
  }

  /** On the mock every save ends in the demo alert. */
  lemma MockSaveIsDemo(loadedAt: int, deal: Option<DealRecord>, title: string, discount: string, expiration: string, description: string, now: int)
    ensures SaveAlert(MockAwait(loadedAt, SaveCall(deal, title, discount, expiration, description, now))) == DemoAlert
  {
    MockWriteThrows(loadedAt, "deals", EditingId(deal), Payload(title, discount, expiration, description, now), now);
  }

  class DealForm {
    /** The deal the screen was opened with, if any. */
    const deal: Option<DealRecord>
    var title: string
    var discount: string
    var expiration: string
    var description: string
    var loading: bool

    /** The fields start from the deal being edited, or empty. */
    constructor (deal: Option<DealRecord>)
      ensures this.deal == deal && !loading
      ensures deal.Some? ==>
        && title == deal.value.title && discount == deal.value.discount
        && expiration == deal.value.expiration && description == deal.value.description
      ensures deal.None? ==> title == "" && discount == "" && expiration == "" && description == ""
    {
      this.deal := deal;
      match deal {
        case Some(d) =>
          title, discount, expiration, description := d.title, d.discount, d.expiration, d.description;
        case None =>
          title, discount, expiration, description := "", "", "", "";
      }
      loading := false;
    }

    /** `handleSave` at time `now`: nothing is written and `loading` is left
        alone when a required field is blank; otherwise the write goes out,
        the alert always leads back, and `loading` ends false. */
    method HandleSave(backend: Backend, now: int) returns (call: Option<Call>, alert: Alert)
      modifies this`loading
      ensures !Complete(title, discount) ==>
        call == None && alert == MissingFields(MissingText) && loading == old(loading)
      ensures Complete(title, discount) ==>
        call == Some(SaveCall(deal, title, discount, expiration, description, now)) && !loading
        && alert == SaveAlert(backend(call.value))
    {
      if MissingRequired(title, discount) {
        call := None;
        alert := MissingFields(MissingText);
        return;
      }
      loading := true;
      var write := SaveCall(deal, title, discount, expiration, description, now);
      call := Some(write);
      var answer := backend(write);
      if Fails(answer) {
        alert := DemoAlert;
      } else {
        alert := SuccessAlert;
      }
      loading := false;
    }
  }
}
