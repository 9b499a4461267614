/** The job-offer editor: create a job offer, or edit the one it was opened
    with. */
module Jobs {
  import opened JsValues
  import opened Supabase
  import opened Forms

  /** The job passed to the screen when editing. */
  datatype JobRecord = JobRecord(id: Value, title: string, company: string, location: string, deadline: string, description: string)

  /** The fields a save writes. */
  function Payload(title: string, company: string, location: string, deadline: string, description: string, now: int): (p: map<string, Value>)
    ensures p.Keys == {"title", "company", "location", "deadline", "description", "updated_at"}
    ensures p["title"] == Str(title) && p["company"] == Str(company) && p["location"] == Str(location)
    ensures p["deadline"] == Str(deadline) && p["description"] == Str(description) && p["updated_at"] == Time(now)
  {
    map["title" := Str(title), "company" := Str(company), "location" := Str(location),
        "deadline" := Str(deadline), "description" := Str(description), "updated_at" := Time(now)]
  }

  function EditingId(job: Option<JobRecord>): Option<Value> {
    match job
    case Some(j) => Some(j.id)
    case None => None
  }

  /** The job being edited with the form's fields. */
  function SaveCall(job: Option<JobRecord>, title: string, company: string, location: string, deadline: string, description: string, now: int): Call {
    WriteCall("jobs", EditingId(job), Payload(title, company, location, deadline, description, now), now)
  }

  /** When editing, the save updates exactly the edited job; otherwise it
      inserts one job carrying every form field and its creation time. */
  lemma SaveTargets(job: Option<JobRecord>, title: string, company: string, location: string, deadline: string, description: string, now: int)
    ensures var call := SaveCall(job, title, company, location, deadline, description, now);
      && call.table == "jobs"
      && (job.Some? ==> call.ops == [Update(Obj(Payload(title, company, location, deadline, description, now))), Eq("id", job.value.id)])
      && (job.None? ==>
            && |call.ops| == 1 && call.ops[0].Insert? && |call.ops[0].rows| == 1
            && call.ops[0].rows[0].fields.Keys == {"title", "company", "location", "deadline", "description", "updated_at", "created_at"}
            && call.ops[0].rows[0].fields["title"] == Str(title)
            && call.ops[0].rows[0].fields["company"] == Str(company)
            && call.ops[0].rows[0].fields["created_at"] == Time(now))
  {
  }

  const MissingText: string := "Please enter at least Title and Company."
  const SuccessAlert: Alert := Alert("Success", "Job saved successfully!", true)
  const DemoAlert: Alert := Alert("Demo Mode", "Job saved locally (mock).", true)

  /** The alert a validated save ends with. A failed write is reported as a
      local save. */
  function SaveAlert(answer: Settled): (a: Alert)
    ensures Fails(answer) ==> a == DemoAlert
    ensures !Fails(answer) ==> a == SuccessAlert
  {
    if Fails(answer) then DemoAlert else SuccessAlert
  }

  /** Whatever the backend answers, the OK button leads back: the caller sees
      the same outcome as on success. */
  lemma SaveAlwaysGoesBack(answer: Settled)
    ensures SaveAlert(answer).backOnOk
  {
  }

  /** On the mock every save ends in the demo alert. */
  lemma MockSaveIsDemo(loadedAt: int, job: Option<JobRecord>, title: string, company: string, location: string, deadline: string, description: string, now: int)
    ensures SaveAlert(MockAwait(loadedAt, SaveCall(job, title, company, location, deadline, description, now))) == DemoAlert
  {
    MockWriteThrows(loadedAt, "jobs", EditingId(job), Payload(title, company, location, deadline, description, now), now);
  }

  class JobForm {
    /** The job the screen was opened with, if any. */
    const job: Option<JobRecord>
    var title: string
    var company: string
    var location: string
    var deadline: string
    var description: string
    var loading: bool

    /** The fields start from the job being edited, or empty. */
    constructor (job: Option<JobRecord>)
      ensures this.job == job && !loading
      ensures job.Some? ==>
        && title == job.value.title && company == job.value.company && location == job.value.location
        && deadline == job.value.deadline && description == job.value.description
      ensures job.None? ==> title == "" && company == "" && location == "" && deadline == "" && description == ""
    {
      this.job := job;
      match job {
        case Some(j) =>
          title, company, location, deadline, description := j.title, j.company, j.location, j.deadline, j.description;
        case None =>
          title, company, location, deadline, description := "", "", "", "", "";
      }
      loading := false;
    }

    /** `handleSave` at time `now`: nothing is written and `loading` is left
        alone when a required field is blank; otherwise the write goes out,
        the alert always leads back, and `loading` ends false. */
    method HandleSave(backend: Backend, now: int) returns (call: Option<Call>, alert: Alert)
      modifies this`loading
      ensures !Complete(title, company) ==>
        call == None && alert == MissingFields(MissingText) && loading == old(loading)
      ensures Complete(title, company) ==>
        call == Some(SaveCall(job, title, company, location, deadline, description, now)) && !loading
        && alert == SaveAlert(backend(call.value))
    {
      if MissingRequired(title, company) {
        call := None;
        alert := MissingFields(MissingText);
        return;
      }
      loading := true;
      var write := SaveCall(job, title, company, location, deadline, description, now);
      call := Some(write);
      var answer := backend(write);
      if Fails(answer) {
        alert := DemoAlert;
      } else {
        alert := SuccessAlert;
      }
      loading := false;
    }
  }
}
