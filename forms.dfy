/** What the three add/edit forms (vlogs, jobs, deals) share: the alert a
    handler shows, and the choice between updating the record being edited
    and inserting a new one. */
module Forms {
  import opened JsValues
  import opened Supabase

  /** `Alert.alert(title, message, buttons)`. `backOnOk` holds when the OK
      button navigates back. */
  datatype Alert = Alert(title: string, message: string, backOnOk: bool)

  /** `!a.trim() || !b.trim()`: the check a form makes on its two required
      fields before saving. */
  function MissingRequired(a: string, b: string): (missing: bool)
    ensures missing <==> Blank(a) || Blank(b)
    ensures missing <==> !Complete(a, b)
  {
    Trim(a) == "" || Trim(b) == ""
  }

  /** Both required fields hold something other than white space. */
  predicate Complete(a: string, b: string) {
    !Blank(a) && !Blank(b)
  }

  /** The alert a form shows when a required field is blank. */
  function MissingFields(message: string): (a: Alert)
    ensures a.title == "Missing Fields" && a.message == message && !a.backOnOk
  {
    Alert("Missing Fields", message, false)
  }

  /** The row an insert sends: the payload plus its creation time. */
  function NewRow(payload: map<string, Value>, now: int): (row: Value)
    requires "created_at" !in payload
    ensures row.Obj? && row.fields.Keys == payload.Keys + {"created_at"}
    ensures row.fields["created_at"] == Time(now)
    ensures forall k :: k in payload ==> row.fields[k] == payload[k]
  {
    Obj(payload["created_at" := Time(now)])
  }

  /** The write a save issues: when a record is being edited (`editingId` is
      its id), an update of that row only; otherwise an insert of one new row. */
  function WriteCall(table: string, editingId: Option<Value>, payload: map<string, Value>, now: int): (call: Call)
    requires "created_at" !in payload
    ensures call.table == table && call.ops != []
    ensures call.ops[0].Update? <==> editingId.Some?
    ensures call.ops[0].Insert? <==> editingId.None?
    ensures editingId.Some? ==> call.ops == [Update(Obj(payload)), Eq("id", editingId.value)]
    ensures editingId.None? ==> call.ops == [Insert([NewRow(payload, now)])]
  {
    match editingId
    case Some(id) => Call(table, [Update(Obj(payload)), Eq("id", id)])
    case None => Call(table, [Insert([NewRow(payload, now)])])
  }

  /** On the mock the builder has neither insert nor update, so every save
      throws before reaching the backend. */
  lemma MockWriteThrows(loadedAt: int, table: string, editingId: Option<Value>, payload: map<string, Value>, now: int)
    requires "created_at" !in payload
    ensures MockAwait(loadedAt, WriteCall(table, editingId, payload, now)) == Thrown(NotAFunction)
  {
    var ops := WriteCall(table, editingId, payload, now).ops;
    assert ops == [] + [ops[0]] + ops[1..];
    MockMissingMethod(loadedAt, table, [], ops[0], ops[1..]);
  }
}
