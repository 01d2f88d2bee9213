/** The data-access service for invoices, table "invoice". */
module InvoiceService {
  import opened Wrappers
  import opened Records
  import Store

  const Table := "invoice"

  /** The fields `create` copies and `update` lets through. */
  const Updateable: seq<string> :=
    ["Name", "Tags", "Owner", "event_id", "invoice_number", "date_issued", "due_date",
     "subtotal", "tax", "total", "status", "line_items"]

  /** The defaults of `create`: the issue date is the current time (`now`, as an ISO string),
      the status is "pending". */
  function CreateDefaults(now: string): map<string, Value> {
    map["date_issued" := Str(now), "status" := Str("pending")]
  }

  function GetAll(resp: Store.FetchResponse): (x: Store.Exchange<seq<Record>>)
    ensures x.request == Store.FetchRecords(Table)
    ensures !resp.success ==> x.outcome == Err(resp.message)
    ensures resp.success ==> x.outcome == Ok(if resp.data.Some? then resp.data.value else [])
  {
    Store.Exchange(Store.FetchRecords(Table), Store.FetchAllOutcome(resp))
  }

  function GetById(id: int, resp: Store.RecordResponse): (x: Store.Exchange<Option<Record>>)
    ensures x.request == Store.GetRecordById(Table, id)
    ensures x.outcome.Err? <==> !resp.success
    ensures x.outcome.Ok? ==> x.outcome.value == resp.data
  {
    Store.Exchange(Store.GetRecordById(Table, id), Store.FetchOneOutcome(resp))
  }

  /** The record `create` sends: exactly the twelve updateable fields. */
  function CreatePayload(data: Record, now: string): (p: Record)
    ensures forall k :: k in p <==> k in Updateable
    ensures p["status"] == if Falsy(Get(data, "status")) then Str("pending") else data["status"]
    ensures p["date_issued"] == if Falsy(Get(data, "date_issued")) then Str(now) else data["date_issued"]
    ensures forall k :: k in p && k != "status" && k != "date_issued" ==> p[k] == Get(data, k)
  {
    Store.CreatePayload(Updateable, CreateDefaults(now), data)
  }

  function Create(data: Record, now: string, resp: Store.WriteResponse): (x: Store.Exchange<Option<Record>>)
    ensures x.request == Store.CreateRecord(Table, [CreatePayload(data, now)])
    ensures x.outcome.Ok? <==> Store.WriteSucceeded(resp)
    ensures !resp.success ==> x.outcome == Err(resp.message)
    ensures resp.success && !Store.WriteSucceeded(resp) ==> x.outcome == Err("Failed to create invoice")
  {
    Store.Exchange(Store.CreateRecord(Table, [CreatePayload(data, now)]),
                   Store.WriteOutcome(resp, "Failed to create invoice"))
  }

  /** The record `update` sends: the id under "Id", and the updateable keys of `data`. */
  function UpdatePayload(id: int, data: Record): (p: Record)
    ensures "Id" in p && p["Id"] == Num(id)
    ensures forall k :: k != "Id" ==> (k in p <==> k in data && k in Updateable)
    ensures forall k :: k in p && k != "Id" ==> p[k] == data[k]
  {
    Store.UpdatePayload(id, data, Updateable)
  }

  function Update(id: int, data: Record, resp: Store.WriteResponse): (x: Store.Exchange<Option<Record>>)
    ensures x.request == Store.UpdateRecord(Table, [UpdatePayload(id, data)])
    ensures x.outcome.Ok? <==> Store.WriteSucceeded(resp)
    ensures !resp.success ==> x.outcome == Err(resp.message)
    ensures resp.success && !Store.WriteSucceeded(resp) ==> x.outcome == Err("Failed to update invoice")
  {
    Store.Exchange(Store.UpdateRecord(Table, [UpdatePayload(id, data)]),
                   Store.WriteOutcome(resp, "Failed to update invoice"))
  }

  function Delete(id: int, resp: Store.WriteResponse): (x: Store.Exchange<bool>)
    ensures x.request == Store.DeleteRecord(Table, [id])
    ensures x.outcome.Ok? <==> Store.WriteSucceeded(resp)
    ensures x.outcome == Ok(true) <==> resp.success && resp.results.Some? && Store.NoFailures(resp.results.value)
    ensures !resp.success ==> x.outcome == Err(resp.message)
    ensures resp.success && !Store.WriteSucceeded(resp) ==> x.outcome == Err("Failed to delete invoice")
  {
    Store.Exchange(Store.DeleteRecord(Table, [id]), Store.DeleteOutcome(resp, "Failed to delete invoice"))
  }

  /** An update never changes the record's identifier, whatever keys `data` holds: the payload
      is the picked keys with "Id" set to `id`. */
  lemma UpdateKeepsId(id: int, data: Record)
    ensures UpdatePayload(id, data) == Pick(data, Updateable)["Id" := Num(id)]
  {
    assert "Id" !in Updateable;
  }
}
