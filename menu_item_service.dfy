/** The data-access service for menu items, table "menu_item". */
module MenuItemService {
  import opened Wrappers
  import opened Records
  import Store

  const Table := "menu_item"

  /** The fields `create` copies and `update` lets through. */
  const Updateable: seq<string> :=
    ["Name", "Tags", "Owner", "category", "price", "unit", "dietary", "description"]

  function GetAll(resp: Store.FetchResponse): (x: Store.Exchange<seq<Record>>)
    ensures x.request == Store.FetchRecords(Table)
    ensures !resp.success ==> x.outcome == Err(resp.message)
    ensures resp.success ==> x.outcome == Ok(if resp.data.Some? then resp.data.value else [])
  {
    Store.Exchange(Store.FetchRecords(Table), Store.FetchAllOutcome(resp))
  }

  function GetById(id: int, resp: Store.RecordResponse): (x: Store.Exchange<Option<Record>>)
    ensures x.request == Store.GetRecordById(Table, id)
    ensures x.outcome.Err? <==> !resp.success
    ensures x.outcome.Ok? ==> x.outcome.value == resp.data
  {
    Store.Exchange(Store.GetRecordById(Table, id), Store.FetchOneOutcome(resp))
  }

  /** The record `create` sends: exactly the eight updateable fields, each copied as it is. */
  function CreatePayload(data: Record): (p: Record)
    ensures forall k :: k in p <==> k in Updateable
    ensures forall k :: k in p ==> p[k] == Get(data, k)
  {
    Store.CreatePayload(Updateable, map[], data)
  }

  function Create(data: Record, resp: Store.WriteResponse): (x: Store.Exchange<Option<Record>>)
    ensures x.request == Store.CreateRecord(Table, [CreatePayload(data)])
    ensures x.outcome.Ok? <==> Store.WriteSucceeded(resp)
    ensures !resp.success ==> x.outcome == Err(resp.message)
    ensures resp.success && !Store.WriteSucceeded(resp) ==> x.outcome == Err("Failed to create menu item")
  {
    Store.Exchange(Store.CreateRecord(Table, [CreatePayload(data)]),
                   Store.WriteOutcome(resp, "Failed to create menu item"))
  }

  /** The record `update` sends: the id under "Id", and the updateable keys of `data`. */
  function UpdatePayload(id: int, data: Record): (p: Record)
    ensures "Id" in p && p["Id"] == Num(id)
    ensures forall k :: k != "Id" ==> (k in p <==> k in data && k in Updateable)
    ensures forall k :: k in p && k != "Id" ==> p[k] == data[k]
  {
    Store.UpdatePayload(id, data, Updateable)
  }

  function Update(id: int, data: Record, resp: Store.WriteResponse): (x: Store.Exchange<Option<Record>>)
    ensures x.request == Store.UpdateRecord(Table, [UpdatePayload(id, data)])
    ensures x.outcome.Ok? <==> Store.WriteSucceeded(resp)
    ensures !resp.success ==> x.outcome == Err(resp.message)
    ensures resp.success && !Store.WriteSucceeded(resp) ==> x.outcome == Err("Failed to update menu item")
  {
    Store.Exchange(Store.UpdateRecord(Table, [UpdatePayload(id, data)]),
                   Store.WriteOutcome(resp, "Failed to update menu item"))
  }

  function Delete(id: int, resp: Store.WriteResponse): (x: Store.Exchange<bool>)
    ensures x.request == Store.DeleteRecord(Table, [id])
    ensures x.outcome.Ok? <==> Store.WriteSucceeded(resp)
    ensures x.outcome == Ok(true) <==> resp.success && resp.results.Some? && Store.NoFailures(resp.results.value)
    ensures !resp.success ==> x.outcome == Err(resp.message)
    ensures resp.success && !Store.WriteSucceeded(resp) ==> x.outcome == Err("Failed to delete menu item")
  {
    Store.Exchange(Store.DeleteRecord(Table, [id]), Store.DeleteOutcome(resp, "Failed to delete menu item"))
  }

  /** An update never changes the record's identifier, whatever keys `data` holds: the payload
      is the picked keys with "Id" set to `id`. */
  lemma UpdateKeepsId(id: int, data: Record)
    ensures UpdatePayload(id, data) == Pick(data, Updateable)["Id" := Num(id)]
  {
    assert "Id" !in Updateable;
  }
}
