/** The record store behind the three data-access services: the requests they send through
    the store's client and the rules by which they read its responses. The client call itself
    is not modelled; its response is a value handed to each operation. */
module Store {
  import opened Wrappers
  import opened Lists
  import opened Records

  /** What a service asks the store client to do, for the table `table`. */
  datatype Request =
    | FetchRecords(table: string)
    | GetRecordById(table: string, id: int)
    | CreateRecord(table: string, records: seq<Record>)
    | UpdateRecord(table: string, records: seq<Record>)
    | DeleteRecord(table: string, recordIds: seq<int>)

  /** One entry of a write response's `results`. */
  datatype RecordResult = RecordResult(success: bool, data: Option<Record>)

  /** The response to `fetchRecords`; `data` may be missing. */
  datatype FetchResponse = FetchResponse(success: bool, message: string, data: Option<seq<Record>>)

  /** The response to `getRecordById`. */
  datatype RecordResponse = RecordResponse(success: bool, message: string, data: Option<Record>)

  /** The response to `createRecord`, `updateRecord` and `deleteRecord`; `results` may be missing. */
  datatype WriteResponse = WriteResponse(success: bool, message: string, results: Option<seq<RecordResult>>)

  /** One service call: the request it sent and what it returned or threw. */
  datatype Exchange<T> = Exchange(request: Request, outcome: Result<T>)

  function Succeeded(r: RecordResult): bool {
    r.success
  }

  function Failed(r: RecordResult): bool {
    !r.success
  }

  predicate NoFailures(rs: seq<RecordResult>) {
    forall i :: 0 <= i < |rs| ==> rs[i].success
  }

  /** A write that the service does not turn into an exception. */
  predicate WriteSucceeded(resp: WriteResponse) {
    resp.success && (resp.results.None? || NoFailures(resp.results.value))
  }

  /** `getAll`: throw the response's message on failure, otherwise `response.data || []`. */
  function FetchAllOutcome(resp: FetchResponse): (r: Result<seq<Record>>)
    ensures !resp.success ==> r == Err(resp.message)
    ensures resp.success && resp.data.None? ==> r == Ok([])
    ensures resp.success && resp.data.Some? ==> r == Ok(resp.data.value)
  {
    if !resp.success then Err(resp.message) else Ok(resp.data.GetOr([]))
  }

  /** `getById`: throw the response's message on failure, otherwise `response.data`. */
  function FetchOneOutcome(resp: RecordResponse): (r: Result<Option<Record>>)
    ensures r.Err? <==> !resp.success
    ensures r.Err? ==> r.message == resp.message
    ensures r.Ok? ==> r.value == resp.data
  {
    if !resp.success then Err(resp.message) else Ok(resp.data)
  }

  /** `create` and `update`: throw the response's message when the store reports failure, throw
      `failure` when any entry of `results` failed, otherwise return the data of the first
      successful entry (nothing when `results` is missing or empty). */
  function WriteOutcome(resp: WriteResponse, failure: string): (r: Result<Option<Record>>)
    ensures r.Ok? <==> WriteSucceeded(resp)
    ensures !resp.success ==> r == Err(resp.message)
    ensures resp.success && !WriteSucceeded(resp) ==> r == Err(failure)
    ensures r.Ok? && resp.results.Some? && |resp.results.value| > 0 ==> r.value == resp.results.value[0].data
    ensures r.Ok? && (resp.results.None? || resp.results.value == []) ==> r.value.None?
  {
    if !resp.success then Err(resp.message)
    else match resp.results
      case None => Ok(None)
      case Some(rs) =>
        var successful := Filter(rs, Succeeded);
        var failed := Filter(rs, Failed);
        if |failed| > 0 then
          assert failed[0] in rs && Failed(failed[0]);
          Err(failure)
        else
          FilterNone(rs, Failed);
          if |successful| == 0 then Ok(None)
          else
            assert rs[0] in successful;
            FilterKeepsAll(rs, Succeeded);
            Ok(successful[0].data)
  }

  /** `delete`: throw as a write does; return true when `results` is present and nothing
      failed, and nothing (false) when `results` is missing. */
  function DeleteOutcome(resp: WriteResponse, failure: string): (r: Result<bool>)
    ensures r.Ok? <==> WriteSucceeded(resp)
    ensures !resp.success ==> r == Err(resp.message)
    ensures resp.success && !WriteSucceeded(resp) ==> r == Err(failure)
    ensures r == Ok(true) <==> resp.success && resp.results.Some? && NoFailures(resp.results.value)
  {
    if !resp.success then Err(resp.message)
    else match resp.results
      case None => Ok(false)
      case Some(rs) =>
        var failed := Filter(rs, Failed);
        if |failed| > 0 then
          assert failed[0] in rs && Failed(failed[0]);
          Err(failure)
        else
          FilterNone(rs, Failed);
          Ok(true)
  }

  /** The `create` payload: every field of `fields` copied from `data` (a missing one copied as
      `undefined`), and `data.k || defaults[k]` for the fields that have a default. */
  function CreatePayload(fields: seq<string>, defaults: map<string, Value>, data: Record): (p: Record)
    ensures forall k :: k in p <==> k in fields
    ensures forall k :: k in p && k !in defaults ==> p[k] == Get(data, k)
    ensures forall k :: k in p && k in defaults ==> p[k] == Or(Get(data, k), defaults[k])
  {
    map k | k in fields :: if k in defaults then Or(Get(data, k), defaults[k]) else Get(data, k)
  }

  /** The `update` payload `{ Id: id, ...picked }`, where `picked` holds the keys of `data` that
      are in `allowed`. */
  function UpdatePayload(id: int, data: Record, allowed: seq<string>): (p: Record)
    ensures "Id" in p
    ensures "Id" !in allowed ==> p["Id"] == Num(id)
    ensures forall k :: k != "Id" ==> (k in p <==> k in data && k in allowed)
    ensures forall k :: k in p && k != "Id" ==> p[k] == data[k]
  {
    map["Id" := Num(id)] + Pick(data, allowed)
  }
}
