/** handleRequest (index.js:104-133): stamps the decoded message with the current instant
    and stores it as an item of the "Temperature" table. */
module RequestHandler {
  import opened Wrappers
  import opened Json

  const TemperatureTable: string := "Temperature"

  /** The instant `new Date()` read once per request: its ISO-8601 text (`toISOString`, UTC)
      and its calendar components in the server's local time zone. `month` is zero-based,
      as `getMonth()` returns it. */
  datatype Instant = Instant(iso: string, year: int, month: int, day: int,
                             hour: int, minute: int, second: int)
  {
    /** The ranges the `Date` getters return. */
    predicate Valid()
    {
      && 0 <= month <= 11
      && 1 <= day <= 31
      && 0 <= hour <= 23
      && 0 <= minute <= 59
      && 0 <= second <= 59
    }
  }

  /** The seven properties handleRequest adds to the message. */
  const StampKeys: set<string> := {"ID", "Year", "Month", "Day", "Hour", "Minute", "Second"}

  /** The values of those properties, all read from the one instant `t`. */
  function StampFields(t: Instant): (f: map<string, Json>)
    ensures f.Keys == StampKeys
    ensures t.Valid() ==> f["Month"].JNumber? && 0.0 <= f["Month"].n <= 11.0
  {
    map["ID" := JString(t.iso),
        "Year" := JNumber(t.year as real),
        "Month" := JNumber(t.month as real),
        "Day" := JNumber(t.day as real),
        "Hour" := JNumber(t.hour as real),
        "Minute" := JNumber(t.minute as real),
        "Second" := JNumber(t.second as real)]
  }

  /** The properties of a message after stamping: exactly the seven stamp keys are added
      (a caller-supplied value under one of them is overwritten) and every other key keeps
      its value. */
  function Stamped(props: map<string, Json>, t: Instant): (r: map<string, Json>)
    ensures r.Keys == props.Keys + StampKeys
    ensures forall k :: k in props && k !in StampKeys ==> r[k] == props[k]
    ensures forall k :: k in StampKeys ==> r[k] == StampFields(t)[k]
  {
    props + StampFields(t)
  }

  /** Stamping again with a later instant keeps no trace of the earlier one. */
  lemma RestampedKeepsLastInstant(props: map<string, Json>, t1: Instant, t2: Instant)
    ensures Stamped(Stamped(props, t1), t2) == Stamped(props, t2)
  {
  }

  /** Two requests with the same body stamped at instants with different ISO texts give
      different items: storing is not idempotent. */
  lemma DistinctInstantsGiveDistinctItems(props: map<string, Json>, t1: Instant, t2: Instant)
    requires t1.iso != t2.iso
    ensures Stamped(props, t1) != Stamped(props, t2)
  {
  }

  /** The item handed to the storage: the stamped message. An array body is a JavaScript
      object too, so it keeps its elements and gains the seven properties beside them. */
  datatype Item =
    | ObjectItem(props: map<string, Json>)
    | ArrayItem(elems: seq<Json>, props: map<string, Json>)

  /** The parameters of `docClient.put`. */
  datatype PutRequest = PutRequest(tableName: string, item: Item)

  /** What the storage answers to a put: the resolved `data`, or the error it rejects with. */
  datatype PutAnswer = Stored(data: Json) | Rejected(err: string)

  /** Why the promise handleRequest returns is rejected. */
  datatype HandlerError =
    | PropertyOnPrimitive        // the TypeError of `message.ID = ...` on a non-object
    | StorageRejected(err: string)

  /** The storage call made (None when storage is never reached) and the handler's outcome. */
  datatype Handling = Handling(put: Option<PutRequest>, outcome: Result<Json, HandlerError>)

  /** The item that stamping `message` gives, when it is an object or an array. */
  function ItemOf(message: Json, t: Instant): Item
    requires AcceptsProperties(message)
  {
    if message.JObject? then ObjectItem(Stamped(message.props, t))
    else ArrayItem(message.elems, StampFields(t))
  }

  /** The specification of handleRequest. */
  function Handled(message: Json, t: Instant, answer: PutAnswer): (h: Handling)
    // storage is reached exactly when the message can carry properties
    ensures h.put.Some? <==> AcceptsProperties(message)
    ensures h.put.Some? ==> h.put.value.tableName == TemperatureTable
    ensures message.JObject? ==> h.put == Some(PutRequest(TemperatureTable, ObjectItem(Stamped(message.props, t))))
    ensures message.JArray? ==> h.put == Some(PutRequest(TemperatureTable, ArrayItem(message.elems, StampFields(t))))
    // the promise resolves exactly when the put was made and the storage accepted it, with its data
    ensures h.outcome.Success? <==> AcceptsProperties(message) && answer.Stored?
    ensures h.outcome.Success? ==> h.outcome.value == answer.data
    ensures !AcceptsProperties(message) ==> h.outcome == Failure(PropertyOnPrimitive)
    ensures AcceptsProperties(message) && answer.Rejected? ==> h.outcome == Failure(StorageRejected(answer.err))
  {
    if !AcceptsProperties(message) then
      Handling(None, Failure(PropertyOnPrimitive))
    else
      Handling(Some(PutRequest(TemperatureTable, ItemOf(message, t))),
               match answer
               case Stored(data) => Success(data)
               case Rejected(err) => Failure(StorageRejected(err)))
  }

  /** handleRequest: assigns the seven properties one by one, then issues the put. */
  method HandleRequest(message: Json, time: Instant, answer: PutAnswer)
    returns (put: Option<PutRequest>, outcome: Result<Json, HandlerError>)
    ensures Handling(put, outcome) == Handled(message, time, answer)
  {
    var props: map<string, Json>;
    ghost var given: map<string, Json>;
    match message {
      case JObject(m) => props := m; given := m;
      case JArray(_) => props := map[]; given := map[];
      case _ => return None, Failure(PropertyOnPrimitive);
    }
    props := props["ID" := JString(time.iso)];
    props := props["Year" := JNumber(time.year as real)];
    props := props["Month" := JNumber(time.month as real)];
    props := props["Day" := JNumber(time.day as real)];
    props := props["Hour" := JNumber(time.hour as real)];
    props := props["Minute" := JNumber(time.minute as real)];
    props := props["Second" := JNumber(time.second as real)];
    assert props == Stamped(given, time);
    assert message.JArray? ==> props == StampFields(time);
    var item := if message.JArray? then ArrayItem(message.elems, props) else ObjectItem(props);
    put := Some(PutRequest(TemperatureTable, item));
    match answer {
      case Stored(data) => outcome := Success(data);
      case Rejected(err) => outcome := Failure(StorageRejected(err));
    }
  }
}
