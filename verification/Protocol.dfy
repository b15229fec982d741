/** Parsed NDJSON messages and their JSON-RPC 2.0 classification. */
module Protocol {

  type Id = string

  datatype Option<+T> = None | Some(value: T)

  /** A JSON value. Numbers and booleans keep only the text that `str()` gives them. */
  datatype Json =
    | Null
    | Text(text: string)
    | Scalar(repr: string)
    | Array(items: seq<Json>)
    | Object(fields: map<string, Json>)

  /** An exception that ends a request. */
  datatype Failure =
    | Transport(reason: string)
    | Rpc(code: Json, message: Json, details: Json)
    | ValueError(reason: string)

  /** One line as the handler sees it: not JSON at all, or a top-level object. */
  datatype Message = Junk | Data(fields: map<string, Json>)

  /** What a response says about its request. A `Broken` response carries an
      `error` member that is not an object. */
  datatype Reply = Succeeds(value: Json) | Fails(exc: Failure) | Broken

  /** What a message asks of the pending table. */
  datatype Action = Ignore | Notify(chunk: Option<string>) | Respond(key: Option<Id>, reply: Reply)

  function Get(fields: map<string, Json>, key: string, default: Json): Json {
    if key in fields then fields[key] else default
  }

  predicate HasId(fields: map<string, Json>) {
    Get(fields, "id", Null) != Null
  }

  predicate IsNotification(fields: map<string, Json>) {
    "method" in fields && !HasId(fields)
  }

  /** The table key of a response id. The `str()` of an array or object starts
      with a bracket and is never the key of a request. */
  function Key(id: Json): Option<Id> {
    match id
    case Text(s) => Some(s)
    case Scalar(s) => Some(s)
    case _ => None
  }

  function Member(j: Json, key: string): Json {
    if j.Object? then Get(j.fields, key, Null) else Null
  }

  /** The text of an `agent_message_chunk` notification. */
  function ChunkText(fields: map<string, Json>): (r: Option<string>)
    ensures r.Some? ==> r.value != ""
  {
    var update := Member(Get(fields, "params", Null), "update");
    if Member(update, "sessionUpdate") != Text("agent_message_chunk") then None
    else
      var text := Member(Member(update, "content"), "text");
      if text.Text? && text.text != "" then Some(text.text) else None
  }

  function ReplyOf(fields: map<string, Json>): Reply {
    if "error" in fields then
      var error := fields["error"];
      if error.Object? then
        Fails(Rpc(Get(error.fields, "code", Scalar("99")),
                  Get(error.fields, "message", Text("Unknown error")),
                  Get(error.fields, "data", Null)))
      else Broken
    else Succeeds(Get(fields, "result", Null))
  }

  function Classify(m: Message): (a: Action)
    ensures a.Notify? && a.chunk.Some? ==> a.chunk.value != ""
  {
    if m.Junk? then Ignore
    else if IsNotification(m.fields) then Notify(ChunkText(m.fields))
    else if HasId(m.fields) then Respond(Key(m.fields["id"]), ReplyOf(m.fields))
    else Ignore
  }

  /** The classes are those of the JSON-RPC 2.0 Specification: a notification is a
      method without an id (section 4.1), and an id, even beside a method, makes a
      response (section 5) whose `error` member decides between failure and success
      (section 5.1). */
  lemma ClassifyMeaning(fields: map<string, Json>)
    ensures Classify(Data(fields)).Respond? <==> "id" in fields && fields["id"] != Null
    ensures Classify(Data(fields)).Notify? <==>
              "method" in fields && ("id" !in fields || fields["id"] == Null)
    ensures Classify(Data(fields)).Respond? ==>
              (Classify(Data(fields)).reply.Succeeds? <==> "error" !in fields)
  {
    if "id" in fields && fields["id"] != Null {
      assert HasId(fields) && !IsNotification(fields);
    }
  }
}
