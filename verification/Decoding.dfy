/** What a message does, read off its JSON members: which request a response ends and with
    what, and which text a notification brings to everybody. */
module Decoding {
  import opened Protocol
  import opened Table
  import opened TableInvariant
  import opened Lifecycle
  import opened Session
  import opened SessionInvariant
  import opened SessionTheorems

  // ---- Responses ----

  /** The message has an id that names this request: a string, or a number of that text. */
  predicate Names(fields: map<string, Json>, id: Id) {
    "id" in fields && (fields["id"] == Text(id) || fields["id"] == Scalar(id))
  }

  /** The item that a response stands for, for a request with these chunks; none if it has an
      `error` member that is not an object. */
  function Carried(fields: map<string, Json>, chunks: seq<string>): (items: seq<Item>)
    ensures |items| <= 1 && forall item :: item in items ==> Final(item)
  {
    if "error" !in fields then
      [Result(WithText(if "result" in fields then fields["result"] else Null, chunks))]
    else if fields["error"].Object? then
      var error := fields["error"].fields;
      [Error(Rpc(if "code" in error then error["code"] else Scalar("99"),
                 if "message" in error then error["message"] else Text("Unknown error"),
                 if "data" in error then error["data"] else Null))]
    else []
  }

  /** The entry gets the items and nothing else. */
  ghost predicate Gets(e: Entry, e': Entry, items: seq<Item>) {
    && e'.chunks == e.chunks && e'.taken == e.taken && e'.since == e.since
    && e'.queue == (if e.queue.Some? then Some(e.queue.value + items) else None)
    && (e.queue.None? && e.future == Some(Waiting) && items != [] ==>
          e'.future == Some(match items[0]
                            case Result(value) => Resolved(value)
                            case Error(exc) => Rejected(exc)
                            case Chunk(_) => Waiting))
    && (e.queue.Some? || e.future != Some(Waiting) || items == [] ==> e'.future == e.future)
  }

  /** A response delivers its own result, or its own error, to the pending request that it
      names - as the next item of a stream, or into a future that still waits - takes the
      request out of the table, and changes nothing else. */
  lemma ResponseDelivers(s: State, fields: map<string, Json>, id: Id)
    requires Inv(s) && id in s.table && Names(fields, id)
    ensures var s' := Apply(s, Deliver(Data(fields)));
            && s'.table == s.table - {id} && s'.log == s.log && s'.store.Keys == s.store.Keys
            && Gets(s.store[id], s'.store[id], Carried(fields, s.store[id].chunks))
            && forall other :: other in s.store && other != id ==> s'.store[other] == s.store[other]
  {
    assert EntryInv(s, id);
    var e := s.store[id];
    ResponseRead(fields, id, e.chunks);
    assert e.queue.Some? ==> e.queue.value + [] == e.queue.value;
  }

  lemma ResponseRead(fields: map<string, Json>, id: Id, chunks: seq<string>)
    requires Names(fields, id)
    ensures Classify(Data(fields)).Respond? && Classify(Data(fields)).key == Some(id)
    ensures var reply := Classify(Data(fields)).reply;
            && (reply.Succeeds? <==> "error" !in fields)
            && (reply.Broken? <==> "error" in fields && !fields["error"].Object?)
            && Carried(fields, chunks)
               == match reply
                  case Succeeds(value) => [Result(WithText(value, chunks))]
                  case Fails(exc) => [Error(exc)]
                  case Broken => []
  {
  }

  /** In a session: once a well-formed response has arrived for a waiting call, the call
      returns that result or raises that error, whatever happens, as soon as it has run often
      enough to read what was there before it - unless the caller leaves. */
  lemma ResponseEndsCall(w: World, id: Id, fields: map<string, Json>, rest: seq<Event>)
    requires SessionInv(w) && Active(w, id) && id in w.state.table && Names(fields, id)
    requires w.backend.reader == Looping && w.backend.handlers
    requires "error" in fields ==> fields["error"].Object?
    requires Leave(id) !in rest && Wakes(rest, id) > |Owed(w.state.store[id])|
    ensures var z := Run(Step(w, Line(Data(fields))), rest);
            && id in z.calls
            && z.calls[id].outcome == (match Carried(fields, w.state.store[id].chunks)[0]
                                       case Result(value) => Some(Returned(value))
                                       case Error(exc) => Some(Raised(exc))
                                       case Chunk(_) => None)
  {
    var w', item := Step(w, Line(Data(fields))), Carried(fields, w.state.store[id].chunks)[0];
    SessionStep(w, Line(Data(fields)));
    DueAfterResponse(w, id, fields);
    ReadyBeatsDeadline(w', rest, id, item);
  }

  lemma DueAfterResponse(w: World, id: Id, fields: map<string, Json>)
    requires SessionInv(w) && Active(w, id) && id in w.state.table && Names(fields, id)
    requires w.backend.reader == Looping && w.backend.handlers
    requires "error" in fields ==> fields["error"].Object?
    ensures var w' := Step(w, Line(Data(fields)));
            && Due(w', id, Carried(fields, w.state.store[id].chunks)[0])
            && |Owed(w'.state.store[id])| == |Owed(w.state.store[id])| + 1
  {
    assert CallInv(w, id) && EntryInv(w.state, id);
    OneOp(w.state, Deliver(Data(fields)));
    ResponseDelivers(w.state, fields, id);
    OwedAfter(w.state.store[id], Step(w, Line(Data(fields))).state.store[id],
              Carried(fields, w.state.store[id].chunks)[0]);
  }

  lemma OwedAfter(e: Entry, e': Entry, item: Item)
    requires WellShaped(e) && !Settled(e) && e.future != Some(Cancelled)
    requires Final(item) && Gets(e, e', [item])
    ensures |Owed(e')| == |Owed(e)| + 1 && Owed(e')[|Owed(e')| - 1] == item
  {
  }

  // ---- Notifications ----

  /** The message has a method and no id. */
  predicate Notifies(fields: map<string, Json>) {
    "method" in fields && ("id" !in fields || fields["id"] == Null)
  }

  /** It is an `agent_message_chunk` update with this text. */
  predicate BringsText(fields: map<string, Json>, text: string) {
    && "params" in fields && fields["params"].Object?
    && var params := fields["params"].fields;
    && "update" in params && params["update"].Object?
    && var update := params["update"].fields;
    && "sessionUpdate" in update && update["sessionUpdate"] == Text("agent_message_chunk")
    && "content" in update && update["content"].Object?
    && var content := update["content"].fields;
    && "text" in content && content["text"] == Text(text)
  }

  lemma NotificationRead(fields: map<string, Json>, text: string)
    requires Notifies(fields) && text != ""
    ensures Classify(Data(fields)).Notify?
    ensures Classify(Data(fields)).chunk == Some(text) <==> BringsText(fields, text)
  {
    assert !HasId(fields);
  }

  /** The text is appended to the log and to every pending request, as the next item if it is
      a stream; nothing else changes. */
  ghost predicate Broadcasts(s: State, s': State, text: string) {
    && s'.log == s.log + [text] && s'.table == s.table && s'.store.Keys == s.store.Keys
    && forall id :: id in s.store ==>
         var e, e' := s.store[id], s'.store[id];
         if id in s.table then
           && e'.chunks == e.chunks + [text] && e'.future == e.future
           && e'.taken == e.taken && e'.since == e.since
           && e'.queue == (if e.queue.Some? then Some(e.queue.value + [Chunk(text)]) else None)
         else e' == e
  }

  /** A notification brings a text to all pending requests if and only if it is a chunk with
      that text, and not an empty one; any other notification leaves the table as it is. */
  lemma NotificationBroadcasts(s: State, fields: map<string, Json>)
    requires s.table <= s.store.Keys && Notifies(fields)
    ensures var s' := Apply(s, Deliver(Data(fields)));
            && (forall text :: text != "" ==> (Broadcasts(s, s', text) <==> BringsText(fields, text)))
            && ((forall text :: text != "" ==> !BringsText(fields, text)) ==> s' == s)
  {
    var s' := Apply(s, Deliver(Data(fields)));
    forall text | text != ""
      ensures Broadcasts(s, s', text) <==> BringsText(fields, text)
    {
      NotificationRead(fields, text);
      BroadcastMeaning(s, fields, text);
    }
    if s' != s {
      var text := Classify(Data(fields)).chunk.value;
      NotificationRead(fields, text);
      assert text != "" && BringsText(fields, text);
    }
  }

  lemma BroadcastMeaning(s: State, fields: map<string, Json>, text: string)
    requires s.table <= s.store.Keys && Classify(Data(fields)).Notify?
    ensures Broadcasts(s, Apply(s, Deliver(Data(fields))), text) <==> Classify(Data(fields)).chunk == Some(text)
  {
    match Classify(Data(fields)).chunk
    case None =>
      assert s.log + [text] != s.log;
    case Some(other) =>
      assert (s.log + [text])[|s.log|] == text && (s.log + [other])[|s.log|] == other;
  }

  // ---- Everything else ----

  /** A message that is not JSON, one with neither an id nor a method, and a response that
      names no pending request change nothing. */
  lemma OthersIgnored(s: State, msg: Message)
    requires s.table <= s.store.Keys
    requires msg.Data? ==> !Notifies(msg.fields) && forall id :: id in s.table ==> !Names(msg.fields, id)
    ensures Apply(s, Deliver(msg)) == s
  {
    if msg.Data? && HasId(msg.fields) && Key(msg.fields["id"]).Some? {
      var id := Key(msg.fields["id"]).value;
      assert Names(msg.fields, id);
    }
  }
}
