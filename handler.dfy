/**
 * The request guard and dispatch of the `/` route (app.py:50-56): reject a
 * payload without `human_input` with 400, otherwise restore the session from
 * `history` when the payload has one and start afresh when it does not.
 */
module Handler {
  import opened Wrappers
  import opened Messages
  import opened Values
  import opened Codec

  /**
   * How far a request gets before the model is invoked. Ready(Some(t), _)
   * means that `t` is handed to the checkpoint store's `put`; failures raised
   * inside `put` itself are not modelled.
   */
  datatype Outcome =
    | BadRequest                                              // abort(400)
    | ServerError(error: Error)                               // an exception the route does not catch
    | Ready(restored: Option<CheckpointTuple>, input: Value)  // the tuple handed to `put` (None: fresh session), and the new input

  /** `payload['human_input']`, read when the graph is invoked (app.py:56). */
  function ReadInput(payload: Value, restored: Option<CheckpointTuple>): Outcome
  {
    match Lookup(payload, "human_input")
    case Failure(e) => ServerError(e)
    case Success(input) => Ready(restored, input)
  }

  /**
   * The route up to the model call; `payload` is what `request.get_json()`
   * returned: Some(v) for a parsed JSON body, None for a literal `null` body
   * (a body that is not JSON is refused inside Flask, before this code runs).
   */
  function Admit(payload: Option<Value>): (r: Outcome)
    ensures r.BadRequest?
        <==> payload.None? || !Truthy(payload.value) || Contains(payload.value, "human_input") == Success(false)
    ensures r.Ready? ==> && payload.Some? && payload.value.Object?
                         && "human_input" in payload.value.fields
                         && r.input == payload.value.fields["human_input"]
  {
    if payload.None? || !Truthy(payload.value) then BadRequest
    else
      var p := payload.value;
      match Contains(p, "human_input")
      case Failure(e) => ServerError(e)
      case Success(false) => BadRequest
      case Success(true) =>
        if Contains(p, "history") == Success(true) then
          match Lookup(p, "history")
          case Failure(e) => ServerError(e)
          case Success(history) =>
            match Decode(history)
            case Failure(e) => ServerError(e)
            case Success(restored) => ReadInput(p, restored)
        else ReadInput(p, None)
  }

  /**
   * For a JSON object carrying `human_input`: a tuple is handed to the
   * store's `put` exactly when `history` is present, truthy and passes the
   * codec's own subscripts (app.py:203-209); a missing or falsy
   * history starts a fresh session; a truthy history that cannot be
   * restored ends the request with a server error.
   */
  lemma Dispatch(m: map<string, Value>)
    requires "human_input" in m
    ensures var r := Admit(Some(Object(m)));
      && (r.Ready? && r.restored.Some? <==> "history" in m && Truthy(m["history"]) && Restorable(m["history"]))
      && ("history" !in m || !Truthy(m["history"]) ==> r == Ready(None, m["human_input"]))
      && ("history" in m && Truthy(m["history"]) && !Restorable(m["history"]) ==> r.ServerError?)
  {
    if "history" in m && Truthy(m["history"]) {
      DecodeSucceedsIff(m["history"]);
    }
  }

  /**
   * A restored session holds the messages rebuilt from the `prompt_list` the
   * client sent, with Human turns at even positions and AI turns at odd ones.
   */
  lemma RestoredMessages(m: map<string, Value>)
    requires "history" in m && "human_input" in m
    requires Admit(Some(Object(m))).Ready? && Admit(Some(Object(m))).restored.Some?
    ensures var h := m["history"];
      && h.Object? && "prompt_list" in h.fields
      && AsPromptList(h.fields["prompt_list"]).Success?
      && Resolve(Admit(Some(Object(m))).restored.value.checkpoint, MessagesPath)
           == Success(MessageList(FromPrompts(AsPromptList(h.fields["prompt_list"]).value)))
      && Alternating(FromPrompts(AsPromptList(h.fields["prompt_list"]).value))
  {
    DecodeContents(m["history"]);
    FromPromptsAlternates(AsPromptList(m["history"].fields["prompt_list"]).value);
  }
}
