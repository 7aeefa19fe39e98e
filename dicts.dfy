/**
 * The in-place dictionary updates of the codec: `post_processing` deletes two
 * keys from the dicts the checkpoint store handed out (app.py:115-116), and
 * `init_state_graph` assigns the rebuilt messages into the history dict it
 * was given (app.py:204). A Python dict that the code mutates is an object of
 * class Dict; the dicts nested inside it are values.
 */
module Dicts {
  import opened Wrappers
  import opened Messages
  import opened Values
  import opened Codec

  class Dict {
    var entries: map<string, Value>

    constructor (entries: map<string, Value>)
      ensures this.entries == entries
    {
      this.entries := entries;
    }

    function AsValue(): Value
      reads this
    {
      Object(entries)
    }

    /** `del self[path[0]]...[path[-1]]`; on an exception nothing changes. */
    method Delete(path: seq<string>) returns (err: Option<Error>)
      requires path != []
      modifies this
      ensures err.None? <==> DeleteAt(old(AsValue()), path).Success?
      ensures err.None? ==> AsValue() == DeleteAt(old(AsValue()), path).value
      ensures err.Some? ==> err.value == DeleteAt(old(AsValue()), path).error && entries == old(entries)
    {
      var r := DeleteAt(AsValue(), path);
      if r.Success? {
        entries := r.value.fields;
        err := None;
      } else {
        err := Some(r.error);
      }
    }

    /** `self[path[0]]...[path[-1]] = x`; on an exception nothing changes. */
    method Assign(path: seq<string>, x: Value) returns (err: Option<Error>)
      requires path != []
      modifies this
      ensures err.None? <==> SetAt(old(AsValue()), path, x).Success?
      ensures err.None? ==> AsValue() == SetAt(old(AsValue()), path, x).value
      ensures err.Some? ==> err.value == SetAt(old(AsValue()), path, x).error && entries == old(entries)
    {
      var r := SetAt(AsValue(), path, x);
      if r.Success? {
        entries := r.value.fields;
        err := None;
      } else {
        err := Some(r.error);
      }
    }
  }

  /**
   * `post_processing` on the tuple read back from the store. The result is
   * Encode of the tuple as it was; the checkpoint has lost its messages slot
   * once the messages could be read, even when the later `del metadata['writes']`
   * raises, and the metadata has lost `writes` only when the whole call succeeds.
   */
  method PostProcessing(config: Value, checkpoint: Dict, metadata: Dict, newVersion: Value)
    returns (r: Result<Value, Error>)
    requires checkpoint != metadata
    modifies checkpoint, metadata
    ensures r == Encode(CheckpointTuple(config, old(checkpoint.AsValue()), old(metadata.AsValue()), newVersion))
    ensures checkpoint.AsValue()
              == if HasMessages(CheckpointTuple(config, old(checkpoint.AsValue()), old(metadata.AsValue()), newVersion))
                 then DeleteAt(old(checkpoint.AsValue()), MessagesPath).value
                 else old(checkpoint.AsValue())
    ensures metadata.AsValue()
              == if r.Success? then DeleteAt(old(metadata.AsValue()), WritesPath).value else old(metadata.AsValue())
  {
    var slot :- Resolve(checkpoint.AsValue(), MessagesPath);
    var messages :- AsMessages(slot);
    var promptList := ToPrompts(messages);
    DeleteSucceedsIff(checkpoint.AsValue(), MessagesPath);
    var gone := checkpoint.Delete(MessagesPath);
    var missing := metadata.Delete(WritesPath);
    if missing.Some? {
      return Failure(missing.value);
    }
    r := Success(History(config, checkpoint.AsValue(), promptList, metadata.AsValue(), newVersion));
  }

  /**
   * The restoring branch of `init_state_graph` on a history dict. The result
   * is Decode of the history as it was; the dict itself carries the rebuilt
   * messages in its checkpoint once the assignment at app.py:204 has run,
   * even when a later key lookup raises.
   */
  method RestoreHistory(history: Dict) returns (r: Result<Option<CheckpointTuple>, Error>)
    modifies history
    ensures r == Decode(old(history.AsValue()))
    ensures history.AsValue()
              == if Truthy(old(history.AsValue())) && WriteBackMessages(old(history.AsValue())).Success?
                 then WriteBackMessages(old(history.AsValue())).value
                 else old(history.AsValue())
  {
    if history.entries == map[] {
      return Success(None);
    }
    var listed :- Lookup(history.AsValue(), "prompt_list");
    var prompts :- AsPromptList(listed);
    var messages := FromPrompts(prompts);
    var err := history.Assign(HistoryMessagesPath, MessageList(messages));
    if err.Some? {
      return Failure(err.value);
    }
    var h := history.AsValue();
    var config :- Lookup(h, "config");
    var checkpoint :- Lookup(h, "checkpoint");
    var metadata :- Lookup(h, "metadata");
    var newVersion :- Lookup(h, "new_version");
    r := Success(Some(CheckpointTuple(config, checkpoint, metadata, newVersion)));
  }
}
