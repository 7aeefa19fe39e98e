/**
 * The conversation-history codec of app.py, on values.
 *
 * Encode is `post_processing` (app.py:105-122): it flattens the messages
 * slot of the stored checkpoint into `prompt_list`, deletes that slot and
 * `metadata['writes']`, and packs the five-field history record.
 * Decode is the restoring branch of `init_state_graph` (app.py:202-209): it
 * rebuilds the messages from `prompt_list` by parity, writes them into
 * `history['checkpoint']['channel_values']['messages']` and hands config,
 * checkpoint, metadata and version to the checkpoint store.
 */
module Codec {
  import opened Wrappers
  import opened Messages
  import opened Values

  /** What the checkpoint store returns from `get_tuple` and receives in `put`. */
  datatype CheckpointTuple = CheckpointTuple(config: Value, checkpoint: Value, metadata: Value, newVersion: Value)

  /** Where the messages live inside a checkpoint, and inside a history record. */
  const MessagesPath: seq<string> := ["channel_values", "messages"]
  const HistoryMessagesPath: seq<string> := ["checkpoint", "channel_values", "messages"]
  const WritesPath: seq<string> := ["writes"]

  /** The five keys of a history record. */
  const HistoryKeys: set<string> := {"config", "checkpoint", "prompt_list", "metadata", "new_version"}

  /** A list of message objects, as LangGraph keeps it in the checkpoint. */
  function MessageList(ms: seq<Msg>): Value
  {
    List(seq(|ms|, i requires 0 <= i < |ms| => Message(ms[i])))
  }

  /** A list of strings, as `prompt_list` travels in JSON. */
  function StrList(ps: seq<string>): Value
  {
    List(seq(|ps|, i requires 0 <= i < |ps| => Str(ps[i])))
  }

  /** Each item as a message object; `.content` fails on any other item. */
  function MessagesOf(items: seq<Value>): Result<seq<Msg>, Error>
  {
    if items == [] then Success([])
    else match items[0]
      case Message(m) =>
        var rest :- MessagesOf(items[1..]);
        Success([m] + rest)
      case _ => Failure(NoContent)
  }

  /** The message objects held by the messages slot of a checkpoint. */
  function AsMessages(slot: Value): Result<seq<Msg>, Error>
  {
    match slot
    case List(items) => MessagesOf(items)
    case _ => Failure(NoContent)
  }

  /** Each item as message content; only strings are accepted. */
  function StringsOf(items: seq<Value>): Result<seq<string>, Error>
  {
    if items == [] then Success([])
    else match items[0]
      case Str(s) =>
        var rest :- StringsOf(items[1..]);
        Success([s] + rest)
      case _ => Failure(BadPromptList)
  }

  /** The one-character strings a Python string iterates over. */
  function Chars(s: string): seq<string>
  {
    seq(|s|, i requires 0 <= i < |s| => [s[i]])
  }

  /** What `enumerate(history['prompt_list'])` yields as message contents. */
  function AsPromptList(v: Value): Result<seq<string>, Error>
  {
    match v
    case List(items) => StringsOf(items)
    case Str(s) => Success(Chars(s))
    case Null => Failure(NotIterable)
    case Bool(_) => Failure(NotIterable)
    case Int(_) => Failure(NotIterable)
    case _ => Failure(BadPromptList)
  }

  /** The history record packed at app.py:118-122. */
  function History(config: Value, checkpoint: Value, prompts: seq<string>, metadata: Value, newVersion: Value): Value
  {
    Object(map["config" := config, "checkpoint" := checkpoint, "prompt_list" := StrList(prompts),
               "metadata" := metadata, "new_version" := newVersion])
  }

  /** `post_processing`: the history record built from the stored checkpoint tuple. */
  function Encode(t: CheckpointTuple): Result<Value, Error>
  {
    var slot :- Resolve(t.checkpoint, MessagesPath);
    var msgs :- AsMessages(slot);
    var checkpoint :- DeleteAt(t.checkpoint, MessagesPath);
    var metadata :- DeleteAt(t.metadata, WritesPath);
    Success(History(t.config, checkpoint, ToPrompts(msgs), metadata, t.newVersion))
  }

  /**
   * The history record after app.py:203-204: the messages rebuilt from
   * `prompt_list` written into its checkpoint's messages slot.
   */
  function WriteBackMessages(h: Value): Result<Value, Error>
  {
    var listed :- Lookup(h, "prompt_list");
    var prompts :- AsPromptList(listed);
    SetAt(h, HistoryMessagesPath, MessageList(FromPrompts(prompts)))
  }

  /**
   * `init_state_graph(history)`: the tuple put into the store, or None when the
   * history is falsy and the session starts empty.
   */
  function Decode(h: Value): (r: Result<Option<CheckpointTuple>, Error>)
    ensures r == Success(None) <==> !Truthy(h)
  {
    if !Truthy(h) then Success(None)
    else
      var h' :- WriteBackMessages(h);
      var config :- Lookup(h', "config");
      var checkpoint :- Lookup(h', "checkpoint");
      var metadata :- Lookup(h', "metadata");
      var newVersion :- Lookup(h', "new_version");
      Success(Some(CheckpointTuple(config, checkpoint, metadata, newVersion)))
  }

  /** The messages slot of a stored checkpoint, when it holds message objects. */
  ghost predicate HasMessages(t: CheckpointTuple)
  {
    Resolve(t.checkpoint, MessagesPath).Success? && AsMessages(Resolve(t.checkpoint, MessagesPath).value).Success?
  }

  ghost function StoredMessages(t: CheckpointTuple): seq<Msg>
    requires HasMessages(t)
  {
    AsMessages(Resolve(t.checkpoint, MessagesPath).value).value
  }

  /** A history the restoring branch accepts. */
  ghost predicate Restorable(h: Value)
  {
    && h.Object?
    && HistoryKeys <= h.fields.Keys
    && AsPromptList(h.fields["prompt_list"]).Success?
    && Resolve(h.fields["checkpoint"], ["channel_values"]).Success?
    && Resolve(h.fields["checkpoint"], ["channel_values"]).value.Object?
  }

  /** A history exactly as Encode produces it. */
  ghost predicate Canonical(h: Value)
  {
    && Restorable(h)
    && h.fields.Keys == HistoryKeys
    && h.fields["prompt_list"].List?
    && "messages" !in Resolve(h.fields["checkpoint"], ["channel_values"]).value.fields
    && h.fields["metadata"].Object?
    && "writes" !in h.fields["metadata"].fields
  }

  lemma {:induction false} MessagesOfIff(items: seq<Value>, ms: seq<Msg>)
    ensures MessagesOf(items) == Success(ms) <==> items == MessageList(ms).items
  {
    var wrapped := MessageList(ms).items;
    if items != [] && items[0].Message? {
      var rest := MessagesOf(items[1..]);
      if MessagesOf(items) == Success(ms) {
        assert ms == [items[0].msg] + rest.value;
        assert ms[1..] == rest.value;
        MessagesOfIff(items[1..], ms[1..]);
        assert MessageList(ms[1..]).items == wrapped[1..];
        assert items == [items[0]] + items[1..];
        assert wrapped == [wrapped[0]] + wrapped[1..];
      }
      if items == wrapped {
        assert ms != [];
        MessagesOfIff(items[1..], ms[1..]);
        assert MessageList(ms[1..]).items == wrapped[1..];
        assert ms == [ms[0]] + ms[1..];
      }
    }
  }

  /** The messages slot holds exactly the message list it was written with. */
  lemma MessageListRoundTrip(slot: Value, ms: seq<Msg>)
    ensures AsMessages(slot) == Success(ms) <==> slot == MessageList(ms)
  {
    if slot.List? {
      MessagesOfIff(slot.items, ms);
    }
  }

  lemma {:induction false} StringsOfIff(items: seq<Value>, ps: seq<string>)
    ensures StringsOf(items) == Success(ps) <==> items == StrList(ps).items
  {
    var wrapped := StrList(ps).items;
    if items != [] && items[0].Str? {
      var rest := StringsOf(items[1..]);
      if StringsOf(items) == Success(ps) {
        assert ps == [items[0].s] + rest.value;
        assert ps[1..] == rest.value;
        StringsOfIff(items[1..], ps[1..]);
        assert StrList(ps[1..]).items == wrapped[1..];
        assert items == [items[0]] + items[1..];
        assert wrapped == [wrapped[0]] + wrapped[1..];
      }
      if items == wrapped {
        assert ps != [];
        StringsOfIff(items[1..], ps[1..]);
        assert StrList(ps[1..]).items == wrapped[1..];
        assert ps == [ps[0]] + ps[1..];
      }
    }
  }

  /** A JSON list of strings reads back as the same strings, and only that list does. */
  lemma PromptListRoundTrip(v: Value, ps: seq<string>)
    requires v.List?
    ensures AsPromptList(v) == Success(ps) <==> v == StrList(ps)
  {
    StringsOfIff(v.items, ps);
  }

  /**
   * Encoding fails exactly when the messages slot is missing or holds
   * something other than message objects, or metadata has no `writes` key.
   */
  lemma EncodeSucceedsIff(t: CheckpointTuple)
    ensures Encode(t).Success? <==> HasMessages(t) && Resolve(t.metadata, WritesPath).Success?
    ensures !Resolve(t.checkpoint, MessagesPath).Success? ==> Encode(t) == Failure(Resolve(t.checkpoint, MessagesPath).error)
    ensures HasMessages(t) && t.metadata.Object? && "writes" !in t.metadata.fields ==> Encode(t) == Failure(KeyError("writes"))
  {
    DeleteSucceedsIff(t.checkpoint, MessagesPath);
    DeleteSucceedsIff(t.metadata, WritesPath);
  }

  /**
   * What an encoded history holds: the five keys; config and version as
   * stored; `prompt_list[i]` the content of stored message `i`; the
   * checkpoint without its messages slot and the metadata without `writes`,
   * every other path in them unchanged.
   */
  lemma EncodeContents(t: CheckpointTuple)
    requires Encode(t).Success?
    ensures var h := Encode(t).value;
      && h.Object? && h.fields.Keys == HistoryKeys
      && h.fields["config"] == t.config
      && h.fields["new_version"] == t.newVersion
      && HasMessages(t)
      && AsPromptList(h.fields["prompt_list"]) == Success(ToPrompts(StoredMessages(t)))
      && |ToPrompts(StoredMessages(t))| == |StoredMessages(t)|
      && (forall i | 0 <= i < |StoredMessages(t)| ::
            ToPrompts(StoredMessages(t))[i] == StoredMessages(t)[i].content)
      && Resolve(h.fields["checkpoint"], MessagesPath) == Failure(KeyError("messages"))
      && (forall q | Diverge(MessagesPath, q) ::
            Resolve(h.fields["checkpoint"], q) == Resolve(t.checkpoint, q))
      && Resolve(h.fields["metadata"], WritesPath) == Failure(KeyError("writes"))
      && (forall q | Diverge(WritesPath, q) ::
            Resolve(h.fields["metadata"], q) == Resolve(t.metadata, q))
  {
    var h := Encode(t).value;
    var ms := StoredMessages(t);
    var cp := DeleteAt(t.checkpoint, MessagesPath).value;
    var md := DeleteAt(t.metadata, WritesPath).value;
    assert h == History(t.config, cp, ToPrompts(ms), md, t.newVersion);
    PromptListRoundTrip(h.fields["prompt_list"], ToPrompts(ms));
    forall i | 0 <= i < |ms|
      ensures ToPrompts(ms)[i] == ms[i].content
    {
      ToPromptsAt(ms, i);
    }
    DeleteThenResolve(t.checkpoint, MessagesPath);
    DeleteThenResolve(t.metadata, WritesPath);
    forall q | Diverge(MessagesPath, q)
      ensures Resolve(cp, q) == Resolve(t.checkpoint, q)
    {
      DeleteFrame(t.checkpoint, MessagesPath, q);
    }
    forall q | Diverge(WritesPath, q)
      ensures Resolve(md, q) == Resolve(t.metadata, q)
    {
      DeleteFrame(t.metadata, WritesPath, q);
    }
  }

  /** Decoding a truthy history succeeds exactly when it is restorable. */
  lemma DecodeSucceedsIff(h: Value)
    requires Truthy(h)
    ensures Decode(h).Success? <==> Restorable(h)
    ensures Decode(h).Success? ==> Decode(h).value.Some?
  {
    if h.Object? && "prompt_list" in h.fields && AsPromptList(h.fields["prompt_list"]).Success? {
      var ms := FromPrompts(AsPromptList(h.fields["prompt_list"]).value);
      SetSucceedsIff(h, HistoryMessagesPath, MessageList(ms));
      assert Parent(HistoryMessagesPath) == ["checkpoint", "channel_values"];
      if "checkpoint" in h.fields {
        assert Resolve(h, ["checkpoint", "channel_values"]) == Resolve(h.fields["checkpoint"], ["channel_values"]) by {
          assert ["checkpoint", "channel_values"][1..] == ["channel_values"];
        }
      }
    }
  }

  /**
   * What a decoded history hands to the store: config, metadata and version
   * as sent; the checkpoint with its messages slot holding the messages
   * rebuilt from `prompt_list`, every other path of it as sent.
   */
  lemma DecodeContents(h: Value)
    requires Decode(h).Success? && Decode(h).value.Some?
    ensures var t := Decode(h).value.value;
      && h.Object? && HistoryKeys <= h.fields.Keys
      && AsPromptList(h.fields["prompt_list"]).Success?
      && t.config == h.fields["config"]
      && t.metadata == h.fields["metadata"]
      && t.newVersion == h.fields["new_version"]
      && Resolve(t.checkpoint, MessagesPath)
           == Success(MessageList(FromPrompts(AsPromptList(h.fields["prompt_list"]).value)))
      && (forall q | Diverge(MessagesPath, q) ::
            Resolve(t.checkpoint, q) == Resolve(h.fields["checkpoint"], q))
  {
    var t := Decode(h).value.value;
    var slot := MessageList(FromPrompts(AsPromptList(h.fields["prompt_list"]).value));
    var cp := h.fields["checkpoint"];
    assert HistoryMessagesPath[1..] == MessagesPath;
    var cp' := SetAt(cp, MessagesPath, slot).value;
    assert SetAt(h, HistoryMessagesPath, slot) == Success(Object(h.fields["checkpoint" := cp']));
    assert t.checkpoint == cp';
    SetThenResolve(cp, MessagesPath, slot);
    forall q | Diverge(MessagesPath, q)
      ensures Resolve(cp', q) == Resolve(cp, q)
    {
      SetFrame(cp, MessagesPath, slot, q);
    }
  }

  /**
   * Round trip from the store: decoding an encoded history puts back the
   * stored tuple with only `metadata['writes']` gone, exactly when the stored
   * messages alternate Human/AI starting with Human.
   */
  lemma DecodeAfterEncode(t: CheckpointTuple)
    requires Encode(t).Success?
    ensures HasMessages(t)
    ensures (Decode(Encode(t).value) == Success(Some(t.(metadata := DeleteAt(t.metadata, WritesPath).value))))
            <==> Alternating(StoredMessages(t))
  {
    EncodeSucceedsIff(t);
    var h := Encode(t).value;
    var slot := Resolve(t.checkpoint, MessagesPath).value;
    var ms := StoredMessages(t);
    var ps := ToPrompts(ms);
    var cp := DeleteAt(t.checkpoint, MessagesPath).value;
    var md := DeleteAt(t.metadata, WritesPath).value;
    assert h == History(t.config, cp, ps, md, t.newVersion);
    assert Truthy(h) by {
      assert "config" in h.fields;
    }
    PromptListRoundTrip(h.fields["prompt_list"], ps);
    MessageListRoundTrip(slot, ms);
    var rebuilt := MessageList(FromPrompts(ps));
    assert HistoryMessagesPath[1..] == MessagesPath;
    var want := t.(metadata := md);
    if Alternating(ms) {
      MessagesRoundTrip(ms);
      SetRestoresDeleted(t.checkpoint, MessagesPath);
      assert SetAt(cp, MessagesPath, rebuilt) == Success(t.checkpoint);
      assert SetAt(h, HistoryMessagesPath, rebuilt) == Success(Object(h.fields["checkpoint" := t.checkpoint]));
    } else if Decode(h) == Success(Some(want)) {
      DecodeContents(h);
      assert Resolve(t.checkpoint, MessagesPath) == Success(rebuilt);
      MessageListRoundTrip(rebuilt, FromPrompts(ps));
      MessagesOfIff(slot.items, ms);
      assert FromPrompts(ps) == ms;
      MessagesRoundTrip(ms);
      assert false;
    }
  }

  /** The messages rebuilt from a history's `prompt_list`. */
  ghost function RebuiltSlot(h: Value): Value
    requires h.Object? && "prompt_list" in h.fields && AsPromptList(h.fields["prompt_list"]).Success?
  {
    MessageList(FromPrompts(AsPromptList(h.fields["prompt_list"]).value))
  }

  /** A checkpoint with a `channel_values` dict that has no messages slot. */
  ghost predicate NoMessagesSlot(cp: Value)
  {
    && Resolve(cp, ["channel_values"]).Success?
    && Resolve(cp, ["channel_values"]).value.Object?
    && "messages" !in Resolve(cp, ["channel_values"]).value.fields
  }

  lemma DecodeCanonical(h: Value)
    requires Canonical(h)
    ensures SetAt(h.fields["checkpoint"], MessagesPath, RebuiltSlot(h)).Success?
    ensures Decode(h) == Success(Some(CheckpointTuple(
              h.fields["config"],
              SetAt(h.fields["checkpoint"], MessagesPath, RebuiltSlot(h)).value,
              h.fields["metadata"],
              h.fields["new_version"])))
  {
    assert Truthy(h) by {
      assert "config" in h.fields;
    }
    DecodeSucceedsIff(h);
    DecodeContents(h);
    var cp := h.fields["checkpoint"];
    var slot := RebuiltSlot(h);
    assert HistoryMessagesPath[1..] == MessagesPath;
    SetSucceedsIff(cp, MessagesPath, slot);
    assert Parent(MessagesPath) == ["channel_values"];
  }

  /** Encoding a checkpoint whose messages slot was just filled in, with `writes` recorded. */
  lemma EncodeRestored(config: Value, cp: Value, ps: seq<string>, md: map<string, Value>, newVersion: Value, writes: Value)
    requires NoMessagesSlot(cp)
    requires "writes" !in md
    ensures SetAt(cp, MessagesPath, MessageList(FromPrompts(ps))).Success?
    ensures Encode(CheckpointTuple(config, SetAt(cp, MessagesPath, MessageList(FromPrompts(ps))).value,
                                   Object(md["writes" := writes]), newVersion))
              == Success(History(config, cp, ps, Object(md), newVersion))
  {
    var ms := FromPrompts(ps);
    var slot := MessageList(ms);
    SetSucceedsIff(cp, MessagesPath, slot);
    assert Parent(MessagesPath) == ["channel_values"];
    var cp' := SetAt(cp, MessagesPath, slot).value;
    var t := CheckpointTuple(config, cp', Object(md["writes" := writes]), newVersion);
    SetThenResolve(cp, MessagesPath, slot);
    MessageListRoundTrip(slot, ms);
    assert HasMessages(t) && StoredMessages(t) == ms;
    PromptsRoundTrip(ps);
    assert Resolve(cp, MessagesPath).Failure? by {
      var cv := Resolve(cp, ["channel_values"]).value;
      assert MessagesPath[1..] == ["messages"];
      assert Resolve(cp, MessagesPath) == Resolve(cv, ["messages"]);
    }
    DeleteUndoesSet(cp, MessagesPath, slot);
    assert md["writes" := writes] - {"writes"} == md;
  }

  /**
   * Round trip from the client: a history as Encode produces it decodes to a
   * tuple that, once the graph run has recorded some `writes` in its
   * metadata, encodes back to the very same history.
   */
  lemma EncodeAfterDecode(h: Value, writes: Value)
    requires Canonical(h)
    ensures Decode(h).Success? && Decode(h).value.Some?
    ensures var t := Decode(h).value.value;
      && t.metadata.Object?
      && Encode(t.(metadata := Object(t.metadata.fields["writes" := writes]))) == Success(h)
  {
    DecodeCanonical(h);
    var pl := h.fields["prompt_list"];
    var ps := AsPromptList(pl).value;
    var md := h.fields["metadata"].fields;
    EncodeRestored(h.fields["config"], h.fields["checkpoint"], ps, md, h.fields["new_version"], writes);
    PromptListRoundTrip(pl, ps);
    assert History(h.fields["config"], h.fields["checkpoint"], ps, Object(md), h.fields["new_version"]).fields == h.fields;
  }
}
