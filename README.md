# Conversation-history codec of a Flask/LangGraph chat server

The server keeps no conversation state of its own. At the end of each request it reads the
checkpoint that LangGraph's in-memory store holds and turns it into a JSON `history` record that
the client sends back next time. On the next request it turns that record back into a checkpoint.
This project models that codec, the in-place dictionary updates it makes, and the guard at the
top of the `/` route. It then proves the properties the design depends on:

- decoding assigns roles by parity: even positions are Human, odd positions are AI;
- both directions keep length and order;
- it proves both round trips, with messages restored up to their role and content;
- encoding removes exactly two keys, and decoding puts exactly one back;
- every other part of the checkpoint is left unchanged.

Modules, one per concern of `app.py`:

- `Wrappers`: `Option` and `Result`.
- `Messages`: a turn (`Human` or `AI`), the two list comprehensions (message objects to their
  contents, and contents back to messages by position), and the parity and round-trip lemmas.
- `Values`: the Python values the code touches: JSON data plus the message objects inside a
  checkpoint. It defines Python truthiness, `in` (key, element or substring), and `x[k]` reads,
  nested assignment and nested `del`, each with the exception Python raises. It also proves
  lemmas that an assignment or deletion at one path leaves every path that parts from it unchanged.
- `Codec`: `Encode` (`post_processing`) and `Decode` (the restoring branch of
  `init_state_graph`) as functions, their success conditions, what they produce, and the two round
  trips.
- `Dicts`: the dictionaries the code mutates in place, as a class `Dict`. The methods
  `PostProcessing` and `RestoreHistory` perform the `del` statements and the assignment step by
  step. Their postconditions tie the result to `Encode`/`Decode` and state the new contents of
  every dict they touch, including after an exception partway through.
- `Handler`: the route's guard and dispatch, up to the model call.

Behaviour of the code that a reader might not expect, which the model follows:

- A malformed `history` is not answered with a 400. It raises an uncaught exception, so the
  route answers 500. `Handler.Admit` returns `ServerError` for it.
- `human_input` need not be a string: the code checks only that the key is present.
- A JSON string payload containing the text `human_input`, or a JSON list payload with the
  string `"human_input"` as an element, passes the guard,
  because of Python's `in`. It then fails with a `TypeError` at the first subscript.

## Model

| member | source | states |
|---|---|---|
| Messages.ToPrompts | app.py:113 | flattening message objects to their contents keeps the number of entries |
| Messages.ToPromptsAt | app.py:112-113 | entry `i` of `prompt_list` is the content of checkpoint message `i` (order kept) |
| Messages.FromPromptsAt | app.py:203 | decoded message `i` is Human exactly when `i` is even, AI otherwise, and holds `prompt_list[i]` |
| Messages.FromPromptsAlternates | app.py:203 | every decoded list alternates Human/AI starting with Human |
| Messages.PromptsRoundTrip | app.py:203 | encoding the messages decoded from any string list gives that list back |
| Messages.MessagesRoundTrip | app.py:203 | up to role and content, decoding the encoding of a message list gives it back if and only if it alternates Human/AI starting with Human |
| Messages.TurnAppend | app.py:55-58 | after a turn appends a Human input and an AI reply, the encoding is the old list plus the two texts; the parity rule reproduces the extended roles exactly when the old list had even length |
| Values.Contains | app.py:52 | `key in payload` is a key test on dicts, an element test on lists, a substring test on strings (see Values.IsInfixIff), and raises TypeError on numbers, booleans and None |
| Values.IsInfixIff | app.py:52 | `key in s` on strings holds exactly when `key` occurs at some position of `s` |
| Values.SetSucceedsIff | app.py:204 | a nested assignment succeeds exactly when all but the last key lead to a dict |
| Values.DeleteSucceedsIff | app.py:115-116 | a nested `del` succeeds exactly when the whole path resolves |
| Values.SetThenResolve | app.py:204 | after the assignment the path holds the assigned value |
| Values.DeleteThenResolve | app.py:115-116 | after the deletion reading the path raises KeyError for the deleted key |
| Values.SetFrame | app.py:204 | an assignment leaves every path that parts from the assigned one unchanged |
| Values.DeleteFrame | app.py:115-116 | a deletion leaves every path that parts from the deleted one unchanged |
| Values.SetRestoresDeleted | app.py:115 | assigning back the deleted value restores the original value exactly |
| Values.DeleteUndoesSet | app.py:204 | deleting a freshly assigned key restores the original value exactly |
| Codec.Decode | app.py:202 | decoding starts an empty session (puts nothing) exactly when the history is falsy |
| Codec.MessageListRoundTrip | app.py:113 | the messages slot yields a message list exactly when it is that list of message objects |
| Codec.PromptListRoundTrip | app.py:203 | a JSON list yields a list of contents exactly when it is that list of strings |
| Codec.EncodeSucceedsIff | app.py:112-116 | encoding succeeds exactly when the messages slot holds message objects and metadata has `writes`; a missing slot or a missing `writes` key fails with that KeyError |
| Codec.EncodeContents | app.py:105-122 | the history has exactly the five keys; config and version are as stored; `prompt_list[i]` is the content of message `i`; the checkpoint has lost only `channel_values.messages` and the metadata only `writes`, every other path unchanged |
| Codec.DecodeSucceedsIff | app.py:202-209 | a truthy history decodes exactly when it is a dict with the five keys, a readable `prompt_list` and a `checkpoint.channel_values` dict |
| Codec.DecodeContents | app.py:202-209 | the tuple put into the store has config, metadata and version as sent, and the rebuilt messages in `checkpoint.channel_values.messages`, every other checkpoint path as sent |
| Codec.DecodeAfterEncode | app.py:113-204 | decoding an encoded history restores the stored tuple except `metadata.writes`, with messages up to role and content, exactly when the stored messages alternate Human/AI |
| Codec.EncodeAfterDecode | app.py:113-209 | a history in the shape encoding produces decodes to a tuple that, once a `writes` entry is recorded, encodes back to the identical history |
| Messages.MessageAt | app.py:203 | definition: the message for position `index`, Human when even, AI when odd; properties in Messages.FromPromptsAt |
| Messages.FromPromptsFrom | app.py:203 | definition of the comprehension over `enumerate` from a given index, proved to keep the length; properties in Messages.FromPromptsFromAt |
| Messages.FromPromptsFromAt | app.py:203 | message `i` of the enumeration started at `index` is the one for position `index + i` |
| Messages.FromPrompts | app.py:203 | definition of the decoding comprehension, proved to keep the length; properties in Messages.FromPromptsAt |
| Values.Truthy | app.py:52 | definition of Python truthiness (also used at app.py:202); properties in Codec.Decode and Handler.Admit |
| Values.Lookup | app.py:112 | `v[key]` succeeds exactly on a dict holding `key`, and gives its value |
| Values.Resolve | app.py:112 | definition of a chain of subscripts evaluated left to right; properties in Values.DeleteSucceedsIff and Values.SetSucceedsIff |
| Values.SetAt | app.py:204 | definition of a nested assignment; succeeds only on a dict, which it returns; properties in Values.SetThenResolve and Values.SetFrame |
| Values.DeleteAt | app.py:115-116 | definition of a nested `del`; succeeds only on a dict, which it returns; properties in Values.DeleteThenResolve and Values.DeleteFrame |
| Codec.AsMessages | app.py:113 | definition: the `.content`-bearing message objects of the slot; properties in Codec.MessageListRoundTrip |
| Codec.AsPromptList | app.py:203 | definition: what iterating `prompt_list` yields as contents; properties in Codec.PromptListRoundTrip |
| Codec.History | app.py:118-122 | definition of the five-field history record; properties in Codec.EncodeContents |
| Codec.Encode | app.py:105-122 | definition of `post_processing`; properties in Codec.EncodeSucceedsIff, Codec.EncodeContents and Codec.DecodeAfterEncode |
| Codec.WriteBackMessages | app.py:203-204 | definition of the history after the rebuilt messages are assigned; properties in Codec.DecodeContents |
| Handler.ReadInput | app.py:56 | definition of the `payload['human_input']` read; properties in Handler.Admit |
| Dicts.Dict.Delete | app.py:115-116 | `del d[a]...[k]` on a mutable dict: new contents are the deletion, or unchanged with the KeyError/TypeError |
| Dicts.Dict.Assign | app.py:204 | `d[a]...[k] = x` on a mutable dict: new contents are the assignment, or unchanged with the error |
| Dicts.PostProcessing | app.py:105-122 | returns Encode of the stored tuple; the checkpoint loses its messages slot as soon as the messages were read, even when `del metadata['writes']` then raises; metadata loses `writes` only on success |
| Dicts.RestoreHistory | app.py:202-209 | returns Decode of the history; the history dict holds the rebuilt messages once the assignment ran, and is untouched when empty or when the assignment failed |
| Handler.Admit | app.py:50-56 | the request is rejected with 400 exactly when the payload is missing or falsy, or lacks `human_input`; a request that reaches the model call had a JSON object payload, and its input is `payload['human_input']` |
| Handler.Dispatch | app.py:55 | for an object with `human_input`: a checkpoint tuple is handed to the store's `put` exactly when `history` is present, truthy and passes the codec's own subscripts (app.py:203-209); a missing or falsy history starts afresh; one that fails those subscripts is a server error |
| Handler.RestoredMessages | app.py:202-204 | a restored session holds the messages rebuilt from the client's `prompt_list`, alternating Human/AI |

## Left out

- `Messages.Msg` keeps only a message's role and content. The program drops the ids, response
  metadata, additional arguments and names of the stored message objects at app.py:113, and does
  not rebuild them at app.py:203. So `Codec.DecodeAfterEncode` and `Messages.MessagesRoundTrip`
  restore messages only up to role and content, and the model cannot show what is lost.
- HTTP and server plumbing are not modelled: the Flask route, `request.get_json`, `abort`,
  `waitress.serve` and environment loading (app.py:13-21, 215-217). The JSON body is a parameter of
  `Handler.Admit`, and the 400 is an outcome value.
- The model call is not modelled: `ChatGroq` and `model.invoke` (app.py:75-82) are a remote
  network call, and the temperature is a floating-point setting.
- Prompt assembly is not modelled: `trim_messages` and `ChatPromptTemplate` (app.py:129-171) are
  library calls, and token counting uses the remote tokenizer.
- LangGraph internals are not modelled: `StateGraph`, `compile`, `invoke`, the message-append
  reducer, and `MemorySaver.put`/`get_tuple`. The tuple read from the store is a parameter of
  `Encode`/`PostProcessing`. The tuple written to the store is the result of
  `Decode`/`RestoreHistory`. `Messages.TurnAppend` assumes one graph run appends exactly one
  Human and one AI message. `Codec.EncodeAfterDecode` assumes the run records a `writes` entry in
  the metadata.
- A missing checkpoint in the store (`get_tuple` returning None) is not modelled, because the
  store is foreign code.
- The reply slice `pretty_repr()[82:]` (app.py:125) is not modelled: it depends on the library's
  print format.
- The shared `thread_id "1"` (app.py:19) is not modelled: it is a hazard between concurrent
  requests, not sequential logic.
- Object aliasing is not modelled. Dicts nested inside a mutable dict are values, so an update
  through another reference to the same inner dict is not captured. `Dicts.PostProcessing`
  requires the checkpoint and metadata dicts to be distinct objects, as the store returns them.
- Key order of JSON objects and Python dicts is not modelled: maps are unordered.
- Floating-point JSON numbers are not modelled: numbers are integers.
- Iterating a `prompt_list` that is a dict (which yields its keys in insertion order) is not
  modelled; such a history is rejected with `BadPromptList`. Iterating a string by characters
  is modelled.
- List-valued message content, which LangChain would accept, is rejected as `BadPromptList`.
- `Codec.Encode` fails with `NoContent` whenever the messages slot is not a list. Python would
  iterate any iterable there, so an empty dict or empty string slot would give an empty
  `prompt_list` and succeed. LangGraph always stores a list there.
- Failures inside the checkpoint store's own `put` are not modelled. `put` is library code that
  reads further keys, such as `config['configurable']['thread_id']` and `checkpoint['id']`.
  `Handler.Admit` and `Handler.Dispatch` therefore report `Ready(Some(t))` when `t` is handed to
  `put`, even for a history whose `put` would raise a KeyError and answer 500.
