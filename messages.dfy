/**
 * Conversation turns and the two list comprehensions of the history codec:
 * flattening message objects to their contents (app.py:113) and rebuilding
 * message objects from contents by the parity of their position (app.py:203).
 */
module Messages {

  /** A turn kept in the checkpoint: a HumanMessage or an AIMessage. */
  datatype Msg = Human(content: string) | AI(content: string)

  /** `[obj.content for obj in message_objects]`. */
  function ToPrompts(ms: seq<Msg>): (ps: seq<string>)
    ensures |ps| == |ms|
  {
    if ms == [] then [] else [ms[0].content] + ToPrompts(ms[1..])
  }

  /** The message rebuilt for position `index`: Human when even, AI when odd. */
  function MessageAt(index: nat, prompt: string): Msg
  {
    if index % 2 == 0 then Human(prompt) else AI(prompt)
  }

  /** The comprehension over `enumerate(prompt_list)`, with the enumeration starting at `index`. */
  function FromPromptsFrom(ps: seq<string>, index: nat): (ms: seq<Msg>)
    ensures |ms| == |ps|
  {
    if ps == [] then [] else [MessageAt(index, ps[0])] + FromPromptsFrom(ps[1..], index + 1)
  }

  /** `[HumanMessage(p) if idx % 2 == 0 else AIMessage(p) for idx, p in enumerate(ps)]`. */
  function FromPrompts(ps: seq<string>): (ms: seq<Msg>)
    ensures |ms| == |ps|
  {
    FromPromptsFrom(ps, 0)
  }

  /** Turns alternate Human, AI, Human, ... starting with Human. */
  predicate Alternating(ms: seq<Msg>)
  {
    forall i | 0 <= i < |ms| :: ms[i].Human? <==> i % 2 == 0
  }

  lemma {:induction false} FromPromptsFromAt(ps: seq<string>, index: nat, i: nat)
    requires i < |ps|
    ensures FromPromptsFrom(ps, index)[i] == MessageAt(index + i, ps[i])
  {
    if i > 0 {
      FromPromptsFromAt(ps[1..], index + 1, i - 1);
    }
  }

  /** Decoding gives position `i` a Human message exactly when `i` is even, holding `ps[i]`. */
  lemma FromPromptsAt(ps: seq<string>, i: nat)
    requires i < |ps|
    ensures FromPrompts(ps)[i] == (if i % 2 == 0 then Human(ps[i]) else AI(ps[i]))
    ensures FromPrompts(ps)[i].Human? <==> i % 2 == 0
    ensures FromPrompts(ps)[i].content == ps[i]
  {
    FromPromptsFromAt(ps, 0, i);
  }

  /** Encoding keeps length and order: entry `i` is the content of message `i`. */
  lemma {:induction false} ToPromptsAt(ms: seq<Msg>, i: nat)
    requires i < |ms|
    ensures ToPrompts(ms)[i] == ms[i].content
  {
    if i > 0 {
      ToPromptsAt(ms[1..], i - 1);
    }
  }

  /** Every decoded list alternates. */
  lemma FromPromptsAlternates(ps: seq<string>)
    ensures Alternating(FromPrompts(ps))
  {
    forall i | 0 <= i < |ps|
      ensures FromPrompts(ps)[i].Human? <==> i % 2 == 0
    {
      FromPromptsAt(ps, i);
    }
  }

  /** Round trip on strings: encoding the decoded messages gives back the list. */
  lemma PromptsRoundTrip(ps: seq<string>)
    ensures ToPrompts(FromPrompts(ps)) == ps
  {
    var ms := FromPrompts(ps);
    forall i | 0 <= i < |ps|
      ensures ToPrompts(ms)[i] == ps[i]
    {
      ToPromptsAt(ms, i);
      FromPromptsAt(ps, i);
    }
  }

  /**
   * Round trip on messages: decoding the encoding gives back the same list
   * exactly when the list alternates Human/AI starting with Human.
   */
  lemma MessagesRoundTrip(ms: seq<Msg>)
    ensures FromPrompts(ToPrompts(ms)) == ms <==> Alternating(ms)
  {
    var back := FromPrompts(ToPrompts(ms));
    PromptsRoundTrip(ToPrompts(ms));
    FromPromptsAlternates(ToPrompts(ms));
    if Alternating(ms) {
      forall i | 0 <= i < |ms|
        ensures back[i] == ms[i]
      {
        FromPromptsAt(ToPrompts(ms), i);
        ToPromptsAt(ms, i);
      }
    }
  }

  lemma {:induction false} ToPromptsConcat(a: seq<Msg>, b: seq<Msg>)
    ensures ToPrompts(a + b) == ToPrompts(a) + ToPrompts(b)
  {
    if a == [] {
      assert a + b == b;
    } else {
      assert (a + b)[1..] == a[1..] + b;
      ToPromptsConcat(a[1..], b);
    }
  }

  /**
   * One conversation turn appends a Human message and an AI reply to the
   * decoded history. The encoding then grows by the two contents, and the
   * parity rule reproduces the roles of the extended list exactly when the
   * history it started from had even length.
   */
  lemma TurnAppend(ps: seq<string>, input: string, reply: string)
    ensures ToPrompts(FromPrompts(ps) + [Human(input), AI(reply)]) == ps + [input, reply]
    ensures (FromPrompts(ps + [input, reply]) == FromPrompts(ps) + [Human(input), AI(reply)])
            <==> |ps| % 2 == 0
  {
    var turn := [Human(input), AI(reply)];
    ToPromptsConcat(FromPrompts(ps), turn);
    PromptsRoundTrip(ps);
    assert ToPrompts(turn) == [input, reply] by {
      assert turn[1..] == [AI(reply)];
      assert turn[1..][1..] == [];
    }
    var ext := ps + [input, reply];
    FromPromptsAt(ext, |ps|);
    FromPromptsAt(ext, |ps| + 1);
    if |ps| % 2 == 0 {
      forall i | 0 <= i < |ext|
        ensures FromPrompts(ext)[i] == (FromPrompts(ps) + turn)[i]
      {
        FromPromptsAt(ext, i);
        if i < |ps| {
          FromPromptsAt(ps, i);
        }
      }
    }
  }
}
