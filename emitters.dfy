/**
 * The two response emitters. Chunks are modelled as events; their identifiers, timestamps and
 * JSON encoding are not.
 */
module Emitters {
  import opened Text
  import opened Classifier
  import opened Upstream

  /** One `data:` line of the event stream. */
  datatype Event =
    | Start(model: string)                    // delta {"role": "assistant"}
    | Delta(model: string, content: string)   // delta {"content": fragment}
    | Stop(model: string)                     // empty delta, finish_reason "stop"
    | Done                                    // "data: [DONE]"

  /** The aggregated `chat.completion` object: its model and its assistant message's content. */
  datatype Completion = Completion(model: string, content: string)

  /** One content event per fragment, in the fragments' order. */
  function Deltas(model: string, fragments: seq<string>): seq<Event>
    decreases fragments
  {
    if fragments == [] then [] else [Delta(model, fragments[0])] + Deltas(model, fragments[1..])
  }

  lemma {:induction false} DeltasAppend(model: string, a: seq<string>, b: seq<string>)
    ensures Deltas(model, a + b) == Deltas(model, a) + Deltas(model, b)
    decreases a
  {
    if a == [] {
      assert a + b == b;
    } else {
      assert (a + b)[0] == a[0];
      assert (a + b)[1..] == a[1..] + b;
      DeltasAppend(model, a[1..], b);
    }
  }

  lemma {:induction false} DeltasAt(model: string, fragments: seq<string>, i: int)
    requires 0 <= i < |fragments|
    ensures |Deltas(model, fragments)| == |fragments|
    ensures Deltas(model, fragments)[i] == Delta(model, fragments[i])
    decreases fragments
  {
    if i > 0 {
      DeltasAt(model, fragments[1..], i - 1);
    } else {
      DeltasLength(model, fragments);
    }
  }

  lemma {:induction false} DeltasLength(model: string, fragments: seq<string>)
    ensures |Deltas(model, fragments)| == |fragments|
    decreases fragments
  {
    if fragments != [] {
      DeltasLength(model, fragments[1..]);
    }
  }

  /** The whole stream: the start event, one delta per fragment, the stop event and the sentinel. */
  function StreamEvents(model: string, fragments: seq<string>): seq<Event> {
    [Start(model)] + Deltas(model, fragments) + [Stop(model), Done]
  }

  /** The text a client reassembles from a stream: the content of every delta, in order. */
  function StreamedText(events: seq<Event>): string
    decreases events
  {
    if events == [] then ""
    else (match events[0] case Delta(_, content) => content case _ => "") + StreamedText(events[1..])
  }

  /** `create_openai_streaming_response`: the events written to the client, in order. */
  method CreateStreamingResponse(client: Client, lines: seq<Line>) returns (events: seq<Event>)
    ensures events == StreamEvents(client.ModelName(), Classify(lines, client.ignoreThinking))
  {
    var model := client.ModelName();
    events := [Start(model)];
    var fragments := ParseStreamingJson(lines, client.ignoreThinking);
    // The handler writes one delta event for each fragment the classifier hands it.
    for i := 0 to |fragments|
      invariant events == [Start(model)] + Deltas(model, fragments[..i])
    {
      assert fragments[..i + 1] == fragments[..i] + [fragments[i]];
      DeltasAppend(model, fragments[..i], [fragments[i]]);
      assert Deltas(model, [fragments[i]]) == [Delta(model, fragments[i])] + Deltas(model, []);
      events := events + [Delta(model, fragments[i])];
    }
    assert fragments[..|fragments|] == fragments;
    events := events + [Stop(model), Done];
  }

  /** `create_openai_full_response`: the handler appends every fragment, then the list is joined. */
  method CreateFullResponse(client: Client, lines: seq<Line>) returns (completion: Completion)
    ensures completion.model == client.ModelName()
    ensures completion.content == Join(Classify(lines, client.ignoreThinking))
  {
    var fullResponse := ParseStreamingJson(lines, client.ignoreThinking);
    var content := Join(fullResponse);
    completion := Completion(client.ModelName(), content);
  }

  lemma {:induction false} StreamedTextAppend(a: seq<Event>, b: seq<Event>)
    ensures StreamedText(a + b) == StreamedText(a) + StreamedText(b)
    decreases a
  {
    if a == [] {
      assert a + b == b;
    } else {
      assert (a + b)[0] == a[0];
      assert (a + b)[1..] == a[1..] + b;
      StreamedTextAppend(a[1..], b);
    }
  }

  lemma {:induction false} DeltasText(model: string, fragments: seq<string>)
    ensures StreamedText(Deltas(model, fragments)) == Join(fragments)
    decreases fragments
  {
    if fragments != [] {
      StreamedTextAppend([Delta(model, fragments[0])], Deltas(model, fragments[1..]));
      DeltasText(model, fragments[1..]);
      assert StreamedText([Delta(model, fragments[0])]) == fragments[0] + StreamedText([]);
    }
  }

  /**
   * The emitters agree: the deltas of the stream concatenate to the full response's content,
   * which is the in-order concatenation of every fragment.
   */
  lemma EmittersAgree(model: string, fragments: seq<string>)
    ensures StreamedText(StreamEvents(model, fragments)) == Join(fragments)
  {
    var start, deltas, tail := [Start(model)], Deltas(model, fragments), [Stop(model), Done];
    StreamedTextAppend(start + deltas, tail);
    StreamedTextAppend(start, deltas);
    DeltasText(model, fragments);
    assert StreamedText(start) == "" + StreamedText([]);
    assert tail[1..] == [Done] && tail[1..][1..] == [];
    assert StreamedText(tail) == "" + ("" + StreamedText([]));
  }

  /**
   * The stream has exactly one start event, first, then one content event per fragment in
   * order, then the stop event, then the sentinel, and nothing else.
   */
  lemma StreamShape(model: string, fragments: seq<string>)
    ensures var events := StreamEvents(model, fragments);
      && |events| == |fragments| + 3
      && events[0] == Start(model)
      && (forall i :: 0 <= i < |fragments| ==> events[i + 1] == Delta(model, fragments[i]))
      && events[|fragments| + 1] == Stop(model)
      && events[|fragments| + 2] == Done
      && (forall i :: 0 < i < |events| ==> !events[i].Start?)
  {
    var events := StreamEvents(model, fragments);
    DeltasLength(model, fragments);
    forall i | 0 <= i < |fragments|
      ensures events[i + 1] == Delta(model, fragments[i])
    {
      DeltasAt(model, fragments, i);
    }
    forall i | 0 < i < |events|
      ensures !events[i].Start?
    {
      if i <= |fragments| {
        DeltasAt(model, fragments, i - 1);
      }
    }
  }
}
