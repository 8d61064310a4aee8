/** A conversation's history, put into the order a model provider accepts. */
module History {
  import opened Text

  // ----- what arrives -----

  /** A field of a restored call: it may be missing, null, a string, or a value JSON can write out. */
  datatype Field = Missing | Null | Written(text: string) | Valued(json: string)

  /** The call as AG-UI nests it. */
  datatype Nested = Nested(name: Field, arguments: Field)

  datatype Call = Call(id: Option<string>, nested: Option<Nested>, name: Field, args: Field)

  /** Contents are what the source makes of them as text; a user's parts are already the provider's. */
  datatype Message =
    | User(text: string)
    | System(content: Option<string>)
    | Developer(content: Option<string>)
    | Assistant(content: Option<string>, calls: seq<Call>)
    | Tool(id: Option<string>, content: Option<string>)
    | Other

  datatype Context = Context(description: string, value: string)

  // ----- what the provider is sent -----

  datatype Made = Made(id: Option<string>, name: string, arguments: string)

  datatype Provided =
    | SystemSays(content: string)
    | UserSays(content: string)
    | AssistantSays(said: Option<string>, calls: seq<Made>)
    | ToolSays(id: string, content: string)

  const NO_ANSWER_CAME :=
    "No result. The person did not answer this, and the run it belonged to has ended. " +
    "Do not wait for it and do not assume it succeeded. " +
    "Carry on without it, and say plainly what you could not do if it mattered."

  /** `a ?? b` */
  function OrElse(a: Field, b: Field): Field {
    if a.Missing? || a.Null? then b else a
  }

  /** `callDetails` */
  function CallDetails(call: Call): Made {
    var name := OrElse(if call.nested.Some? then call.nested.value.name else Missing, call.name);
    var args := OrElse(if call.nested.Some? then call.nested.value.arguments else Missing, call.args);
    Made(call.id,
         if name.Written? && name.text != "" then name.text else "tool",
         match args
         case Written(text) => text
         case Valued(json) => json
         case _ => "{}")
  }

  /** The two spellings of one call reach the provider as the same call, and it is the one that was made. */
  lemma TwoSpellingsOneCall(id: Option<string>, name: Field, args: Field)
    ensures CallDetails(Call(id, Some(Nested(name, args)), Missing, Missing)) == CallDetails(Call(id, None, name, args))
    ensures name.Written? && name.text != "" && args.Written? ==> CallDetails(Call(id, None, name, args)) == Made(id, name.text, args.text)
  {
  }

  /** Each field of a call is taken from the nested spelling unless it is missing or null there. */
  lemma NestedSpellingFirst(id: Option<string>, nested: Nested, name: Field, args: Field)
    ensures CallDetails(Call(id, Some(nested), name, args)) == CallDetails(Call(id, None,
      if nested.name == Missing || nested.name == Null then name else nested.name,
      if nested.arguments == Missing || nested.arguments == Null then args else nested.arguments))
  {
  }

  /** What no spelling gives is made up: `tool` for a name, `{}` for arguments; what is not text is written as JSON. */
  lemma MissingPartsAreMadeUp(id: Option<string>, name: Field, args: Field)
    ensures var made := CallDetails(Call(id, None, name, args));
      && made.id == id
      && (made.name == "tool" <==> name.Missing? || name.Null? || name.Valued? || name.text == "" || name.text == "tool")
      && (args.Missing? || args.Null? ==> made.arguments == "{}") && (args.Valued? ==> made.arguments == args.json)
  {
  }

  function ShownCalls(calls: seq<Call>): (made: seq<Made>)
    ensures |made| == |calls| && forall i | 0 <= i < |calls| :: made[i] == CallDetails(calls[i])
  {
    if calls == [] then [] else [CallDetails(calls[0])] + ShownCalls(calls[1..])
  }

  function TextOf(content: Option<string>): string {
    if content.Some? then content.value else ""
  }

  predicate Names(m: Message, id: string) {
    m.Tool? && m.id == Some(id)
  }

  /** What the last result recorded for a call says, or that no answer came. */
  function AnswerTo(history: seq<Message>, id: string): string {
    if history == [] then NO_ANSWER_CAME
    else if Names(history[|history| - 1], id) then TextOf(history[|history| - 1].content)
    else AnswerTo(history[..|history| - 1], id)
  }

  function Identified(calls: seq<Call>): (ids: seq<string>)
    ensures forall id | id in ids :: id != ""
  {
    if calls == [] then []
    else (if calls[0].id.Some? && calls[0].id.value != "" then [calls[0].id.value] else []) + Identified(calls[1..])
  }

  function Answering(ids: seq<string>, history: seq<Message>): (replies: seq<Provided>)
    ensures |replies| == |ids| && forall k | 0 <= k < |ids| :: replies[k] == ToolSays(ids[k], AnswerTo(history, ids[k]))
  {
    if ids == [] then [] else [ToolSays(ids[0], AnswerTo(history, ids[0]))] + Answering(ids[1..], history)
  }

  /** What one message becomes, given the whole history it stands in. */
  function Becomes(m: Message, history: seq<Message>): seq<Provided> {
    match m
    case User(content) => [UserSays(content)]
    case System(content) => [SystemSays(TextOf(content))]
    case Developer(content) => [SystemSays(TextOf(content))]
    case Assistant(content, calls) => [AssistantSays(content, ShownCalls(calls))] + Answering(Identified(calls), history)
    case Tool(_, _) => []
    case Other => []
  }

  function Translated(rest: seq<Message>, history: seq<Message>): seq<Provided> {
    if rest == [] then [] else Becomes(rest[0], history) + Translated(rest[1..], history)
  }

  function Opening(guidance: string, context: seq<Context>): seq<Provided> {
    [SystemSays(guidance)] + seq(|context|, i requires 0 <= i < |context| => SystemSays(context[i].description + "\n" + context[i].value))
  }

  function Sent(guidance: string, context: seq<Context>, history: seq<Message>): seq<Provided> {
    Opening(guidance, context) + Translated(history, history)
  }

  // ----- the source's loops -----

  /** What the two passes know of a history: the last result of every call that has one. */
  ghost predicate Gathered(answered: set<string>, results: map<string, string>, history: seq<Message>) {
    && answered == results.Keys
    && (forall id | id in results :: results[id] == AnswerTo(history, id))
    && forall id | id != "" && id !in results :: AnswerTo(history, id) == NO_ANSWER_CAME
  }

  ghost predicate HasResult(history: seq<Message>, id: string) {
    exists m | m in history :: Names(m, id)
  }

  /** The map of results after some of the messages. */
  ghost predicate Resulted(results: map<string, string>, history: seq<Message>) {
    forall id ::
      && (id in results <==> id != "" && HasResult(history, id))
      && (id in results ==> results[id] == AnswerTo(history, id))
      && (id != "" && id !in results ==> AnswerTo(history, id) == NO_ANSWER_CAME)
  }

  lemma OneMoreMessage(history: seq<Message>, m: Message, id: string)
    ensures HasResult(history + [m], id) <==> HasResult(history, id) || Names(m, id)
    ensures AnswerTo(history + [m], id) == if Names(m, id) then TextOf(m.content) else AnswerTo(history, id)
  {
    var upTo := history + [m];
    assert upTo[..|history|] == history && upTo[|history|] == m;
    if HasResult(history, id) {
      var k :| k in history && Names(k, id);
      assert k in upTo;
    }
    assert m in upTo;
  }

  lemma OneMoreResult(results: map<string, string>, history: seq<Message>, m: Message)
    requires Resulted(results, history)
    ensures Resulted(
      if m.Tool? && m.id.Some? && m.id.value != "" then results[m.id.value := TextOf(m.content)] else results,
      history + [m])
  {
    forall id: string {
      OneMoreMessage(history, m, id);
    }
  }

  /** The two passes that collect what was answered: they agree on which calls those are. */
  method Collect(history: seq<Message>) returns (answered: set<string>, results: map<string, string>)
    ensures Gathered(answered, results, history)
    ensures forall id :: id in answered <==> id != "" && HasResult(history, id)
  {
    answered := set m | m in history && m.Tool? && m.id.Some? && m.id.value != "" :: m.id.value;
    results := map[];
    for n := 0 to |history|
      invariant Resulted(results, history[..n])
    {
      var m := history[n];
      assert history[..n + 1] == history[..n] + [m];
      OneMoreResult(results, history[..n], m);
      if m.Tool? && m.id.Some? && m.id.value != "" {
        results := results[m.id.value := TextOf(m.content)];
      }
    }
    assert history[..|history|] == history;
    forall id ensures id in answered <==> id != "" && HasResult(history, id) {
    }
  }

  lemma IdentifiedFrom(calls: seq<Call>, n: nat, history: seq<Message>)
    requires n < |calls|
    ensures Answering(Identified(calls[n..]), history) ==
      (if calls[n].id.Some? && calls[n].id.value != "" then [ToolSays(calls[n].id.value, AnswerTo(history, calls[n].id.value))] else [])
      + Answering(Identified(calls[n + 1..]), history)
  {
    assert calls[n..][1..] == calls[n + 1..];
  }

  method Reply(calls: seq<Call>, answered: set<string>, results: map<string, string>, ghost history: seq<Message>)
    returns (replies: seq<Provided>)
    requires Gathered(answered, results, history)
    ensures replies == Answering(Identified(calls), history)
  {
    replies := [];
    for n := 0 to |calls|
      invariant replies + Answering(Identified(calls[n..]), history) == Answering(Identified(calls), history)
    {
      ghost var before := replies;
      ghost var reply := if calls[n].id.Some? && calls[n].id.value != ""
        then [ToolSays(calls[n].id.value, AnswerTo(history, calls[n].id.value))] else [];
      IdentifiedFrom(calls, n, history);
      Associates(before, reply, Answering(Identified(calls[n + 1..]), history));
      if calls[n].id.Some? && calls[n].id.value != "" {
        var id := calls[n].id.value;
        var content := if id in answered then (if id in results then results[id] else "") else NO_ANSWER_CAME;
        replies := replies + [ToolSays(id, content)];
      }
      assert replies == before + reply;
    }
    assert calls[|calls|..] == [];
  }

  /** The loop's body: what is pushed for one message. */
  method Put(messages: seq<Provided>, m: Message, answered: set<string>, results: map<string, string>, ghost history: seq<Message>)
    returns (longer: seq<Provided>)
    requires Gathered(answered, results, history)
    ensures longer == messages + Becomes(m, history)
  {
    longer := messages;
    match m {
      case Tool(_, _) =>
      case User(text) => longer := longer + [UserSays(text)];
      case System(content) => longer := longer + [SystemSays(TextOf(content))];
      case Developer(content) => longer := longer + [SystemSays(TextOf(content))];
      case Assistant(content, calls) =>
        var replies := Reply(calls, answered, results, history);
        longer := longer + [AssistantSays(content, ShownCalls(calls))] + replies;
        Associates(messages, [AssistantSays(content, ShownCalls(calls))], replies);
      case Other =>
    }
  }

  method ToProviderMessages(guidance: string, context: seq<Context>, history: seq<Message>) returns (messages: seq<Provided>)
    ensures messages == Sent(guidance, context, history)
  {
    messages := Opening(guidance, context);
    var answered, results := Collect(history);
    for n := 0 to |history|
      invariant messages + Translated(history[n..], history) == Sent(guidance, context, history)
    {
      ghost var before := messages;
      assert Translated(history[n..], history) == Becomes(history[n], history) + Translated(history[n + 1..], history) by {
        assert history[n..][1..] == history[n + 1..];
      }
      messages := Put(messages, history[n], answered, results, history);
      Associates(before, Becomes(history[n], history), Translated(history[n + 1..], history));
    }
    assert history[|history|..] == [];
  }

  // ----- what a provider accepts -----

  function IdsIn(calls: seq<Made>): seq<string> {
    if calls == [] then []
    else (if calls[0].id.Some? && calls[0].id.value != "" then [calls[0].id.value] else []) + IdsIn(calls[1..])
  }

  /** The last result recorded in the history for a call, or the notice when there is none. */
  ghost predicate IsAnswer(history: seq<Message>, id: string, content: string) {
    || (content == NO_ANSWER_CAME && forall m | m in history :: !Names(m, id))
    || exists i | 0 <= i < |history| ::
         && Names(history[i], id) && content == TextOf(history[i].content)
         && forall j | i < j < |history| :: !Names(history[j], id)
  }

  /** Each call that has an id is answered straight after its message, in call order; no other tool message. */
  ghost predicate Paired(out: seq<Provided>, history: seq<Message>)
    decreases |out|
  {
    out == [] ||
    match out[0]
    case ToolSays(_, _) => false
    case AssistantSays(_, calls) =>
      var ids := IdsIn(calls);
      && |ids| < |out|
      && (forall k | 0 <= k < |ids| :: out[k + 1].ToolSays? && out[k + 1].id == ids[k] && IsAnswer(history, ids[k], out[k + 1].content))
      && Paired(out[|ids| + 1..], history)
    case _ => Paired(out[1..], history)
  }

  lemma {:induction false} AnswerIsLast(history: seq<Message>, id: string)
    ensures IsAnswer(history, id, AnswerTo(history, id))
  {
    if history != [] && !Names(history[|history| - 1], id) {
      var before := history[..|history| - 1];
      AnswerIsLast(before, id);
      if i :| 0 <= i < |before| && Names(before[i], id) && AnswerTo(history, id) == TextOf(before[i].content)
              && forall j | i < j < |before| :: !Names(before[j], id) {
        assert Names(history[i], id);
        forall j | i < j < |history| ensures !Names(history[j], id) {
          assert j < |before| ==> history[j] == before[j];
        }
      } else {
        forall m | m in history ensures !Names(m, id) {
          assert m in before || m == history[|history| - 1];
        }
      }
    }
  }

  lemma {:induction false} ShownIds(calls: seq<Call>)
    ensures IdsIn(ShownCalls(calls)) == Identified(calls)
  {
    if calls != [] {
      ShownIds(calls[1..]);
      assert ShownCalls(calls)[1..] == ShownCalls(calls[1..]);
    }
  }

  lemma {:induction false} TranslatedIsPaired(rest: seq<Message>, history: seq<Message>)
    ensures Paired(Translated(rest, history), history)
  {
    if rest != [] {
      TranslatedIsPaired(rest[1..], history);
      var out, after := Translated(rest, history), Translated(rest[1..], history);
      match rest[0] {
        case Assistant(content, calls) => AnsweredIsPaired(content, calls, after, history);
        case Tool(_, _) => assert out == after;
        case Other => assert out == after;
        case _ => assert out[1..] == after;
      }
    }
  }

  lemma AnsweredIsPaired(content: Option<string>, calls: seq<Call>, after: seq<Provided>, history: seq<Message>)
    requires Paired(after, history)
    ensures Paired(Becomes(Assistant(content, calls), history) + after, history)
  {
    var ids := Identified(calls);
    var replies := Answering(ids, history);
    var out := [AssistantSays(content, ShownCalls(calls))] + replies + after;
    ShownIds(calls);
    assert out[|ids| + 1..] == after;
    forall k | 0 <= k < |ids|
      ensures out[k + 1] == ToolSays(ids[k], AnswerTo(history, ids[k])) && IsAnswer(history, ids[k], out[k + 1].content) {
      assert out[k + 1] == replies[k];
      AnswerIsLast(history, ids[k]);
    }
  }

  lemma {:induction false} PairedAfterSystem(opening: seq<Provided>, out: seq<Provided>, history: seq<Message>)
    requires (forall m | m in opening :: m.SystemSays?) && Paired(out, history)
    ensures Paired(opening + out, history)
  {
    if opening == [] {
      assert opening + out == out;
    } else {
      PairedAfterSystem(opening[1..], out, history);
      assert (opening + out)[1..] == opening[1..] + out;
    }
  }

  /** Whatever the history, what is sent pairs every call with its answer and holds no other tool message. */
  lemma SentIsPaired(guidance: string, context: seq<Context>, history: seq<Message>)
    ensures Paired(Sent(guidance, context, history), history)
  {
    TranslatedIsPaired(history, history);
    PairedAfterSystem(Opening(guidance, context), Translated(history, history), history);
  }

  // ----- the turns themselves -----

  function Spoken(out: seq<Provided>): seq<Provided> {
    if out == [] then [] else (if out[0].ToolSays? then [] else [out[0]]) + Spoken(out[1..])
  }

  /** The message itself, without the answers put behind it. */
  function Itself(m: Message): seq<Provided> {
    match m
    case User(content) => [UserSays(content)]
    case System(content) => [SystemSays(TextOf(content))]
    case Developer(content) => [SystemSays(TextOf(content))]
    case Assistant(content, calls) => [AssistantSays(content, ShownCalls(calls))]
    case _ => []
  }

  function OneByOne(history: seq<Message>): seq<Provided> {
    if history == [] then [] else Itself(history[0]) + OneByOne(history[1..])
  }

  lemma {:induction false} SpokenJoins(a: seq<Provided>, b: seq<Provided>)
    ensures Spoken(a + b) == Spoken(a) + Spoken(b)
  {
    if a == [] {
      assert a + b == b;
    } else {
      var head := if a[0].ToolSays? then [] else [a[0]];
      SpokenJoins(a[1..], b);
      assert (a + b)[0] == a[0] && (a + b)[1..] == a[1..] + b;
      Associates(head, Spoken(a[1..]), Spoken(b));
    }
  }

  lemma {:induction false} ToolsAreNotSpoken(out: seq<Provided>)
    requires forall m | m in out :: m.ToolSays?
    ensures Spoken(out) == []
  {
    if out != [] { ToolsAreNotSpoken(out[1..]); }
  }

  lemma {:induction false} SystemIsSpoken(out: seq<Provided>)
    requires forall m | m in out :: m.SystemSays?
    ensures Spoken(out) == out
  {
    if out != [] {
      assert out[0] in out;
      SystemIsSpoken(out[1..]);
      assert out == [out[0]] + out[1..];
    }
  }

  lemma {:induction false} TranslatedSpeaks(rest: seq<Message>, history: seq<Message>)
    ensures Spoken(Translated(rest, history)) == OneByOne(rest)
  {
    if rest != [] {
      TranslatedSpeaks(rest[1..], history);
      SpokenJoins(Becomes(rest[0], history), Translated(rest[1..], history));
      if rest[0].Assistant? {
        var itself, replies := Itself(rest[0]), Answering(Identified(rest[0].calls), history);
        SpokenJoins(itself, replies);
        ToolsAreNotSpoken(replies);
      }
    }
  }

  /** Instructions and results are sent in their own words, or as nothing when they have none. */
  lemma WordsAreSent(history: seq<Message>, id: string, content: Option<string>)
    ensures var words := if content == None then "" else content.value;
      && Translated([System(content)], history) == [SystemSays(words)]
      && Translated([Developer(content)], history) == [SystemSays(words)]
      && AnswerTo(history + [Tool(Some(id), content)], id) == words
  {
    assert (history + [Tool(Some(id), content)])[..|history|] == history;
    assert [System(content)][1..] == [] && [Developer(content)][1..] == [];
  }

  /** What is sent opens with the guidance, and then each piece of context under its description. */
  lemma OpensWithContext(guidance: string, context: seq<Context>, history: seq<Message>)
    ensures var sent := Sent(guidance, context, history);
      && |sent| > |context| && sent[0] == SystemSays(guidance)
      && forall k | 0 <= k < |context| :: sent[k + 1] == SystemSays(context[k].description + "\n" + context[k].value)
  {
  }

  /** Apart from the answers, every turn of the history is sent, once and in its place. */
  lemma TurnsAreKept(guidance: string, context: seq<Context>, history: seq<Message>)
    ensures Spoken(Sent(guidance, context, history)) == Opening(guidance, context) + OneByOne(history)
  {
    SpokenJoins(Opening(guidance, context), Translated(history, history));
    SystemIsSpoken(Opening(guidance, context));
    TranslatedSpeaks(history, history);
  }

  // ----- where the results arrived does not matter -----

  function Turns(history: seq<Message>): seq<Message> {
    if history == [] then [] else (if history[0].Tool? then [] else [history[0]]) + Turns(history[1..])
  }

  function ResultsFor(history: seq<Message>, id: string): seq<string> {
    if history == [] then []
    else ResultsFor(history[..|history| - 1], id) +
         if Names(history[|history| - 1], id) then [TextOf(history[|history| - 1].content)] else []
  }

  lemma {:induction false} AnswerIsLastResult(history: seq<Message>, id: string)
    ensures var results := ResultsFor(history, id);
            AnswerTo(history, id) == if results == [] then NO_ANSWER_CAME else results[|results| - 1]
  {
    if history != [] { AnswerIsLastResult(history[..|history| - 1], id); }
  }

  lemma {:induction false} OnlyTurnsAreTranslated(rest: seq<Message>, history: seq<Message>)
    ensures Translated(rest, history) == Translated(Turns(rest), history)
  {
    if rest != [] {
      OnlyTurnsAreTranslated(rest[1..], history);
      if rest[0].Tool? {
        assert [] + Translated(rest[1..], history) == Translated(rest[1..], history);
        assert [] + Turns(rest[1..]) == Turns(rest[1..]);
      } else {
        assert Turns(rest)[1..] == Turns(rest[1..]);
      }
    }
  }

  lemma {:induction false} OnlyAnswersMatter(rest: seq<Message>, a: seq<Message>, b: seq<Message>)
    requires forall id :: AnswerTo(a, id) == AnswerTo(b, id)
    ensures Translated(rest, a) == Translated(rest, b)
  {
    if rest != [] {
      OnlyAnswersMatter(rest[1..], a, b);
      if rest[0].Assistant? {
        assert Answering(Identified(rest[0].calls), a) == Answering(Identified(rest[0].calls), b);
      }
    }
  }

  /** Histories with the same turns, and the same results for each call in the same order, are sent alike. */
  lemma ResultsMayArriveAnywhere(guidance: string, context: seq<Context>, a: seq<Message>, b: seq<Message>)
    requires Turns(a) == Turns(b)
    requires forall id :: ResultsFor(a, id) == ResultsFor(b, id)
    ensures Sent(guidance, context, a) == Sent(guidance, context, b)
  {
    forall id ensures AnswerTo(a, id) == AnswerTo(b, id) {
      AnswerIsLastResult(a, id);
      AnswerIsLastResult(b, id);
    }
    OnlyTurnsAreTranslated(a, a);
    OnlyTurnsAreTranslated(b, b);
    OnlyAnswersMatter(Turns(a), a, b);
  }

  lemma {:induction false} TurnsJoin(a: seq<Message>, b: seq<Message>)
    ensures Turns(a + b) == Turns(a) + Turns(b)
  {
    if a == [] {
      assert a + b == b;
    } else {
      TurnsJoin(a[1..], b);
      assert (a + b)[0] == a[0] && (a + b)[1..] == a[1..] + b;
      Associates(if a[0].Tool? then [] else [a[0]], Turns(a[1..]), Turns(b));
    }
  }

  lemma {:induction false} ResultsJoin(a: seq<Message>, b: seq<Message>, id: string)
    ensures ResultsFor(a + b, id) == ResultsFor(a, id) + ResultsFor(b, id)
  {
    if b == [] {
      assert a + b == a;
    } else {
      ResultsJoin(a, b[..|b| - 1], id);
      assert (a + b)[..|a + b| - 1] == a + b[..|b| - 1];
    }
  }

  lemma TurnsSwap(before: seq<Message>, a: Message, b: Message, after: seq<Message>)
    ensures Turns(before + [a, b] + after) == Turns(before) + (Turns([a]) + Turns([b])) + Turns(after)
  {
    TurnsJoin(before + [a, b], after);
    TurnsJoin(before, [a, b]);
    TurnsJoin([a], [b]);
    assert [a] + [b] == [a, b];
  }

  lemma ResultsSwap(before: seq<Message>, a: Message, b: Message, after: seq<Message>, id: string)
    ensures ResultsFor(before + [a, b] + after, id) ==
      ResultsFor(before, id) + (ResultsFor([a], id) + ResultsFor([b], id)) + ResultsFor(after, id)
  {
    ResultsJoin(before + [a, b], after, id);
    ResultsJoin(before, [a, b], id);
    ResultsJoin([a], [b], id);
    assert [a] + [b] == [a, b];
  }

  /** Moving one result past any neighbour but another result for its call changes nothing. */
  lemma ResultMoves(guidance: string, context: seq<Context>, before: seq<Message>, result: Message, other: Message, after: seq<Message>)
    requires result.Tool? && !(other.Tool? && other.id == result.id)
    ensures Sent(guidance, context, before + [result, other] + after) == Sent(guidance, context, before + [other, result] + after)
  {
    TurnsSwap(before, result, other, after);
    TurnsSwap(before, other, result, after);
    assert Turns([result]) + Turns([other]) == Turns([other]) + Turns([result]);
    forall id ensures ResultsFor(before + [result, other] + after, id) == ResultsFor(before + [other, result] + after, id) {
      ResultsSwap(before, result, other, after, id);
      ResultsSwap(before, other, result, after, id);
      OneIsNotNamed(result, other, id);
    }
    ResultsMayArriveAnywhere(guidance, context, before + [result, other] + after, before + [other, result] + after);
  }

  lemma OneIsNotNamed(a: Message, b: Message, id: string)
    requires a.Tool? && !(b.Tool? && b.id == a.id)
    ensures ResultsFor([a], id) + ResultsFor([b], id) == ResultsFor([b], id) + ResultsFor([a], id)
  {
    assert !Names(a, id) || !Names(b, id);
  }

  // ----- exactly when a provider takes it -----

  /** The provider's own rule: a tool message answers a call just made, and every call is answered. */
  ghost predicate Accepted(out: seq<Provided>)
    decreases |out|
  {
    out == [] ||
    match out[0]
    case ToolSays(_, _) => false
    case AssistantSays(_, calls) =>
      && |calls| < |out|
      && (forall k | 0 <= k < |calls| :: out[k + 1].ToolSays? && calls[k].id == Some(out[k + 1].id) && out[k + 1].id != "")
      && Accepted(out[|calls| + 1..])
    case _ => Accepted(out[1..])
  }

  predicate HasId(call: Call) {
    call.id.Some? && call.id.value != ""
  }

  predicate CallsHaveIds(m: Message) {
    m.Assistant? ==> forall call | call in m.calls :: HasId(call)
  }

  lemma {:induction false} IdentifiedAll(calls: seq<Call>)
    ensures |Identified(calls)| <= |calls|
    ensures |Identified(calls)| == |calls| <==> forall call | call in calls :: HasId(call)
    ensures |Identified(calls)| == |calls| ==> forall k | 0 <= k < |calls| :: calls[k].id == Some(Identified(calls)[k])
  {
    if calls != [] {
      IdentifiedAll(calls[1..]);
      assert calls == [calls[0]] + calls[1..];
      assert (forall call | call in calls :: HasId(call)) <==> HasId(calls[0]) && forall call | call in calls[1..] :: HasId(call);
    }
  }

  lemma {:induction false} TranslatedIsAccepted(rest: seq<Message>, history: seq<Message>)
    ensures Accepted(Translated(rest, history)) <==> forall m | m in rest :: CallsHaveIds(m)
  {
    if rest != [] {
      TranslatedIsAccepted(rest[1..], history);
      var out, after := Translated(rest, history), Translated(rest[1..], history);
      assert rest == [rest[0]] + rest[1..];
      match rest[0] {
        case Assistant(content, calls) => AssistantIsAccepted(rest, history);
        case Tool(_, _) => assert out == after;
        case Other => assert out == after;
        case _ => assert out[1..] == after;
      }
    }
  }

  lemma AnsweredIsAccepted(said: Option<string>, made: seq<Made>, replies: seq<Provided>, after: seq<Provided>)
    requires |replies| == |made|
    requires forall k | 0 <= k < |made| :: replies[k].ToolSays? && made[k].id == Some(replies[k].id) && replies[k].id != ""
    ensures Accepted([AssistantSays(said, made)] + replies + after) <==> Accepted(after)
  {
    var out := [AssistantSays(said, made)] + replies + after;
    assert out[0] == AssistantSays(said, made) && out[|made| + 1..] == after;
    assert forall k | 0 <= k < |made| :: out[k + 1] == replies[k];
  }

  lemma MissingIdIsRefused(said: Option<string>, made: seq<Made>, behind: seq<Provided>, k: nat)
    requires k < |made| && (made[k].id.None? || made[k].id.value == "")
    ensures !Accepted([AssistantSays(said, made)] + behind)
  {
    var out := [AssistantSays(said, made)] + behind;
    assert out[0] == AssistantSays(said, made);
  }

  lemma RepliesFit(ids: seq<string>, made: seq<Made>, replies: seq<Provided>, history: seq<Message>)
    requires |made| == |ids| == |replies| && (forall id | id in ids :: id != "")
    requires forall k | 0 <= k < |ids| :: made[k].id == Some(ids[k]) && replies[k] == ToolSays(ids[k], AnswerTo(history, ids[k]))
    ensures forall k | 0 <= k < |made| :: replies[k].ToolSays? && made[k].id == Some(replies[k].id) && replies[k].id != ""
  {
    forall k | 0 <= k < |made| ensures replies[k].id != "" {
      assert ids[k] in ids;
    }
  }

  lemma AssistantIsAccepted(rest: seq<Message>, history: seq<Message>)
    requires rest != [] && rest[0].Assistant?
    ensures Accepted(Translated(rest, history)) <==> CallsHaveIds(rest[0]) && Accepted(Translated(rest[1..], history))
  {
    var calls, after := rest[0].calls, Translated(rest[1..], history);
    var ids, made := Identified(calls), ShownCalls(calls);
    var replies := Answering(ids, history);
    assert Translated(rest, history) == [AssistantSays(rest[0].content, made)] + replies + after;
    IdentifiedAll(calls);
    if |ids| == |calls| {
      RepliesFit(ids, made, replies, history);
      AnsweredIsAccepted(rest[0].content, made, replies, after);
    } else {
      var k :| 0 <= k < |calls| && !HasId(calls[k]);
      MissingIdIsRefused(rest[0].content, made, replies + after, k);
      Associates([AssistantSays(rest[0].content, made)], replies, after);
    }
  }

  lemma {:induction false} AcceptedAfterSystem(opening: seq<Provided>, out: seq<Provided>)
    requires forall m | m in opening :: m.SystemSays?
    ensures Accepted(opening + out) <==> Accepted(out)
  {
    if opening == [] {
      assert opening + out == out;
    } else {
      AcceptedAfterSystem(opening[1..], out);
      assert (opening + out)[1..] == opening[1..] + out;
    }
  }

  /** What is sent is acceptable exactly when every call in the history came with an id. */
  lemma AcceptedWhenCallsHaveIds(guidance: string, context: seq<Context>, history: seq<Message>)
    ensures Accepted(Sent(guidance, context, history)) <==> forall m | m in history :: CallsHaveIds(m)
  {
    TranslatedIsAccepted(history, history);
    AcceptedAfterSystem(Opening(guidance, context), Translated(history, history));
  }
}
