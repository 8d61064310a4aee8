/** One run of the plain Bot: a model's streamed chunks, turned into one message and whole tool calls. */
module AgentRun {
  import opened Text

  /** A piece of a tool call; the provider says only which index it belongs to. */
  datatype Fragment = Fragment(index: nat, id: Option<string>, name: Option<string>, args: Option<string>)

  datatype Delta = Delta(content: Option<string>, fragments: seq<Fragment>)

  /** A chunk without a choice has no delta. */
  type Chunk = Option<Delta>

  /** A completion that ends, or throws after some chunks. */
  datatype Completion = Completion(chunks: seq<Chunk>, failure: Option<string>)

  datatype Wire =
    | RunStarted(thread: string, run: string)
    | TextStart(id: string)
    | TextContent(id: string, delta: string)
    | TextEnd(id: string)
    | CallStart(id: string, name: string)
    | CallArgs(id: string, args: string)
    | CallEnd(id: string)
    | RunFinished(thread: string, run: string)
    | RunError(why: string)

  datatype Call = Call(id: string, name: string, args: string)

  function Given(value: Option<string>): string {
    if value.Some? then value.value else ""
  }

  // ----- what a call is, from its own fragments -----

  /** The last id given that is not empty. */
  function LastId(own: seq<Fragment>, otherwise: string): string {
    if own == [] then otherwise
    else if Given(own[|own| - 1].id) != "" then own[|own| - 1].id.value
    else LastId(own[..|own| - 1], otherwise)
  }

  function LastName(own: seq<Fragment>): string {
    if own == [] then ""
    else if Given(own[|own| - 1].name) != "" then own[|own| - 1].name.value
    else LastName(own[..|own| - 1])
  }

  /** The pieces of the arguments, one after the other. */
  function AllArgs(own: seq<Fragment>): string {
    if own == [] then "" else AllArgs(own[..|own| - 1]) + Given(own[|own| - 1].args)
  }

  /** The id of a call no fragment names: the first fragment's, even empty, or one made from the run and the index. */
  function FirstId(first: Fragment, run: string): string {
    if first.id.Some? then first.id.value else "call_" + run + "_" + Decimal(first.index)
  }

  /** One index's fragments, put together. */
  function Assembled(own: seq<Fragment>, run: string): Call
    requires own != []
  {
    Call(LastId(own, FirstId(own[0], run)), LastName(own), AllArgs(own))
  }

  /** The fragments of one index, in their order. */
  function Of(fragments: seq<Fragment>, index: nat): seq<Fragment> {
    if fragments == [] then []
    else
      var last := fragments[|fragments| - 1];
      Of(fragments[..|fragments| - 1], index) + if last.index == index then [last] else []
  }

  /** The indexes, in the order they first appear. */
  function Firsts(fragments: seq<Fragment>): (order: seq<nat>)
    ensures forall i, j | 0 <= i < j < |order| :: order[i] != order[j]
  {
    if fragments == [] then []
    else
      var last, before := fragments[|fragments| - 1], Firsts(fragments[..|fragments| - 1]);
      if last.index in before then before else before + [last.index]
  }

  lemma {:induction false} OwnedWhenSeen(fragments: seq<Fragment>, index: nat)
    ensures Of(fragments, index) != [] <==> index in Firsts(fragments)
  {
    if fragments != [] { OwnedWhenSeen(fragments[..|fragments| - 1], index); }
  }

  lemma {:induction false} SeenWhenPresent(fragments: seq<Fragment>, index: nat)
    ensures index in Firsts(fragments) <==> exists p | 0 <= p < |fragments| :: fragments[p].index == index
  {
    if fragments != [] {
      var n := |fragments| - 1;
      SeenWhenPresent(fragments[..n], index);
      if p :| 0 <= p < n && fragments[..n][p].index == index {
        assert fragments[p].index == index;
      }
      forall p | 0 <= p < n ensures fragments[p] == fragments[..n][p] {
      }
    }
  }

  /** One call per index, in the order the indexes first appear. */
  function Calls(fragments: seq<Fragment>, run: string): (calls: seq<Call>)
    ensures |calls| == |Firsts(fragments)|
  {
    var order := Firsts(fragments);
    seq(|order|, i requires 0 <= i < |order| =>
      OwnedWhenSeen(fragments, order[i]);
      Assembled(Of(fragments, order[i]), run))
  }

  /** An index stands before another exactly when some fragment of it comes before every fragment of the other. */
  lemma {:induction false} FirstsInOrder(fragments: seq<Fragment>, i: nat, j: nat)
    requires i < |Firsts(fragments)| && j < |Firsts(fragments)| && i != j
    ensures i < j <==> exists p | 0 <= p < |fragments| ::
                         fragments[p].index == Firsts(fragments)[i] && forall q | 0 <= q <= p :: fragments[q].index != Firsts(fragments)[j]
  {
    var order, n := Firsts(fragments), |fragments| - 1;
    var before := Firsts(fragments[..n]);
    assert forall q | 0 <= q < n :: fragments[q] == fragments[..n][q];
    SeenWhenPresent(fragments[..n], order[i]);
    SeenWhenPresent(fragments[..n], order[j]);
    if i < |before| && j < |before| {
      assert order[i] in before && order[j] in before;
      FirstsInOrder(fragments[..n], i, j);
    } else if i < |before| {
      assert order[i] in before && order[j] !in before;
    } else {
      assert order[j] in before && order[i] !in before;
    }
  }

  lemma OneMore(fragments: seq<Fragment>, f: Fragment)
    ensures Firsts(fragments + [f]) == if f.index in Firsts(fragments) then Firsts(fragments) else Firsts(fragments) + [f.index]
    ensures forall index :: Of(fragments + [f], index) == Of(fragments, index) + if f.index == index then [f] else []
  {
    assert (fragments + [f])[..|fragments|] == fragments;
  }

  lemma SameParts(a: seq<Fragment>, b: seq<Fragment>, run: string)
    requires Firsts(a) == Firsts(b) && forall index :: Of(a, index) == Of(b, index)
    ensures Calls(a, run) == Calls(b, run)
  {
    assert forall i | 0 <= i < |Firsts(a)| :: Calls(a, run)[i] == Calls(b, run)[i];
  }

  /** The order of the calls with two neighbours the other way round. */
  predicate NeighboursSwapped(a: seq<nat>, b: seq<nat>, k: nat) {
    k + 1 < |a| == |b| && a[k] == b[k + 1] && a[k + 1] == b[k] && forall i | 0 <= i < |a| && i != k && i != k + 1 :: a[i] == b[i]
  }

  /** Two neighbouring fragments of different calls, either way round: each call has the same fragments in the same order. */
  lemma {:induction false} PartsSwap(before: seq<Fragment>, f: Fragment, g: Fragment, after: seq<Fragment>)
    requires f.index != g.index
    ensures var a, b := before + [f, g] + after, before + [g, f] + after;
      && (forall index :: Of(a, index) == Of(b, index))
      && if f.index in Firsts(before) || g.index in Firsts(before) then Firsts(a) == Firsts(b)
         else NeighboursSwapped(Firsts(a), Firsts(b), |Firsts(before)|)
    decreases |after|
  {
    if after == [] {
      TwoMore(before, f, g);
      TwoMore(before, g, f);
      assert before + [f, g] + [] == before + [f, g] && before + [g, f] + [] == before + [g, f];
    } else {
      var front, last := after[..|after| - 1], after[|after| - 1];
      PartsSwap(before, f, g, front);
      assert before + [f, g] + after == before + [f, g] + front + [last];
      assert before + [g, f] + after == before + [g, f] + front + [last];
      SwapGoesOn(before + [f, g] + front, before + [g, f] + front, last, |Firsts(before)|);
    }
  }

  lemma TwoMore(before: seq<Fragment>, f: Fragment, g: Fragment)
    requires f.index != g.index
    ensures forall index ::
      Of(before + [f, g], index) == Of(before, index) + if f.index == index then [f] else if g.index == index then [g] else []
    ensures Firsts(before + [f, g]) == Firsts(before)
      + (if f.index in Firsts(before) then [] else [f.index]) + if g.index in Firsts(before) then [] else [g.index]
  {
    assert before + [f, g] == before + [f] + [g];
    OneMore(before, f);
    OneMore(before + [f], g);
    forall index ensures Of(before + [f, g], index) ==
      Of(before, index) + if f.index == index then [f] else if g.index == index then [g] else [] {
    }
  }

  lemma SwapGoesOn(a: seq<Fragment>, b: seq<Fragment>, last: Fragment, k: nat)
    requires (forall index :: Of(a, index) == Of(b, index)) && (Firsts(a) == Firsts(b) || NeighboursSwapped(Firsts(a), Firsts(b), k))
    ensures forall index :: Of(a + [last], index) == Of(b + [last], index)
    ensures if Firsts(a) == Firsts(b) then Firsts(a + [last]) == Firsts(b + [last])
      else NeighboursSwapped(Firsts(a + [last]), Firsts(b + [last]), k)
  {
    OneMore(a, last);
    OneMore(b, last);
    SwapKeepsMembers(Firsts(a), Firsts(b), k, last.index);
  }

  lemma SwapKeepsMembers(a: seq<nat>, b: seq<nat>, k: nat, index: nat)
    requires a == b || NeighboursSwapped(a, b, k)
    ensures index in a <==> index in b
  {
    if index in a {
      var i :| 0 <= i < |a| && a[i] == index;
      assert b[if a == b then i else if i == k then k + 1 else if i == k + 1 then k else i] == index;
    }
    if index in b {
      var i :| 0 <= i < |b| && b[i] == index;
      assert a[if a == b then i else if i == k then k + 1 else if i == k + 1 then k else i] == index;
    }
  }

  /**
   * How fragments of different calls interleave does not matter: changing two neighbours round leaves every call as
   * it was, and the order of the calls too, unless both come up there for the first time.
   */
  lemma InterleavingIsForgotten(before: seq<Fragment>, f: Fragment, g: Fragment, after: seq<Fragment>, run: string)
    requires f.index != g.index
    ensures var a, b := before + [f, g] + after, before + [g, f] + after;
      && |Calls(a, run)| == |Calls(b, run)|
      && if f.index in Firsts(before) || g.index in Firsts(before) then Calls(a, run) == Calls(b, run)
         else
           var k := |Firsts(before)|;
           && k + 1 < |Calls(a, run)| && Calls(a, run)[k] == Calls(b, run)[k + 1] && Calls(a, run)[k + 1] == Calls(b, run)[k]
           && forall i | 0 <= i < |Calls(a, run)| && i != k && i != k + 1 :: Calls(a, run)[i] == Calls(b, run)[i]
  {
    var a, b := before + [f, g] + after, before + [g, f] + after;
    PartsSwap(before, f, g, after);
    if f.index in Firsts(before) || g.index in Firsts(before) {
      SameParts(a, b, run);
      assert Calls(a, run) == Calls(b, run);
    } else {
      SwappedCalls(a, b, |Firsts(before)|, run);
      assert !(f.index in Firsts(before) || g.index in Firsts(before));
    }
  }

  lemma SwappedCalls(a: seq<Fragment>, b: seq<Fragment>, k: nat, run: string)
    requires (forall index :: Of(a, index) == Of(b, index)) && NeighboursSwapped(Firsts(a), Firsts(b), k)
    ensures k + 1 < |Calls(a, run)| == |Calls(b, run)|
    ensures Calls(a, run)[k] == Calls(b, run)[k + 1] && Calls(a, run)[k + 1] == Calls(b, run)[k]
    ensures forall i | 0 <= i < |Calls(a, run)| && i != k && i != k + 1 :: Calls(a, run)[i] == Calls(b, run)[i]
  {
  }

  // ----- the buffer -----

  /** The source's map from index to call: JavaScript keeps it in the order the keys were first set. */
  ghost predicate Buffered(order: seq<nat>, toolCalls: map<nat, Call>, fragments: seq<Fragment>, run: string) {
    && order == Firsts(fragments)
    && (forall index :: index in toolCalls <==> index in order)
    && forall index | index in toolCalls :: Of(fragments, index) != [] && toolCalls[index] == Assembled(Of(fragments, index), run)
  }

  lemma AssembledWithOneMore(own: seq<Fragment>, f: Fragment, run: string)
    requires own != []
    ensures var was := Assembled(own, run);
      Assembled(own + [f], run) == Call(
        if Given(f.id) != "" then f.id.value else was.id,
        if Given(f.name) != "" then f.name.value else was.name,
        was.args + Given(f.args))
  {
    assert (own + [f])[..|own|] == own;
  }

  lemma AssembledFromOne(f: Fragment, run: string)
    ensures Assembled([f], run) == Call(
      if Given(f.id) != "" then f.id.value else FirstId(f, run), Given(f.name), Given(f.args))
    ensures Assembled([f], run).id == if f.id.Some? then f.id.value else "call_" + run + "_" + Decimal(f.index)
  {
    assert [f][..0] == [] && "" + Given(f.args) == Given(f.args);
    assert LastId([f], FirstId(f, run)) == if Given(f.id) != "" then f.id.value else FirstId(f, run);
    assert LastName([f]) == Given(f.name);
    assert AllArgs([f]) == Given(f.args);
  }

  lemma Absorbed(order: seq<nat>, toolCalls: map<nat, Call>, f: Fragment, run: string, fragments: seq<Fragment>)
    requires Buffered(order, toolCalls, fragments, run)
    ensures f.index in toolCalls <==> Of(fragments, f.index) != []
    ensures Buffered(if f.index in toolCalls then order else order + [f.index],
                     toolCalls[f.index := Assembled(Of(fragments, f.index) + [f], run)], fragments + [f], run)
  {
    OneMore(fragments, f);
    OwnedWhenSeen(fragments, f.index);
    var longer := toolCalls[f.index := Assembled(Of(fragments, f.index) + [f], run)];
    forall index | index in longer
      ensures Of(fragments + [f], index) != [] && longer[index] == Assembled(Of(fragments + [f], index), run)
    {
      if index != f.index {
        assert Of(fragments + [f], index) == Of(fragments, index);
      }
    }
  }

  /** What the loop does with one fragment. */
  method Absorb(order: seq<nat>, toolCalls: map<nat, Call>, f: Fragment, run: string, ghost fragments: seq<Fragment>)
    returns (order': seq<nat>, toolCalls': map<nat, Call>)
    requires Buffered(order, toolCalls, fragments, run)
    ensures Buffered(order', toolCalls', fragments + [f], run)
  {
    var existing := if f.index in toolCalls then toolCalls[f.index] else Call(FirstId(f, run), "", "");
    if Given(f.id) != "" { existing := existing.(id := f.id.value); }
    if Given(f.name) != "" { existing := existing.(name := f.name.value); }
    if Given(f.args) != "" { existing := existing.(args := existing.args + f.args.value); }
    order' := if f.index in toolCalls then order else order + [f.index];
    toolCalls' := toolCalls[f.index := existing];
    ghost var own := Of(fragments, f.index);
    if own == [] {
      assert own + [f] == [f];
      AssembledFromOne(f, run);
    } else {
      AssembledWithOneMore(own, f, run);
    }
    Absorbed(order, toolCalls, f, run, fragments);
  }

  // ----- the run -----

  function Fragments(chunks: seq<Chunk>): seq<Fragment> {
    if chunks == [] then []
    else
      var last := chunks[|chunks| - 1];
      Fragments(chunks[..|chunks| - 1]) + if last.Some? then last.value.fragments else []
  }

  function DeltaOf(chunk: Chunk): string {
    if chunk.Some? then Given(chunk.value.content) else ""
  }

  function Texts(chunks: seq<Chunk>): seq<string> {
    if chunks == [] then []
    else
      var last := DeltaOf(chunks[|chunks| - 1]);
      Texts(chunks[..|chunks| - 1]) + if last != "" then [last] else []
  }

  function Writing(texts: seq<string>, id: string): seq<Wire> {
    if texts == [] then []
    else
      var last := texts[|texts| - 1];
      (if |texts| == 1 then [TextStart(id)] else Writing(texts[..|texts| - 1], id)) + [TextContent(id, last)]
  }

  function Reported(call: Call): seq<Wire> {
    [CallStart(call.id, call.name), CallArgs(call.id, if call.args == "" then "{}" else call.args), CallEnd(call.id)]
  }

  function Reporting(calls: seq<Call>): seq<Wire> {
    if calls == [] then [] else Reporting(calls[..|calls| - 1]) + Reported(calls[|calls| - 1])
  }

  lemma OneMoreCall(calls: seq<Call>, k: nat)
    requires k < |calls|
    ensures Reporting(calls[..k + 1]) == Reporting(calls[..k]) + Reported(calls[k])
  {
    assert calls[..k + 1][..k] == calls[..k];
  }

  function Beginning(thread: string, run: string, texts: seq<string>): seq<Wire> {
    [RunStarted(thread, run)] + Writing(texts, "msg_" + run)
  }

  function Closing(run: string, texts: seq<string>): seq<Wire> {
    if texts == [] then [] else [TextEnd("msg_" + run)]
  }

  function Ending(thread: string, run: string, calls: seq<Call>): seq<Wire> {
    Reporting(calls) + [RunFinished(thread, run)]
  }

  function Output(thread: string, run: string, completion: Completion): seq<Wire> {
    var texts := Texts(completion.chunks);
    if completion.failure.Some? then Beginning(thread, run, texts) + [RunError(completion.failure.value)]
    else Beginning(thread, run, texts) + Closing(run, texts) + Ending(thread, run, Calls(Fragments(completion.chunks), run))
  }

  lemma OneMoreChunk(chunks: seq<Chunk>, chunk: Chunk)
    ensures Texts(chunks + [chunk]) == if DeltaOf(chunk) == "" then Texts(chunks) else Texts(chunks) + [DeltaOf(chunk)]
    ensures Fragments(chunks + [chunk]) == if chunk.None? then Fragments(chunks) else Fragments(chunks) + chunk.value.fragments
  {
    assert (chunks + [chunk])[..|chunks|] == chunks;
  }

  lemma OneMoreText(texts: seq<string>, text: string, id: string)
    ensures Writing(texts + [text], id) == (if texts == [] then [TextStart(id)] else Writing(texts, id)) + [TextContent(id, text)]
  {
    assert (texts + [text])[..|texts|] == texts;
  }

  /** A chunk adds its text and its fragments, as far as it has any. */
  lemma ChunkIsRead(chunks: seq<Chunk>, content: Option<string>, fragments: seq<Fragment>)
    ensures var more := chunks + [Some(Delta(content, fragments))];
      && Said(more) == (if content.Some? then Said(chunks) + content.value else Said(chunks))
      && Fragments(more) == Fragments(chunks) + fragments
    ensures Said(chunks + [None]) == Said(chunks) && Fragments(chunks + [None]) == Fragments(chunks)
  {
    assert (chunks + [Some(Delta(content, fragments))])[..|chunks|] == chunks && (chunks + [None])[..|chunks|] == chunks;
    assert Said(chunks) + "" == Said(chunks) && Fragments(chunks) + [] == Fragments(chunks);
  }

  method AbsorbAll(order: seq<nat>, toolCalls: map<nat, Call>, more: seq<Fragment>, run: string, ghost fragments: seq<Fragment>)
    returns (order': seq<nat>, toolCalls': map<nat, Call>)
    requires Buffered(order, toolCalls, fragments, run)
    ensures Buffered(order', toolCalls', fragments + more, run)
  {
    order', toolCalls' := order, toolCalls;
    assert fragments + more[..0] == fragments;
    for k := 0 to |more|
      invariant Buffered(order', toolCalls', fragments + more[..k], run)
    {
      assert fragments + more[..k] + [more[k]] == fragments + more[..k + 1];
      order', toolCalls' := Absorb(order', toolCalls', more[k], run, fragments + more[..k]);
    }
    assert more[..|more|] == more;
  }

  /** The loop over the buffer once the stream has ended. */
  method Report(order: seq<nat>, toolCalls: map<nat, Call>, run: string, ghost fragments: seq<Fragment>) returns (sent: seq<Wire>)
    requires Buffered(order, toolCalls, fragments, run)
    ensures sent == Reporting(Calls(fragments, run))
  {
    sent := [];
    ghost var calls := Calls(fragments, run);
    for k := 0 to |order|
      invariant sent == Reporting(calls[..k])
    {
      assert order[k] in order;
      var call := toolCalls[order[k]];
      OneMoreCall(calls, k);
      assert call == calls[k];
      sent := sent + [CallStart(call.id, call.name), CallArgs(call.id, if call.args == "" then "{}" else call.args), CallEnd(call.id)];
    }
    assert calls[..|order|] == calls;
  }

  /** A chunk's text: the first that is not empty opens the message. */
  method Speak(sent: seq<Wire>, textOpen: bool, text: string, messageId: string, ghost texts: seq<string>)
    returns (sent': seq<Wire>, textOpen': bool)
    requires sent == Writing(texts, messageId) && textOpen == (texts != [])
    ensures text == "" ==> sent' == sent && textOpen' == textOpen
    ensures text != "" ==> sent' == Writing(texts + [text], messageId) && textOpen'
  {
    sent', textOpen' := sent, textOpen;
    if text != "" {
      if !textOpen {
        sent' := sent' + [TextStart(messageId)];
        textOpen' := true;
      }
      sent' := sent' + [TextContent(messageId, text)];
      OneMoreText(texts, text, messageId);
    }
  }

  /** What the loop's variables hold after some chunks. */
  ghost predicate Streamed(sent: seq<Wire>, textOpen: bool, order: seq<nat>, toolCalls: map<nat, Call>,
                           chunks: seq<Chunk>, messageId: string, run: string) {
    && sent == Writing(Texts(chunks), messageId) && textOpen == (Texts(chunks) != [])
    && Buffered(order, toolCalls, Fragments(chunks), run)
  }

  /** The loop's body. */
  method OnChunk(sent: seq<Wire>, textOpen: bool, order: seq<nat>, toolCalls: map<nat, Call>,
                 chunk: Chunk, messageId: string, run: string, ghost chunks: seq<Chunk>)
    returns (sent': seq<Wire>, textOpen': bool, order': seq<nat>, toolCalls': map<nat, Call>)
    requires Streamed(sent, textOpen, order, toolCalls, chunks, messageId, run)
    ensures Streamed(sent', textOpen', order', toolCalls', chunks + [chunk], messageId, run)
  {
    OneMoreChunk(chunks, chunk);
    sent', textOpen', order', toolCalls' := sent, textOpen, order, toolCalls;
    if chunk.Some? {
      var delta := chunk.value;
      sent', textOpen' := Speak(sent, textOpen, Given(delta.content), messageId, Texts(chunks));
      order', toolCalls' := AbsorbAll(order, toolCalls, delta.fragments, run, Fragments(chunks));
    }
  }

  /** The loop over the completion. */
  method Consume(chunks: seq<Chunk>, messageId: string, run: string)
    returns (text: seq<Wire>, textOpen: bool, order: seq<nat>, toolCalls: map<nat, Call>)
    ensures Streamed(text, textOpen, order, toolCalls, chunks, messageId, run)
  {
    text, textOpen, order, toolCalls := [], false, [], map[];
    for n := 0 to |chunks|
      invariant Streamed(text, textOpen, order, toolCalls, chunks[..n], messageId, run)
    {
      assert chunks[..n] + [chunks[n]] == chunks[..n + 1];
      text, textOpen, order, toolCalls := OnChunk(text, textOpen, order, toolCalls, chunks[n], messageId, run, chunks[..n]);
    }
    assert chunks[..|chunks|] == chunks;
  }

  method RunAgent(thread: string, run: string, completion: Completion) returns (sent: seq<Wire>)
    ensures sent == Output(thread, run, completion)
  {
    var messageId := "msg_" + run;
    var text, textOpen, order, toolCalls := Consume(completion.chunks, messageId, run);
    sent := [RunStarted(thread, run)] + text;
    if completion.failure.Some? {
      sent := sent + [RunError(completion.failure.value)];
    } else {
      if textOpen { sent := sent + [TextEnd(messageId)]; }
      assert sent == Beginning(thread, run, Texts(completion.chunks)) + Closing(run, Texts(completion.chunks));
      var reported := Report(order, toolCalls, run, Fragments(completion.chunks));
      sent := sent + (reported + [RunFinished(thread, run)]);
    }
  }

  // ----- what a surface reads off the wire -----

  /** Whether a text message has been opened and not closed. */
  predicate TextOpen(sent: seq<Wire>) {
    if sent == [] then false
    else
      match sent[|sent| - 1]
      case TextStart(_) => true
      case TextEnd(_) => false
      case _ => TextOpen(sent[..|sent| - 1])
  }

  function Spoken(sent: seq<Wire>): string {
    if sent == [] then ""
    else Spoken(sent[..|sent| - 1]) + match sent[|sent| - 1] case TextContent(_, delta) => delta case _ => ""
  }

  function Said(chunks: seq<Chunk>): string {
    if chunks == [] then "" else Said(chunks[..|chunks| - 1]) + DeltaOf(chunks[|chunks| - 1])
  }

  predicate IsCallEvent(w: Wire) {
    w.CallStart? || w.CallArgs? || w.CallEnd?
  }

  function CallEvents(sent: seq<Wire>): seq<Wire> {
    if sent == [] then []
    else CallEvents(sent[..|sent| - 1]) + if IsCallEvent(sent[|sent| - 1]) then [sent[|sent| - 1]] else []
  }

  lemma Peeled(a: seq<Wire>, b: seq<Wire>)
    requires b != []
    ensures (a + b)[..|a + b| - 1] == a + b[..|b| - 1] && (a + b)[|a + b| - 1] == b[|b| - 1]
  {
  }

  lemma {:induction false} CallEventsJoin(a: seq<Wire>, b: seq<Wire>)
    ensures CallEvents(a + b) == CallEvents(a) + CallEvents(b)
  {
    if b == [] {
      assert a + b == a;
    } else {
      CallEventsJoin(a, b[..|b| - 1]);
      Peeled(a, b);
    }
  }

  lemma {:induction false} SpokenJoin(a: seq<Wire>, b: seq<Wire>)
    ensures Spoken(a + b) == Spoken(a) + Spoken(b)
  {
    if b == [] {
      assert a + b == a;
    } else {
      SpokenJoin(a, b[..|b| - 1]);
      Peeled(a, b);
    }
  }

  lemma {:induction false} TextOpenPasses(a: seq<Wire>, b: seq<Wire>)
    requires forall w | w in b :: !w.TextStart? && !w.TextEnd?
    ensures TextOpen(a + b) == TextOpen(a)
  {
    if b == [] {
      assert a + b == a;
    } else {
      assert forall w | w in b[..|b| - 1] :: w in b;
      assert b[|b| - 1] in b;
      TextOpenPasses(a, b[..|b| - 1]);
      Peeled(a, b);
    }
  }

  lemma OneReads(w: Wire)
    ensures CallEvents([w]) == (if IsCallEvent(w) then [w] else []) && Spoken([w]) == (if w.TextContent? then w.delta else "")
  {
    assert [w][..0] == [];
  }

  lemma OneMoreTextReads(head: seq<Wire>, id: string, text: string)
    ensures var sent := head + [TextContent(id, text)];
      CallEvents(sent) == CallEvents(head) && Spoken(sent) == Spoken(head) + text && TextOpen(sent) == TextOpen(head)
  {
    assert (head + [TextContent(id, text)])[..|head|] == head;
  }

  lemma {:induction false} WritingReads(texts: seq<string>, id: string)
    ensures CallEvents(Writing(texts, id)) == []
    ensures TextOpen(Writing(texts, id)) == (texts != [])
    ensures Spoken(Writing(texts, id)) == Run(texts)
  {
    if texts != [] {
      var before := texts[..|texts| - 1];
      WritingReads(before, id);
      OneReads(TextStart(id));
      OneMoreTextReads(if |texts| == 1 then [TextStart(id)] else Writing(before, id), id, texts[|texts| - 1]);
    }
  }

  /** Texts written one after the other. */
  function Run(texts: seq<string>): string {
    if texts == [] then "" else Run(texts[..|texts| - 1]) + texts[|texts| - 1]
  }

  lemma {:induction false} TextsAreSaid(chunks: seq<Chunk>)
    ensures Run(Texts(chunks)) == Said(chunks)
  {
    if chunks != [] {
      TextsAreSaid(chunks[..|chunks| - 1]);
      var before, last := Texts(chunks[..|chunks| - 1]), DeltaOf(chunks[|chunks| - 1]);
      if last != "" {
        assert (before + [last])[..|before|] == before;
      } else {
        assert Texts(chunks) == before && Run(before) + "" == Run(before);
      }
    }
  }

  lemma {:induction false} ReportingReads(calls: seq<Call>)
    ensures CallEvents(Reporting(calls)) == Reporting(calls) && Spoken(Reporting(calls)) == ""
    ensures forall w | w in Reporting(calls) :: IsCallEvent(w)
  {
    if calls != [] {
      var before, last := Reporting(calls[..|calls| - 1]), calls[|calls| - 1];
      ReportingReads(calls[..|calls| - 1]);
      CallEventsJoin(before, Reported(last));
      SpokenJoin(before, Reported(last));
      ReportedReads(last);
    }
  }

  lemma ReportedReads(call: Call)
    ensures CallEvents(Reported(call)) == Reported(call) && Spoken(Reported(call)) == ""
  {
    var r := Reported(call);
    CallEventsJoin([r[0], r[1]], [r[2]]);
    CallEventsJoin([r[0]], [r[1]]);
    SpokenJoin([r[0], r[1]], [r[2]]);
    SpokenJoin([r[0]], [r[1]]);
    assert [r[0]] + [r[1]] == [r[0], r[1]] && [r[0], r[1]] + [r[2]] == r;
    OneReads(r[0]);
    OneReads(r[1]);
    OneReads(r[2]);
  }

  lemma {:induction false} TextWhenSaid(chunks: seq<Chunk>)
    ensures Texts(chunks) != [] <==> Said(chunks) != ""
  {
    if chunks != [] { TextWhenSaid(chunks[..|chunks| - 1]); }
  }

  lemma EndingReads(thread: string, run: string, calls: seq<Call>)
    ensures CallEvents(Ending(thread, run, calls)) == Reporting(calls) && Spoken(Ending(thread, run, calls)) == ""
    ensures forall w | w in Ending(thread, run, calls) :: IsCallEvent(w) || w.RunFinished?
  {
    ReportingReads(calls);
    OneReads(RunFinished(thread, run));
    Joins(Reporting(calls), [RunFinished(thread, run)]);
  }

  lemma ClosingReads(begun: seq<Wire>, run: string, texts: seq<string>)
    requires TextOpen(begun) == (texts != [])
    ensures var sent := begun + Closing(run, texts);
      CallEvents(sent) == CallEvents(begun) && Spoken(sent) == Spoken(begun) && !TextOpen(sent)
  {
    if texts == [] {
      assert begun + [] == begun;
    } else {
      assert (begun + [TextEnd("msg_" + run)])[..|begun|] == begun;
      assert Spoken(begun) + "" == Spoken(begun);
    }
  }

  // ----- the wire's grammar -----

  /** Before the run; before, inside and after its message; inside a call's report; after the end; or off the grammar. */
  datatype Stage = Unbegun | Begun | Opened(id: string) | InText(id: string) | Told | Named(id: string) | Argued(id: string) | Over | Wrong

  /** One message at most, with text in it, closed before the calls; each call in one piece, its arguments not empty; one end. */
  function Advance(stage: Stage, w: Wire): Stage {
    match w
    case RunStarted(_, _) => if stage.Unbegun? then Begun else Wrong
    case TextStart(id) => if stage.Begun? then Opened(id) else Wrong
    case TextContent(id, delta) => if delta != "" && (stage == Opened(id) || stage == InText(id)) then InText(id) else Wrong
    case TextEnd(id) => if stage == InText(id) then Told else Wrong
    case CallStart(id, _) => if stage.Begun? || stage.Told? then Named(id) else Wrong
    case CallArgs(id, args) => if stage == Named(id) && args != "" then Argued(id) else Wrong
    case CallEnd(id) => if stage == Argued(id) then Told else Wrong
    case _ => if stage.Begun? || stage.Told? then Over else Wrong
  }

  function Parse(stage: Stage, sent: seq<Wire>): Stage {
    if sent == [] then stage else Advance(Parse(stage, sent[..|sent| - 1]), sent[|sent| - 1])
  }

  predicate WellFormed(sent: seq<Wire>) {
    Parse(Unbegun, sent).Over?
  }

  lemma {:induction false} ParseJoined(stage: Stage, a: seq<Wire>, b: seq<Wire>)
    ensures Parse(stage, a + b) == Parse(Parse(stage, a), b)
  {
    if b == [] {
      assert a + b == a;
    } else {
      ParseJoined(stage, a, b[..|b| - 1]);
      Peeled(a, b);
    }
  }

  lemma ParseOne(stage: Stage, w: Wire)
    ensures Parse(stage, [w]) == Advance(stage, w)
  {
    assert [w][..0] == [];
  }

  lemma {:induction false} WritingParses(texts: seq<string>, id: string)
    requires forall text | text in texts :: text != ""
    ensures Parse(Begun, Writing(texts, id)) == if texts == [] then Begun else InText(id)
  {
    if texts != [] {
      var before, last := texts[..|texts| - 1], texts[|texts| - 1];
      assert last in texts && forall text | text in before :: text in texts;
      var head := if |texts| == 1 then [TextStart(id)] else Writing(before, id);
      WritingParses(before, id);
      ParseOne(Begun, TextStart(id));
      ParseJoined(Begun, head, [TextContent(id, last)]);
      ParseOne(Parse(Begun, head), TextContent(id, last));
    }
  }

  lemma ReportedParses(stage: Stage, call: Call)
    requires stage.Begun? || stage.Told?
    ensures Parse(stage, Reported(call)) == Told
  {
    var r := Reported(call);
    assert r[..2] == [r[0]] + [r[1]] && r == r[..2] + [r[2]];
    ParseOne(stage, r[0]);
    ParseOne(Named(call.id), r[1]);
    ParseOne(Argued(call.id), r[2]);
    ParseJoined(stage, [r[0]], [r[1]]);
    ParseJoined(stage, r[..2], [r[2]]);
  }

  lemma {:induction false} ReportingParses(stage: Stage, calls: seq<Call>)
    requires stage.Begun? || stage.Told?
    ensures Parse(stage, Reporting(calls)) == if calls == [] then stage else Told
  {
    if calls != [] {
      var before, last := calls[..|calls| - 1], calls[|calls| - 1];
      ReportingParses(stage, before);
      ReportedParses(Parse(stage, Reporting(before)), last);
      ParseJoined(stage, Reporting(before), Reported(last));
    }
  }

  lemma {:induction false} TextsAreNotEmpty(chunks: seq<Chunk>)
    ensures forall text | text in Texts(chunks) :: text != ""
  {
    if chunks != [] { TextsAreNotEmpty(chunks[..|chunks| - 1]); }
  }

  lemma BegunParses(thread: string, run: string, chunks: seq<Chunk>)
    ensures Parse(Unbegun, Beginning(thread, run, Texts(chunks))) == if Texts(chunks) == [] then Begun else InText("msg_" + run)
  {
    TextsAreNotEmpty(chunks);
    WritingParses(Texts(chunks), "msg_" + run);
    ParseOne(Unbegun, RunStarted(thread, run));
    ParseJoined(Unbegun, [RunStarted(thread, run)], Writing(Texts(chunks), "msg_" + run));
  }

  lemma ClosedParses(thread: string, run: string, chunks: seq<Chunk>)
    ensures var closed := Beginning(thread, run, Texts(chunks)) + Closing(run, Texts(chunks));
      Parse(Unbegun, closed) == if Texts(chunks) == [] then Begun else Told
  {
    var begun, end := Beginning(thread, run, Texts(chunks)), TextEnd("msg_" + run);
    BegunParses(thread, run, chunks);
    if Texts(chunks) == [] {
      assert begun + [] == begun;
    } else {
      ParseJoined(Unbegun, begun, [end]);
      ParseOne(InText("msg_" + run), end);
    }
  }

  lemma EndingParses(stage: Stage, thread: string, run: string, calls: seq<Call>)
    requires stage.Begun? || stage.Told?
    ensures Parse(stage, Ending(thread, run, calls)) == Over
  {
    ReportingParses(stage, calls);
    ParseJoined(stage, Reporting(calls), [RunFinished(thread, run)]);
    ParseOne(Parse(stage, Reporting(calls)), RunFinished(thread, run));
  }

  /** What a run sends is one well-formed run, unless it fails after some text. */
  lemma WellFormedUnlessCutShort(thread: string, run: string, completion: Completion)
    ensures WellFormed(Output(thread, run, completion)) <==> completion.failure.None? || Said(completion.chunks) == ""
  {
    var chunks := completion.chunks;
    var begun := Beginning(thread, run, Texts(chunks));
    match completion.failure
    case None =>
      ClosedParses(thread, run, chunks);
      var closed, ending := begun + Closing(run, Texts(chunks)), Ending(thread, run, Calls(Fragments(chunks), run));
      EndingParses(Parse(Unbegun, closed), thread, run, Calls(Fragments(chunks), run));
      ParseJoined(Unbegun, closed, ending);
    case Some(why) =>
      BegunParses(thread, run, chunks);
      TextWhenSaid(chunks);
      ParseJoined(Unbegun, begun, [RunError(why)]);
      ParseOne(Parse(Unbegun, begun), RunError(why));
  }

  /** A run that ends well, in the grammar's order: all the text, closed; every index's call, once, in order of appearance; then the end. */
  lemma FinishedRunReads(thread: string, run: string, chunks: seq<Chunk>)
    ensures var sent := Output(thread, run, Completion(chunks, None));
      && WellFormed(sent) && Spoken(sent) == Said(chunks) && !TextOpen(sent)
      && CallEvents(sent) == Reporting(Calls(Fragments(chunks), run))
      && sent[|sent| - 1] == RunFinished(thread, run)
  {
    var texts, calls := Texts(chunks), Calls(Fragments(chunks), run);
    WellFormedUnlessCutShort(thread, run, Completion(chunks, None));
    HeadReads(thread, run, texts);
    TextsAreSaid(chunks);
    ClosingReads(Beginning(thread, run, texts), run, texts);
    ClosedReads(Beginning(thread, run, texts) + Closing(run, texts), thread, run, calls);
  }

  lemma ClosedReads(closed: seq<Wire>, thread: string, run: string, calls: seq<Call>)
    requires CallEvents(closed) == []
    ensures var sent := closed + Ending(thread, run, calls);
      && CallEvents(sent) == Reporting(calls) && Spoken(sent) == Spoken(closed) && TextOpen(sent) == TextOpen(closed)
      && sent[|sent| - 1] == RunFinished(thread, run)
  {
    EndingReads(thread, run, calls);
    Joins(closed, Ending(thread, run, calls));
    TextOpenPasses(closed, Ending(thread, run, calls));
    assert Spoken(closed) + "" == Spoken(closed) && [] + Reporting(calls) == Reporting(calls);
  }

  lemma {:induction false} ReportsInThrees(calls: seq<Call>)
    ensures |Reporting(calls)| == 3 * |calls|
    ensures forall i | 0 <= i < |calls| ::
      Reporting(calls)[3 * i..3 * i + 3] == [CallStart(calls[i].id, calls[i].name),
        CallArgs(calls[i].id, if calls[i].args == "" then "{}" else calls[i].args), CallEnd(calls[i].id)]
  {
    if calls != [] {
      var before, last := calls[..|calls| - 1], calls[|calls| - 1];
      ReportsInThrees(before);
      assert Reporting(calls) == Reporting(before) + Reported(last);
      forall i | 0 <= i < |calls| ensures Reporting(calls)[3 * i..3 * i + 3] == Reported(calls[i]) {
        if i < |before| {
          assert Reporting(calls)[3 * i..3 * i + 3] == Reporting(before)[3 * i..3 * i + 3];
        }
      }
    }
  }

  /** Each call is reported as it was put together: its id and name, its arguments or `{}` for none, and its end. */
  lemma CallsAreReported(thread: string, run: string, chunks: seq<Chunk>)
    ensures var told, calls := CallEvents(Output(thread, run, Completion(chunks, None))), Calls(Fragments(chunks), run);
      && |told| == 3 * |calls|
      && forall i | 0 <= i < |calls| ::
           told[3 * i..3 * i + 3] == [CallStart(calls[i].id, calls[i].name),
             CallArgs(calls[i].id, if calls[i].args == "" then "{}" else calls[i].args), CallEnd(calls[i].id)]
  {
    FinishedRunReads(thread, run, chunks);
    ReportsInThrees(Calls(Fragments(chunks), run));
  }

  /** A run that fails: the text so far, left open when there was any; no call; then the error. */
  lemma FailedRunReads(thread: string, run: string, chunks: seq<Chunk>, why: string)
    ensures var sent := Output(thread, run, Completion(chunks, Some(why)));
      && Spoken(sent) == Said(chunks) && (TextOpen(sent) <==> Said(chunks) != "")
      && CallEvents(sent) == []
      && sent[|sent| - 1] == RunError(why)
  {
    var begun := Beginning(thread, run, Texts(chunks));
    HeadReads(thread, run, Texts(chunks));
    TextsAreSaid(chunks);
    TextWhenSaid(chunks);
    OneReads(RunError(why));
    Joins(begun, [RunError(why)]);
    TextOpenPasses(begun, [RunError(why)]);
  }

  lemma Joins(a: seq<Wire>, b: seq<Wire>)
    ensures CallEvents(a + b) == CallEvents(a) + CallEvents(b) && Spoken(a + b) == Spoken(a) + Spoken(b)
  {
    CallEventsJoin(a, b);
    SpokenJoin(a, b);
  }

  lemma HeadReads(thread: string, run: string, texts: seq<string>)
    ensures var begun := Beginning(thread, run, texts);
      CallEvents(begun) == [] && Spoken(begun) == Run(texts) && TextOpen(begun) == (texts != [])
  {
    var head, text := [RunStarted(thread, run)], Writing(texts, "msg_" + run);
    OneReads(RunStarted(thread, run));
    WritingReads(texts, "msg_" + run);
    Joins(head, text);
    assert "" + Run(texts) == Run(texts);
    if texts == [] {
      assert head + text == head && head[..0] == [];
    } else {
      OpenedStays(head, text);
    }
  }

  /** What a list of events leaves open, it leaves open after any others. */
  lemma {:induction false} OpenedStays(a: seq<Wire>, b: seq<Wire>)
    requires TextOpen(b)
    ensures TextOpen(a + b)
  {
    Peeled(a, b);
    if !b[|b| - 1].TextStart? { OpenedStays(a, b[..|b| - 1]); }
  }
}
