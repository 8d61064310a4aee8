/** One run's framework events, read onto the wire. */
module Stream {
  import opened Text

  // ----- what the framework says -----

  /** A block of streamed content, as far as it decides text. */
  datatype Block = Bare(text: string) | Typed(kind: string, text: string) | Opaque

  datatype Content = Prose(text: string) | Blocks(blocks: seq<Block>) | NoContent

  datatype Call = Call(id: Option<string>, name: string, args: string)

  datatype Answer = Answer(id: string, content: string)

  datatype Said =
    | ModelStream(content: Content)
    | ModelEnd(calls: seq<Call>)
    | ToolsEnd(answers: seq<Answer>)
    | Other

  /** A source that ends, or throws after some events; a failure to build it throws before any. */
  datatype Source = Source(events: seq<Said>, failure: Option<string>)

  // ----- what goes on the wire -----

  datatype Wire =
    | TextStart(id: string)
    | TextContent(id: string, delta: string)
    | TextEnd(id: string)
    | CallStart(id: string, name: string)
    | CallArgs(id: string, args: string)
    | CallEnd(id: string)
    | CallResult(message: string, id: string, content: string)
    | RunFinished(thread: string, run: string)
    | RunError(why: string)

  const FALLBACK :=
    "The model returned an empty reply and the run ended without an answer. " +
    "This can happen with a strict provider; try asking again."

  function TextOfBlocks(blocks: seq<Block>): string {
    if blocks == [] then ""
    else
      TextOfBlocks(blocks[..|blocks| - 1]) +
      match blocks[|blocks| - 1]
      case Bare(text) => text
      case Typed(kind, text) => if kind == "text" then text else ""
      case Opaque => ""
  }

  /** `textOfChunk` */
  function TextOfChunk(content: Content): string {
    match content
    case Prose(text) => text
    case Blocks(blocks) => TextOfBlocks(blocks)
    case NoContent => ""
  }

  /** Its loop over the blocks. */
  method ReadChunk(content: Content) returns (text: string)
    ensures text == TextOfChunk(content)
  {
    if content.Prose? { return content.text; }
    if content.NoContent? { return ""; }
    text := "";
    for k := 0 to |content.blocks|
      invariant text == TextOfBlocks(content.blocks[..k])
    {
      var part := content.blocks[k];
      assert content.blocks[..k + 1][..k] == content.blocks[..k];
      assert text + "" == text;
      match part {
        case Bare(bare) => text := text + bare;
        case Typed(kind, typed) => if kind == "text" { text := text + typed; }
        case Opaque =>
      }
    }
    assert content.blocks[..|content.blocks|] == content.blocks;
  }

  // ----- what of a chunk is for a person to see -----

  /** A string, or a block of type `text`: neither reasoning nor anything else. */
  predicate ForAPerson(b: Block) {
    b.Bare? || (b.Typed? && b.kind == "text")
  }

  /** The places in a list of blocks, in order, whose text is for a person to see. */
  ghost predicate Selects(blocks: seq<Block>, places: seq<nat>) {
    && (forall i, j | 0 <= i < j < |places| :: places[i] < places[j])
    && (forall p | p in places :: p < |blocks| && ForAPerson(blocks[p]))
    && forall k | 0 <= k < |blocks| && ForAPerson(blocks[k]) :: k in places
  }

  /** The texts at those places, one after the other. */
  function TextsAt(blocks: seq<Block>, places: seq<nat>): string
    requires forall p | p in places :: p < |blocks| && ForAPerson(blocks[p])
  {
    if places == [] then ""
    else
      var last := places[|places| - 1];
      assert last in places && ForAPerson(blocks[last]);
      TextsAt(blocks, places[..|places| - 1]) + blocks[last].text
  }

  ghost predicate IsTextOf(text: string, content: Content) {
    match content
    case Prose(said) => text == said
    case Blocks(blocks) => exists places :: Selects(blocks, places) && text == TextsAt(blocks, places)
    case NoContent => text == ""
  }

  lemma {:induction false} BlocksAreRead(blocks: seq<Block>) returns (places: seq<nat>)
    ensures Selects(blocks, places) && TextOfBlocks(blocks) == TextsAt(blocks, places)
  {
    places := [];
    if blocks != [] {
      var front := BlocksAreRead(blocks[..|blocks| - 1]);
      places := SelectsOneMore(blocks, front);
    }
  }

  lemma SelectsOneMore(blocks: seq<Block>, front: seq<nat>) returns (places: seq<nat>)
    requires blocks != [] && Selects(blocks[..|blocks| - 1], front)
    ensures Selects(blocks, places)
    ensures TextsAt(blocks, places) ==
      TextsAt(blocks[..|blocks| - 1], front) + if ForAPerson(blocks[|blocks| - 1]) then blocks[|blocks| - 1].text else ""
  {
    SelectsBefore(blocks, front);
    FewerBlocks(blocks, front);
    if ForAPerson(blocks[|blocks| - 1]) {
      places := front + [|blocks| - 1];
      SelectsLastToo(blocks, front);
      OneMorePlace(blocks, front);
    } else {
      places := front;
      SelectsAllTheSame(blocks, front);
      assert TextsAt(blocks, front) + "" == TextsAt(blocks, front);
    }
  }

  /** The places select what is for a person short of the last block. */
  ghost predicate SelectsShort(blocks: seq<Block>, places: seq<nat>)
    requires blocks != []
  {
    && (forall i, j | 0 <= i < j < |places| :: places[i] < places[j])
    && (forall p | p in places :: p < |blocks| - 1 && ForAPerson(blocks[p]))
    && forall k | 0 <= k < |blocks| - 1 && ForAPerson(blocks[k]) :: k in places
  }

  lemma SelectsBefore(blocks: seq<Block>, front: seq<nat>)
    requires blocks != [] && Selects(blocks[..|blocks| - 1], front)
    ensures SelectsShort(blocks, front)
  {
    forall k | 0 <= k < |blocks| - 1 && ForAPerson(blocks[k]) ensures k in front {
      assert blocks[..|blocks| - 1][k] == blocks[k];
    }
  }

  lemma SelectsLastToo(blocks: seq<Block>, front: seq<nat>)
    requires blocks != [] && SelectsShort(blocks, front) && ForAPerson(blocks[|blocks| - 1])
    ensures Selects(blocks, front + [|blocks| - 1])
  {
    var places := front + [|blocks| - 1];
    forall i | 0 <= i < |front| ensures places[i] < |blocks| - 1 {
      assert front[i] in front;
    }
    forall k | 0 <= k < |blocks| && ForAPerson(blocks[k]) ensures k in places {
      if k == |blocks| - 1 { assert places[|front|] == k; }
    }
  }

  lemma SelectsAllTheSame(blocks: seq<Block>, front: seq<nat>)
    requires blocks != [] && SelectsShort(blocks, front) && !ForAPerson(blocks[|blocks| - 1])
    ensures Selects(blocks, front)
  {
  }

  lemma OneMorePlace(blocks: seq<Block>, front: seq<nat>)
    requires blocks != [] && ForAPerson(blocks[|blocks| - 1])
    requires forall p | p in front :: p < |blocks| && ForAPerson(blocks[p])
    ensures forall p | p in front + [|blocks| - 1] :: p < |blocks| && ForAPerson(blocks[p])
    ensures TextsAt(blocks, front + [|blocks| - 1]) == TextsAt(blocks, front) + blocks[|blocks| - 1].text
  {
    assert (front + [|blocks| - 1])[..|front|] == front;
  }

  lemma {:induction false} FewerBlocks(blocks: seq<Block>, places: seq<nat>)
    requires blocks != [] && forall p | p in places :: p < |blocks| - 1 && ForAPerson(blocks[p])
    ensures TextsAt(blocks[..|blocks| - 1], places) == TextsAt(blocks, places)
    decreases |places|
  {
    if places != [] { FewerBlocks(blocks, places[..|places| - 1]); }
  }

  /** The places are the blocks for a person to see, so there is one text of a chunk. */
  lemma {:induction false} SelectedOnce(blocks: seq<Block>, a: seq<nat>, b: seq<nat>)
    requires Selects(blocks, a) && Selects(blocks, b)
    ensures a == b
    decreases |a|
  {
    SelectsSome(blocks, a);
    SelectsSome(blocks, b);
    if a != [] {
      LastOfBoth(blocks, a, b);
      var last := a[|a| - 1];
      SelectsFewer(blocks, a);
      SelectsFewer(blocks, b);
      SelectedOnce(blocks[..last], a[..|a| - 1], b[..|b| - 1]);
      assert a == a[..|a| - 1] + [last] && b == b[..|b| - 1] + [last];
    }
  }

  lemma SelectsSome(blocks: seq<Block>, places: seq<nat>)
    requires Selects(blocks, places)
    ensures places != [] <==> exists k :: 0 <= k < |blocks| && ForAPerson(blocks[k])
  {
    if places != [] { assert places[0] in places; }
  }

  lemma LastOfBoth(blocks: seq<Block>, a: seq<nat>, b: seq<nat>)
    requires Selects(blocks, a) && Selects(blocks, b) && a != [] && b != []
    ensures a[|a| - 1] == b[|b| - 1]
  {
    var x, y := a[|a| - 1], b[|b| - 1];
    assert x in a && y in b && x in b && y in a;
    var i :| 0 <= i < |b| && b[i] == x;
    var j :| 0 <= j < |a| && a[j] == y;
  }

  lemma SelectsFewer(blocks: seq<Block>, places: seq<nat>)
    requires Selects(blocks, places) && places != []
    ensures places[|places| - 1] < |blocks| && Selects(blocks[..places[|places| - 1]], places[..|places| - 1])
  {
    var last, front := places[|places| - 1], places[..|places| - 1];
    assert last in places;
    forall p | p in front ensures p < last && ForAPerson(blocks[p]) {
      var i :| 0 <= i < |front| && front[i] == p;
      assert places[i] == p && p in places;
    }
    forall k | 0 <= k < last && ForAPerson(blocks[k]) ensures k in front {
      var i :| 0 <= i < |places| && places[i] == k;
      assert front[i] == k;
    }
  }

  /** What is read of a chunk is its strings and its blocks of type `text`, all of them, in order, and nothing else. */
  lemma ChunkIsRead(content: Content, text: string)
    ensures IsTextOf(text, content) <==> text == TextOfChunk(content)
  {
    if content.Blocks? {
      var places := BlocksAreRead(content.blocks);
      if IsTextOf(text, content) {
        var other :| Selects(content.blocks, other) && text == TextsAt(content.blocks, other);
        SelectedOnce(content.blocks, places, other);
      }
    }
  }

  function Key(call: Call): string {
    if call.id.Some? then call.id.value else call.name
  }

  function MessageId(run: string, index: nat): string {
    "msg_" + run + "_" + Decimal(index)
  }

  lemma MessageIdsDiffer(run: string, a: nat, b: nat)
    requires MessageId(run, a) == MessageId(run, b)
    ensures a == b
  {
    var k := |"msg_" + run + "_"|;
    assert MessageId(run, a)[k..] == Decimal(a) && MessageId(run, b)[k..] == Decimal(b);
    DecimalIsInjective(a, b);
  }

  // ----- the run, event by event -----

  /** A call waiting for its answer; the order of a sequence of them is the map's. */
  datatype Waiting = Waiting(key: string, name: string, args: string)

  datatype Run = Run(out: seq<Wire>, textOpen: bool, index: nat, sentText: bool, sentCall: bool, pending: seq<Waiting>)

  const BEGIN := Run([], false, 0, false, false, [])

  function Find(pending: seq<Waiting>, key: string): (i: nat)
    ensures i <= |pending| && (i < |pending| ==> pending[i].key == key)
    ensures forall j | 0 <= j < i :: pending[j].key != key
  {
    FirstWhere(pending, (w: Waiting) => w.key == key)
  }

  predicate Has(pending: seq<Waiting>, key: string) {
    Find(pending, key) < |pending|
  }

  function Set(pending: seq<Waiting>, w: Waiting): seq<Waiting> {
    if Has(pending, w.key) then pending[Find(pending, w.key) := w] else pending + [w]
  }

  function Delete(pending: seq<Waiting>, key: string): seq<Waiting> {
    if Has(pending, key) then pending[..Find(pending, key)] + pending[Find(pending, key) + 1..] else pending
  }

  function Announce(pending: seq<Waiting>, calls: seq<Call>): seq<Waiting>
    decreases |calls|
  {
    if calls == [] then pending
    else Announce(Set(pending, Waiting(Key(calls[0]), calls[0].name, calls[0].args)), calls[1..])
  }

  function CloseText(r: Run, run: string): Run {
    if !r.textOpen then r
    else r.(out := r.out + [TextEnd(MessageId(run, r.index))], textOpen := false, index := r.index + 1)
  }

  function Stream(r: Run, run: string, text: string): Run {
    if text == "" then r
    else
      var id := MessageId(run, r.index);
      r.(out := r.out + (if r.textOpen then [] else [TextStart(id)]) + [TextContent(id, text)], textOpen := true, sentText := true)
  }

  function Reporting(w: Waiting): seq<Wire> {
    [CallStart(w.key, w.name), CallArgs(w.key, w.args), CallEnd(w.key)]
  }

  function AnswerOne(r: Run, a: Answer): Run {
    if !Has(r.pending, a.id) then r
    else
      var w := r.pending[Find(r.pending, a.id)];
      r.(out := r.out + Reporting(w) + [CallResult(a.id + "-result", a.id, a.content)],
         sentCall := true,
         pending := Delete(r.pending, a.id))
  }

  function AnswerAll(r: Run, answers: seq<Answer>): Run
    decreases |answers|
  {
    if answers == [] then r else AnswerAll(AnswerOne(r, answers[0]), answers[1..])
  }

  function Read(r: Run, run: string, e: Said): Run {
    match e
    case ModelStream(content) => Stream(r, run, TextOfChunk(content))
    case ModelEnd(calls) => r.(pending := Announce(r.pending, calls))
    case ToolsEnd(answers) => AnswerAll(CloseText(r, run), answers)
    case Other => r
  }

  function ReadAll(r: Run, run: string, events: seq<Said>): Run
    decreases |events|
  {
    if events == [] then r else ReadAll(Read(r, run, events[0]), run, events[1..])
  }

  function ReportFirst(r: Run): Run
    requires r.pending != []
  {
    r.(out := r.out + Reporting(r.pending[0]), sentCall := true, pending := r.pending[1..])
  }

  function ReportRest(r: Run): Run
    decreases |r.pending|
  {
    if r.pending == [] then r
    else ReportRest(ReportFirst(r))
  }

  function Fallback(r: Run, run: string): seq<Wire> {
    var id := MessageId(run, r.index);
    if r.sentText || r.sentCall then [] else [TextStart(id), TextContent(id, FALLBACK), TextEnd(id)]
  }

  function Finish(r: Run, run: string, thread: string): seq<Wire> {
    var told := ReportRest(CloseText(r, run));
    told.out + Fallback(told, run) + [RunFinished(thread, run)]
  }

  function Fail(r: Run, run: string, why: string): seq<Wire> {
    CloseText(r, run).out + [RunError(why)]
  }

  /** Everything one run puts on the wire after it was opened. */
  function Translate(source: Source, run: string, thread: string): seq<Wire> {
    var r := ReadAll(BEGIN, run, source.events);
    match source.failure
    case Some(why) => Fail(r, run, why)
    case None => Finish(r, run, thread)
  }

  // ----- the wire's grammar -----

  /** Between messages, inside one, or inside a report of a call; `Reported` may still take its result. */
  datatype Mode = Idle | InText(id: string) | Started(id: string) | Argued(id: string) | Reported(id: string) | Over

  datatype Grammar = Grammar(mode: Mode, used: set<string>)

  function Advance(g: Grammar, w: Wire): Option<Grammar> {
    match w
    case TextStart(id) =>
      if (g.mode.Idle? || g.mode.Reported?) && id !in g.used then Some(Grammar(InText(id), g.used + {id})) else None
    case TextContent(id, delta) => if g.mode == InText(id) && delta != "" then Some(g) else None
    case TextEnd(id) => if g.mode == InText(id) then Some(g.(mode := Idle)) else None
    case CallStart(id, _) => if g.mode.Idle? || g.mode.Reported? then Some(g.(mode := Started(id))) else None
    case CallArgs(id, _) => if g.mode == Started(id) then Some(g.(mode := Argued(id))) else None
    case CallEnd(id) => if g.mode == Argued(id) then Some(g.(mode := Reported(id))) else None
    case CallResult(_, id, _) => if g.mode == Reported(id) then Some(g.(mode := Idle)) else None
    case _ => if g.mode.Idle? || g.mode.Reported? then Some(g.(mode := Over)) else None
  }

  function Parse(g: Grammar, out: seq<Wire>): Option<Grammar>
    decreases |out|
  {
    if out == [] then Some(g)
    else match Advance(g, out[0]) case None => None case Some(next) => Parse(next, out[1..])
  }

  /** Messages with distinct ids, closed before anything else; calls reported in one piece; one end. */
  predicate WellFormed(out: seq<Wire>) {
    match Parse(Grammar(Idle, {}), out) case None => false case Some(g) => g.mode.Over?
  }

  lemma {:induction false} ParseAppended(g: Grammar, a: seq<Wire>, b: seq<Wire>)
    ensures Parse(g, a + b) == match Parse(g, a) case None => None case Some(next) => Parse(next, b)
    decreases |a|
  {
    if a == [] {
      assert a + b == b;
    } else {
      assert (a + b)[1..] == a[1..] + b;
      match Advance(g, a[0])
      case None =>
      case Some(next) => ParseAppended(next, a[1..], b);
    }
  }

  /** What has been sent so far parses, up to the message that is open, with ids of past messages only. */
  ghost predicate Sound(r: Run, run: string) {
    match Parse(Grammar(Idle, {}), r.out)
    case None => false
    case Some(g) =>
      && (if r.textOpen then g.mode == InText(MessageId(run, r.index)) else g.mode.Idle? || g.mode.Reported?)
      && (forall k: nat :: MessageId(run, k) in g.used ==> k < r.index || (r.textOpen && k == r.index))
  }

  lemma ParseOne(g: Grammar, w: Wire)
    ensures Parse(g, [w]) == Advance(g, w)
  {
  }

  lemma ParseTwo(g: Grammar, w: Wire, v: Wire)
    requires Advance(g, w).Some?
    ensures Parse(g, [w, v]) == Advance(Advance(g, w).value, v)
  {
    assert [w, v][1..] == [v];
    ParseOne(Advance(g, w).value, v);
  }

  lemma ParseThree(g: Grammar, w: Wire, v: Wire, u: Wire)
    requires Advance(g, w).Some? && Advance(Advance(g, w).value, v).Some?
    ensures Parse(g, [w, v, u]) == Advance(Advance(Advance(g, w).value, v).value, u)
  {
    assert [w, v, u][1..] == [v, u];
    ParseTwo(Advance(g, w).value, v, u);
  }

  lemma CloseIsSound(r: Run, run: string)
    requires Sound(r, run)
    ensures Sound(CloseText(r, run), run) && !CloseText(r, run).textOpen
  {
    if r.textOpen {
      var end := TextEnd(MessageId(run, r.index));
      ParseAppended(Grammar(Idle, {}), r.out, [end]);
      ParseOne(Parse(Grammar(Idle, {}), r.out).value, end);
    }
  }

  lemma StreamIsSound(r: Run, run: string, text: string)
    requires Sound(r, run)
    ensures Sound(Stream(r, run, text), run)
  {
    if text != "" {
      var id := MessageId(run, r.index);
      var g := Parse(Grammar(Idle, {}), r.out).value;
      if r.textOpen {
        assert r.out + [] + [TextContent(id, text)] == r.out + [TextContent(id, text)];
        ParseAppended(Grammar(Idle, {}), r.out, [TextContent(id, text)]);
      } else {
        assert r.out + [TextStart(id)] + [TextContent(id, text)] == r.out + [TextStart(id), TextContent(id, text)];
        ParseAppended(Grammar(Idle, {}), r.out, [TextStart(id), TextContent(id, text)]);
        if id in g.used { assert false; }
        ParseTwo(g, TextStart(id), TextContent(id, text));
        forall k: nat | MessageId(run, k) in g.used + {id} ensures k < r.index || k == r.index {
          if MessageId(run, k) == id { MessageIdsDiffer(run, k, r.index); }
        }
      }
    }
  }

  lemma ReportParses(g: Grammar, w: Waiting)
    requires g.mode.Idle? || g.mode.Reported?
    ensures Parse(g, Reporting(w)) == Some(g.(mode := Reported(w.key)))
  {
    ParseThree(g, CallStart(w.key, w.name), CallArgs(w.key, w.args), CallEnd(w.key));
  }

  lemma AnswerIsSound(r: Run, run: string, a: Answer)
    requires Sound(r, run) && !r.textOpen
    ensures Sound(AnswerOne(r, a), run) && !AnswerOne(r, a).textOpen
  {
    if Has(r.pending, a.id) {
      var w := r.pending[Find(r.pending, a.id)];
      var result := CallResult(a.id + "-result", a.id, a.content);
      var g := Parse(Grammar(Idle, {}), r.out).value;
      ReportParses(g, w);
      ParseAppended(Grammar(Idle, {}), r.out, Reporting(w));
      ParseAppended(Grammar(Idle, {}), r.out + Reporting(w), [result]);
    }
  }

  lemma {:induction false} AnswersAreSound(r: Run, run: string, answers: seq<Answer>)
    requires Sound(r, run) && !r.textOpen
    ensures Sound(AnswerAll(r, answers), run)
    decreases |answers|
  {
    if answers != [] {
      AnswerIsSound(r, run, answers[0]);
      AnswersAreSound(AnswerOne(r, answers[0]), run, answers[1..]);
    }
  }

  lemma {:induction false} ReadIsSound(r: Run, run: string, events: seq<Said>)
    requires Sound(r, run)
    ensures Sound(ReadAll(r, run, events), run)
    decreases |events|
  {
    if events != [] {
      match events[0] {
        case ModelStream(content) => StreamIsSound(r, run, TextOfChunk(content));
        case ModelEnd(calls) =>
        case ToolsEnd(answers) =>
          CloseIsSound(r, run);
          AnswersAreSound(CloseText(r, run), run, answers);
        case Other =>
      }
      ReadIsSound(Read(r, run, events[0]), run, events[1..]);
    }
  }

  lemma {:induction false} ReportRestIsSound(r: Run, run: string)
    requires Sound(r, run) && !r.textOpen
    ensures Sound(ReportRest(r), run) && !ReportRest(r).textOpen
    decreases |r.pending|
  {
    if r.pending != [] {
      ParseAppended(Grammar(Idle, {}), r.out, Reporting(r.pending[0]));
      ReportParses(Parse(Grammar(Idle, {}), r.out).value, r.pending[0]);
      ReportRestIsSound(ReportFirst(r), run);
    }
  }

  lemma EndsWell(r: Run, run: string, end: Wire)
    requires Sound(r, run) && !r.textOpen && (end.RunFinished? || end.RunError?)
    ensures WellFormed(r.out + [end]) && WellFormed(r.out + Fallback(r, run) + [end])
  {
    var g := Parse(Grammar(Idle, {}), r.out).value;
    ParseAppended(Grammar(Idle, {}), r.out, [end]);
    ParseOne(g, end);
    var id := MessageId(run, r.index);
    if id in g.used { assert false; }
    var fallback := Fallback(r, run);
    if fallback != [] {
      ParseThree(g, TextStart(id), TextContent(id, FALLBACK), TextEnd(id));
    }
    ParseAppended(Grammar(Idle, {}), r.out, fallback);
    ParseAppended(Grammar(Idle, {}), r.out + fallback, [end]);
    ParseOne(Parse(g, fallback).value, end);
  }

  /** Whatever the framework says, and wherever it throws, the run on the wire is well formed. */
  lemma RunIsWellFormed(source: Source, run: string, thread: string)
    ensures WellFormed(Translate(source, run, thread))
  {
    ReadIsSound(BEGIN, run, source.events);
    var r := ReadAll(BEGIN, run, source.events);
    CloseIsSound(r, run);
    match source.failure
    case Some(why) => EndsWell(CloseText(r, run), run, RunError(why));
    case None =>
      ReportRestIsSound(CloseText(r, run), run);
      EndsWell(ReportRest(CloseText(r, run)), run, RunFinished(thread, run));
  }

  // ----- each call is reported once -----

  datatype Report = Report(id: string, name: string, args: string, result: Option<string>)

  predicate StartsReport(out: seq<Wire>, key: string) {
    |out| >= 3 && out[0].CallStart? && out[0].id == key && out[1].CallArgs? && out[2].CallEnd?
  }

  /** The reports of one call id on the wire, with the result that comes right after a report. */
  function ReportsFor(out: seq<Wire>, key: string): seq<Report>
    decreases |out|
  {
    if out == [] then []
    else if StartsReport(out, key) then
      [Report(key, out[0].name, out[1].args, if |out| > 3 && out[3].CallResult? then Some(out[3].content) else None)]
      + ReportsFor(out[3..], key)
    else ReportsFor(out[1..], key)
  }

  /** Nothing that would belong to a report begun before it. */
  predicate Apart(out: seq<Wire>) {
    out == [] || !(out[0].CallArgs? || out[0].CallEnd? || out[0].CallResult?)
  }

  lemma {:induction false} ReportsAppended(a: seq<Wire>, b: seq<Wire>, key: string)
    requires Apart(b)
    ensures ReportsFor(a + b, key) == ReportsFor(a, key) + ReportsFor(b, key)
    decreases |a|
  {
    if a == [] {
      assert a + b == b;
    } else if StartsReport(a, key) {
      assert (a + b)[3..] == a[3..] + b;
      ReportsAppended(a[3..], b, key);
    } else {
      assert (a + b)[1..] == a[1..] + b;
      assert !StartsReport(a + b, key);
      ReportsAppended(a[1..], b, key);
    }
  }

  lemma NoReportsInText(out: seq<Wire>, key: string)
    requires forall w | w in out :: !w.CallStart?
    ensures ReportsFor(out, key) == []
    decreases |out|
  {
    if out != [] {
      assert out[0] in out;
      assert forall w | w in out[1..] :: w in out;
      NoReportsInText(out[1..], key);
    }
  }

  lemma OneReport(w: Waiting, result: Option<string>, key: string)
    ensures var end := if result.Some? then [CallResult(w.key + "-result", w.key, result.value)] else [];
            ReportsFor(Reporting(w) + end, key) == if w.key == key then [Report(key, w.name, w.args, result)] else []
  {
    var end := if result.Some? then [CallResult(w.key + "-result", w.key, result.value)] else [];
    var out := Reporting(w) + end;
    assert out[3..] == end;
    NoReportsInText(end, key);
    if w.key != key {
      assert out[1..][1..][1..] == end;
      assert out[1] == CallArgs(w.key, w.args) && out[2] == CallEnd(w.key);
      assert ReportsFor(out, key) == ReportsFor(out[1..], key) == ReportsFor(out[1..][1..], key);
    }
  }

  function FirstIn(answers: seq<Answer>, key: string): Option<string> {
    if answers == [] then None
    else if answers[0].id == key then Some(answers[0].content)
    else FirstIn(answers[1..], key)
  }

  /** The first answer the tools node gives a call from here on. */
  function FirstAnswer(events: seq<Said>, key: string): Option<string> {
    if events == [] then None
    else if events[0].ToolsEnd? && FirstIn(events[0].answers, key).Some? then FirstIn(events[0].answers, key)
    else FirstAnswer(events[1..], key)
  }

  function CountIn(calls: seq<Call>, key: string): nat {
    if calls == [] then 0 else (if Key(calls[0]) == key then 1 else 0) + CountIn(calls[1..], key)
  }

  /** How many calls with this key the model announces. */
  function Announcements(events: seq<Said>, key: string): nat {
    if events == [] then 0
    else (if events[0].ModelEnd? then CountIn(events[0].calls, key) else 0) + Announcements(events[1..], key)
  }

  /** Of the calls announced together under a key, the one announced last. */
  function LastIn(calls: seq<Call>, key: string): Option<Call> {
    if calls == [] then None
    else if LastIn(calls[1..], key).Some? then LastIn(calls[1..], key)
    else if Key(calls[0]) == key then Some(calls[0]) else None
  }

  function CallsIn(calls: seq<Call>, key: string, answer: Option<string>): seq<Report> {
    if calls == [] then []
    else (if Key(calls[0]) == key then [Report(key, calls[0].name, calls[0].args, answer)] else []) + CallsIn(calls[1..], key, answer)
  }

  /** The report every call under a key is due: as it was announced, with the first answer given after that. */
  function EachCall(events: seq<Said>, key: string): seq<Report> {
    if events == [] then []
    else (if events[0].ModelEnd? then CallsIn(events[0].calls, key, FirstAnswer(events[1..], key)) else []) + EachCall(events[1..], key)
  }

  /** Whether some call under a key is announced together with another, or while another is still unanswered. */
  predicate Overtaken(events: seq<Said>, key: string, awaited: bool) {
    events != [] &&
    match events[0]
    case ModelEnd(calls) =>
      if CountIn(calls, key) == 0 then Overtaken(events[1..], key, awaited)
      else CountIn(calls, key) > 1 || awaited || Overtaken(events[1..], key, true)
    case ToolsEnd(answers) => Overtaken(events[1..], key, awaited && FirstIn(answers, key).None?)
    case _ => Overtaken(events[1..], key, awaited)
  }

  predicate OneKey(pending: seq<Waiting>) {
    forall i, j | 0 <= i < j < |pending| :: pending[i].key != pending[j].key
  }

  /** What is pending for a key. */
  function Awaited(pending: seq<Waiting>, key: string): Option<Waiting> {
    if Has(pending, key) then Some(pending[Find(pending, key)]) else None
  }

  lemma SetAwaits(pending: seq<Waiting>, w: Waiting, key: string)
    requires OneKey(pending)
    ensures OneKey(Set(pending, w))
    ensures Awaited(Set(pending, w), key) == if w.key == key then Some(w) else Awaited(pending, key)
  {
    var after := Set(pending, w);
    var i := Find(pending, key);
    if w.key == key {
      assert after[i] == w;
      UniquePlace(after, i, key);
    } else if i < |pending| {
      assert after[i] == pending[i];
      UniquePlace(after, i, key);
    } else {
      assert forall j | 0 <= j < |after| :: after[j].key != key;
    }
  }

  lemma UniquePlace(pending: seq<Waiting>, i: nat, key: string)
    requires OneKey(pending) && i < |pending| && pending[i].key == key
    ensures Find(pending, key) == i
  {
  }

  lemma DeleteAwaits(pending: seq<Waiting>, gone: string, key: string)
    requires OneKey(pending)
    ensures OneKey(Delete(pending, gone))
    ensures Awaited(Delete(pending, gone), key) == if gone == key then None else Awaited(pending, key)
  {
    var after := Delete(pending, gone);
    var at, i := Find(pending, gone), Find(pending, key);
    assert forall j | 0 <= j < |after| :: after[j] == pending[if j < at then j else j + 1];
    if gone != key && i < |pending| {
      UniquePlace(after, if i < at then i else i - 1, key);
    } else {
      assert forall j | 0 <= j < |after| :: after[j].key != key;
    }
  }

  lemma {:induction false} AnnounceAwaits(pending: seq<Waiting>, calls: seq<Call>, key: string)
    requires OneKey(pending)
    ensures OneKey(Announce(pending, calls))
    ensures Awaited(Announce(pending, calls), key) ==
            if LastIn(calls, key).Some? then Some(Waiting(key, LastIn(calls, key).value.name, LastIn(calls, key).value.args))
            else Awaited(pending, key)
    decreases |calls|
  {
    if calls != [] {
      var w := Waiting(Key(calls[0]), calls[0].name, calls[0].args);
      SetAwaits(pending, w, key);
      AnnounceAwaits(Set(pending, w), calls[1..], key);
    }
  }

  /** How a key stands: what is still awaited for it, and what has been reported. */
  datatype Standing = Standing(awaited: Option<Waiting>, reports: seq<Report>)

  function StandingOf(r: Run, key: string): Standing {
    Standing(Awaited(r.pending, key), ReportsFor(r.out, key))
  }

  function Answered(s: Standing, answer: Option<string>): Standing {
    if s.awaited.Some? && answer.Some? then
      Standing(None, s.reports + [Report(s.awaited.value.key, s.awaited.value.name, s.awaited.value.args, answer)])
    else s
  }

  lemma AnswerStands(r: Run, a: Answer, key: string)
    requires OneKey(r.pending)
    ensures OneKey(AnswerOne(r, a).pending)
    ensures StandingOf(AnswerOne(r, a), key) == Answered(StandingOf(r, key), if a.id == key then Some(a.content) else None)
  {
    DeleteAwaits(r.pending, a.id, key);
    if Has(r.pending, a.id) {
      var w := r.pending[Find(r.pending, a.id)];
      var told := Reporting(w) + [CallResult(a.id + "-result", a.id, a.content)];
      OneReport(w, Some(a.content), key);
      ReportsAppended(r.out, told, key);
      assert r.out + Reporting(w) + [CallResult(a.id + "-result", a.id, a.content)] == r.out + told;
    }
  }

  lemma {:induction false} AnswersStand(r: Run, answers: seq<Answer>, key: string)
    requires OneKey(r.pending)
    ensures OneKey(AnswerAll(r, answers).pending)
    ensures StandingOf(AnswerAll(r, answers), key) == Answered(StandingOf(r, key), FirstIn(answers, key))
    decreases |answers|
  {
    if answers != [] {
      AnswerStands(r, answers[0], key);
      AnswersStand(AnswerOne(r, answers[0]), answers[1..], key);
    }
  }

  lemma TextStands(r: Run, run: string, text: string, key: string)
    ensures StandingOf(CloseText(r, run), key) == StandingOf(r, key)
    ensures StandingOf(Stream(r, run, text), key) == StandingOf(r, key)
  {
    var id := MessageId(run, r.index);
    var start: seq<Wire> := if r.textOpen then [] else [TextStart(id)];
    NoReportsInText([TextEnd(id)], key);
    ReportsAppended(r.out, [TextEnd(id)], key);
    NoReportsInText(start, key);
    NoReportsInText([TextContent(id, text)], key);
    ReportsAppended(r.out, start, key);
    ReportsAppended(r.out + start, [TextContent(id, text)], key);
  }

  function Affected(s: Standing, e: Said, key: string): Standing {
    if e.ModelEnd? && LastIn(e.calls, key).Some? then
      s.(awaited := Some(Waiting(key, LastIn(e.calls, key).value.name, LastIn(e.calls, key).value.args)))
    else if e.ToolsEnd? then Answered(s, FirstIn(e.answers, key))
    else s
  }

  lemma EventStands(r: Run, run: string, e: Said, key: string)
    requires OneKey(r.pending)
    ensures OneKey(Read(r, run, e).pending)
    ensures StandingOf(Read(r, run, e), key) == Affected(StandingOf(r, key), e, key)
  {
    match e
    case ModelStream(content) => TextStands(r, run, TextOfChunk(content), key);
    case ModelEnd(calls) => AnnounceAwaits(r.pending, calls, key);
    case ToolsEnd(answers) =>
      TextStands(r, run, "", key);
      AnswersStand(CloseText(r, run), answers, key);
    case Other =>
  }

  function After(s: Standing, events: seq<Said>, key: string): Standing
    decreases |events|
  {
    if events == [] then s else After(Affected(s, events[0], key), events[1..], key)
  }

  lemma {:induction false} AllStand(r: Run, run: string, events: seq<Said>, key: string)
    requires OneKey(r.pending)
    ensures OneKey(ReadAll(r, run, events).pending)
    ensures StandingOf(ReadAll(r, run, events), key) == After(StandingOf(r, key), events, key)
    decreases |events|
  {
    if events != [] {
      EventStands(r, run, events[0], key);
      AllStand(Read(r, run, events[0]), run, events[1..], key);
    }
  }

  /** Reported, once the calls still pending at the end of the run are reported too. */
  function Told(s: Standing): seq<Report> {
    if s.awaited.Some? then s.reports + [Report(s.awaited.value.key, s.awaited.value.name, s.awaited.value.args, None)] else s.reports
  }

  lemma {:induction false} RestIsTold(r: Run, key: string)
    requires OneKey(r.pending)
    ensures ReportsFor(ReportRest(r).out, key) == Told(StandingOf(r, key))
    decreases |r.pending|
  {
    if r.pending != [] {
      FirstIsTold(r, key);
      RestIsTold(ReportFirst(r), key);
    }
  }

  lemma FirstIsTold(r: Run, key: string)
    requires OneKey(r.pending) && r.pending != []
    ensures Told(StandingOf(ReportFirst(r), key)) == Told(StandingOf(r, key)) && OneKey(ReportFirst(r).pending)
  {
    FirstIsReported(r, key);
    FirstIsDropped(r.pending, key);
  }

  lemma FirstIsReported(r: Run, key: string)
    requires r.pending != []
    ensures var w := r.pending[0];
            ReportsFor(ReportFirst(r).out, key) == ReportsFor(r.out, key) + if w.key == key then [Report(key, w.name, w.args, None)] else []
  {
    OneReport(r.pending[0], None, key);
    assert Reporting(r.pending[0]) + [] == Reporting(r.pending[0]);
    ReportsAppended(r.out, Reporting(r.pending[0]), key);
  }

  lemma FirstIsDropped(pending: seq<Waiting>, key: string)
    requires OneKey(pending) && pending != []
    ensures OneKey(pending[1..])
    ensures Awaited(pending[1..], key) == if pending[0].key == key then None else Awaited(pending, key)
    ensures pending[0].key == key ==> Awaited(pending, key) == Some(pending[0])
  {
    DeleteAwaits(pending, pending[0].key, key);
    UniquePlace(pending, 0, pending[0].key);
    assert Delete(pending, pending[0].key) == pending[1..];
  }

  /** What is on the wire for a key is what the run's events come to for it. */
  lemma ReportsAreTold(events: seq<Said>, run: string, thread: string, key: string)
    ensures ReportsFor(Translate(Source(events, None), run, thread), key) == Told(After(Standing(None, []), events, key))
  {
    AllStand(BEGIN, run, events, key);
    var r := ReadAll(BEGIN, run, events);
    TextStands(r, run, "", key);
    RestIsTold(CloseText(r, run), key);
    var told := ReportRest(CloseText(r, run));
    NoReportsInText(Fallback(told, run), key);
    ReportsAppended(told.out, Fallback(told, run), key);
    NoReportsInText([RunFinished(thread, run)], key);
    ReportsAppended(told.out + Fallback(told, run), [RunFinished(thread, run)], key);
  }

  /** A call that waits, and what it is due once it is answered or the run is over. */
  function DueTo(awaited: Option<Waiting>, answer: Option<string>): seq<Report> {
    if awaited.Some? then [Report(awaited.value.key, awaited.value.name, awaited.value.args, answer)] else []
  }

  lemma {:induction false} OneCallIn(calls: seq<Call>, key: string, answer: Option<string>)
    ensures |CallsIn(calls, key, answer)| == CountIn(calls, key)
    ensures LastIn(calls, key).Some? <==> CountIn(calls, key) > 0
    ensures CountIn(calls, key) == 1 ==>
      CallsIn(calls, key, answer) == [Report(key, LastIn(calls, key).value.name, LastIn(calls, key).value.args, answer)]
  {
    if calls != [] {
      OneCallIn(calls[1..], key, answer);
      if CountIn(calls[1..], key) == 0 { assert CallsIn(calls[1..], key, answer) == []; }
    }
  }

  lemma {:induction false} AnnouncedInAll(events: seq<Said>, key: string)
    ensures |EachCall(events, key)| == Announcements(events, key)
  {
    if events != [] {
      AnnouncedInAll(events[1..], key);
      if events[0].ModelEnd? { OneCallIn(events[0].calls, key, FirstAnswer(events[1..], key)); }
    }
  }

  /** What a key has been told and is still due, after some events and before others. */
  function Owed(s: Standing, events: seq<Said>, key: string): seq<Report> {
    s.reports + DueTo(s.awaited, FirstAnswer(events, key)) + EachCall(events, key)
  }

  lemma AnnouncementIsOwed(s: Standing, events: seq<Said>, key: string)
    requires events != [] && events[0].ModelEnd? && !Overtaken(events, key, s.awaited.Some?)
    ensures var t := Affected(s, events[0], key);
      !Overtaken(events[1..], key, t.awaited.Some?) && Owed(t, events[1..], key) == Owed(s, events, key)
  {
    var calls, answer := events[0].calls, FirstAnswer(events[1..], key);
    OneCallIn(calls, key, answer);
    assert EachCall(events, key) == CallsIn(calls, key, answer) + EachCall(events[1..], key);
    if CountIn(calls, key) == 0 {
      assert CallsIn(calls, key, answer) == [] && EachCall(events, key) == EachCall(events[1..], key);
    } else {
      assert DueTo(Affected(s, events[0], key).awaited, answer) == CallsIn(calls, key, answer);
      assert Owed(s, events, key) == s.reports + EachCall(events, key) by { assert s.reports + [] == s.reports; }
      Associates(s.reports, CallsIn(calls, key, answer), EachCall(events[1..], key));
    }
  }

  lemma AnswerIsOwed(s: Standing, events: seq<Said>, key: string)
    requires events != [] && !events[0].ModelEnd? && !Overtaken(events, key, s.awaited.Some?)
    ensures var t := Affected(s, events[0], key);
      !Overtaken(events[1..], key, t.awaited.Some?) && Owed(t, events[1..], key) == Owed(s, events, key)
  {
    assert EachCall(events, key) == EachCall(events[1..], key);
    if events[0].ToolsEnd? && s.awaited.Some? && FirstIn(events[0].answers, key).Some? {
      assert Affected(s, events[0], key).reports + [] == s.reports + DueTo(s.awaited, FirstAnswer(events, key));
    }
  }

  /** Each call that is not overtaken gets its due. */
  lemma {:induction false} NotOvertakenGetsDue(s: Standing, events: seq<Said>, key: string)
    requires !Overtaken(events, key, s.awaited.Some?)
    ensures Told(After(s, events, key)) == Owed(s, events, key)
    decreases |events|
  {
    if events == [] {
      assert s.reports + [] + [] == s.reports;
    } else {
      if events[0].ModelEnd? { AnnouncementIsOwed(s, events, key); } else { AnswerIsOwed(s, events, key); }
      NotOvertakenGetsDue(Affected(s, events[0], key), events[1..], key);
    }
  }

  /** An overtaken call leaves the reports fewer than the calls, whatever comes after. */
  lemma {:induction false} OvertakenIsLost(s: Standing, events: seq<Said>, key: string)
    ensures var due := |s.reports| + (if s.awaited.Some? then 1 else 0) + Announcements(events, key);
      |Told(After(s, events, key))| <= due && (Overtaken(events, key, s.awaited.Some?) ==> |Told(After(s, events, key))| < due)
    decreases |events|
  {
    if events != [] {
      OvertakenIsLost(Affected(s, events[0], key), events[1..], key);
      if events[0].ModelEnd? { OneCallIn(events[0].calls, key, None); }
    }
  }

  /**
   * In a run that does not fail, the reports of a key are one for each call announced under it, in order, as it
   * was announced and with the first answer given after it, exactly when none of the calls is overtaken by the
   * next; otherwise they are fewer.
   */
  lemma EachCallIsReported(events: seq<Said>, run: string, thread: string, key: string)
    ensures var reports := ReportsFor(Translate(Source(events, None), run, thread), key);
      && (reports == EachCall(events, key) <==> !Overtaken(events, key, false))
      && (|reports| == Announcements(events, key) <==> !Overtaken(events, key, false))
      && |reports| <= Announcements(events, key)
  {
    var none := Standing(None, []);
    ReportsAreTold(events, run, thread, key);
    AnnouncedInAll(events, key);
    OvertakenIsLost(none, events, key);
    if !Overtaken(events, key, false) {
      NotOvertakenGetsDue(none, events, key);
      assert [] + [] + EachCall(events, key) == EachCall(events, key);
    }
  }

  lemma {:induction false} OnceIsNotOvertaken(events: seq<Said>, key: string, awaited: bool)
    requires Announcements(events, key) + (if awaited then 1 else 0) <= 1
    ensures !Overtaken(events, key, awaited)
    decreases |events|
  {
    if events != [] {
      match events[0]
      case ModelEnd(calls) => OnceIsNotOvertaken(events[1..], key, awaited || CountIn(calls, key) > 0);
      case ToolsEnd(answers) => OnceIsNotOvertaken(events[1..], key, awaited && FirstIn(answers, key).None?);
      case _ => OnceIsNotOvertaken(events[1..], key, awaited);
    }
  }

  /** So where keys are distinct every call is reported once: its result is there exactly when the tools node gave one. */
  lemma CallsAreReportedOnce(events: seq<Said>, run: string, thread: string, key: string)
    requires Announcements(events, key) <= 1
    ensures ReportsFor(Translate(Source(events, None), run, thread), key) == EachCall(events, key)
  {
    OnceIsNotOvertaken(events, key, false);
    EachCallIsReported(events, run, thread, key);
  }

  lemma {:induction false} AnnouncedAlone(events: seq<Said>, n: nat, j: nat, key: string)
    requires n < |events| && events[n].ModelEnd? && j < |events[n].calls|
    requires Key(events[n].calls[j]) == key && Announcements(events, key) <= 1
    ensures EachCall(events, key) ==
      [Report(key, events[n].calls[j].name, events[n].calls[j].args, FirstAnswer(events[n + 1..], key))]
    decreases n
  {
    AnnouncedInAll(events, key);
    AnnouncedInAll(events[1..], key);
    if n == 0 {
      AloneAmong(events[0].calls, j, key, FirstAnswer(events[1..], key));
    } else {
      CountedOnce(events, n, j, key);
      AnnouncedAlone(events[1..], n - 1, j, key);
      assert events[1..][n..] == events[n + 1..];
      if events[0].ModelEnd? { OneCallIn(events[0].calls, key, FirstAnswer(events[1..], key)); }
    }
  }

  lemma {:induction false} AloneAmong(calls: seq<Call>, j: nat, key: string, answer: Option<string>)
    requires j < |calls| && Key(calls[j]) == key
    ensures CountIn(calls, key) >= 1
    ensures CountIn(calls, key) == 1 ==> CallsIn(calls, key, answer) == [Report(key, calls[j].name, calls[j].args, answer)]
    decreases j
  {
    OneCallIn(calls[1..], key, answer);
    if j > 0 { AloneAmong(calls[1..], j - 1, key, answer); }
  }

  lemma {:induction false} CountedOnce(events: seq<Said>, n: nat, j: nat, key: string)
    requires n < |events| && events[n].ModelEnd? && j < |events[n].calls| && Key(events[n].calls[j]) == key
    ensures Announcements(events, key) >= 1
    decreases n
  {
    if n == 0 { AloneAmong(events[0].calls, j, key, None); } else { CountedOnce(events[1..], n - 1, j, key); }
  }

  /** A call that has an id is reported under it, one that has none under its name: as it was made, and with its own answer. */
  lemma CallIsReportedAsMade(events: seq<Said>, n: nat, j: nat, run: string, thread: string, id: string)
    requires n < |events| && events[n].ModelEnd? && j < |events[n].calls|
    requires events[n].calls[j].id == Some(id) || (events[n].calls[j].id == None && events[n].calls[j].name == id)
    requires Announcements(events, id) <= 1
    ensures ReportsFor(Translate(Source(events, None), run, thread), id) ==
      [Report(id, events[n].calls[j].name, events[n].calls[j].args, FirstAnswer(events[n + 1..], id))]
  {
    CallsAreReportedOnce(events, run, thread, id);
    AnnouncedAlone(events, n, j, id);
  }

  /** Announced twice before it is answered, a key keeps only the later call. */
  lemma RepeatedKeyLosesACall(run: string, thread: string)
    ensures var events := [ModelEnd([Call(Some("k"), "first", "1"), Call(Some("k"), "second", "2")])];
            && Overtaken(events, "k", false) && Announcements(events, "k") == 2
            && ReportsFor(Translate(Source(events, None), run, thread), "k") == [Report("k", "second", "2", None)]
  {
    var a, b := Call(Some("k"), "first", "1"), Call(Some("k"), "second", "2");
    var events := [ModelEnd([a, b])];
    assert [a, b][1..] == [b] && [b][1..] == [] && events[1..] == [];
    assert CountIn([b], "k") == 1 && LastIn([b], "k") == Some(b);
    assert CountIn([a, b], "k") == 2 && LastIn([a, b], "k") == Some(b);
    ReportsAreTold(events, run, thread, "k");
    var s := Affected(Standing(None, []), events[0], "k");
    assert s == Standing(Some(Waiting("k", "second", "2")), []);
    assert After(Standing(None, []), events, "k") == After(s, [], "k") == s;
  }

  // ----- the text a person sees -----

  function Deltas(out: seq<Wire>): string
    decreases |out|
  {
    if out == [] then "" else (if out[0].TextContent? then out[0].delta else "") + Deltas(out[1..])
  }

  /** A text for each event: what a chunk shows a person, and nothing of any other event. */
  ghost predicate Shows(events: seq<Said>, texts: seq<string>) {
    && |texts| == |events|
    && forall i | 0 <= i < |events| :: if events[i].ModelStream? then IsTextOf(texts[i], events[i].content) else texts[i] == ""
  }

  /** Texts, one after the other. */
  function Joined(texts: seq<string>): string {
    if texts == [] then "" else texts[0] + Joined(texts[1..])
  }

  function Visible(events: seq<Said>): string {
    if events == [] then ""
    else (if events[0].ModelStream? then TextOfChunk(events[0].content) else "") + Visible(events[1..])
  }

  lemma {:induction false} VisibleIsShown(events: seq<Said>, texts: seq<string>)
    requires Shows(events, texts)
    ensures Visible(events) == Joined(texts)
  {
    if events != [] {
      if events[0].ModelStream? { ChunkIsRead(events[0].content, texts[0]); }
      VisibleIsShown(events[1..], texts[1..]);
    }
  }

  predicate AnyCall(events: seq<Said>) {
    events != [] && ((events[0].ModelEnd? && events[0].calls != []) || AnyCall(events[1..]))
  }

  lemma {:induction false} DeltasAppended(a: seq<Wire>, b: seq<Wire>)
    ensures Deltas(a + b) == Deltas(a) + Deltas(b)
    decreases |a|
  {
    if a == [] {
      assert a + b == b;
    } else {
      assert (a + b)[1..] == a[1..] + b;
      DeltasAppended(a[1..], b);
    }
  }

  lemma {:induction false} NoDeltas(out: seq<Wire>)
    requires forall w | w in out :: !w.TextContent?
    ensures Deltas(out) == ""
    decreases |out|
  {
    if out != [] {
      assert out[0] in out;
      assert forall w | w in out[1..] :: w in out;
      NoDeltas(out[1..]);
    }
  }

  /** `sentText` says whether any text went out, `sentCall` and `pending` whether any call was announced. */
  ghost predicate Honest(r: Run, said: string, called: bool) {
    Deltas(r.out) == said && (r.sentText <==> said != "") && (r.sentCall || r.pending != [] <==> called)
  }

  lemma {:induction false} AnswersSayNothing(r: Run, answers: seq<Answer>, said: string, called: bool)
    requires Honest(r, said, called)
    ensures Honest(AnswerAll(r, answers), said, called)
    decreases |answers|
  {
    if answers != [] {
      var a := answers[0];
      if Has(r.pending, a.id) {
        var w := r.pending[Find(r.pending, a.id)];
        var result := CallResult(a.id + "-result", a.id, a.content);
        NoDeltas(Reporting(w));
        NoDeltas([result]);
        DeltasAppended(r.out, Reporting(w));
        DeltasAppended(r.out + Reporting(w), [result]);
      }
      AnswersSayNothing(AnswerOne(r, a), answers[1..], said, called);
    }
  }

  lemma {:induction false} AnnouncedIsPending(pending: seq<Waiting>, calls: seq<Call>)
    ensures Announce(pending, calls) != [] <==> pending != [] || calls != []
    decreases |calls|
  {
    if calls != [] {
      AnnouncedIsPending(Set(pending, Waiting(Key(calls[0]), calls[0].name, calls[0].args)), calls[1..]);
    }
  }

  lemma TextIsSaid(r: Run, run: string, text: string, said: string, called: bool)
    requires Honest(r, said, called)
    ensures Honest(CloseText(r, run), said, called) && Honest(Stream(r, run, text), said + text, called)
  {
    var id := MessageId(run, r.index);
    var start: seq<Wire> := if r.textOpen then [] else [TextStart(id)];
    NoDeltas([TextEnd(id)]);
    NoDeltas(start);
    DeltasAppended(r.out, [TextEnd(id)]);
    DeltasAppended(r.out, start);
    DeltasAppended(r.out + start, [TextContent(id, text)]);
    assert [TextContent(id, text)][1..] == [];
    assert Deltas([TextContent(id, text)]) == text + "" == text;
    assert said + "" == said;
  }

  lemma {:induction false} ReadIsHonest(r: Run, run: string, events: seq<Said>, said: string, called: bool)
    requires Honest(r, said, called)
    ensures Honest(ReadAll(r, run, events), said + Visible(events), called || AnyCall(events))
    decreases |events|
  {
    if events == [] {
      assert said + Visible(events) == said;
    } else {
      var e := events[0];
      var text := if e.ModelStream? then TextOfChunk(e.content) else "";
      TextIsSaid(r, run, text, said, called);
      assert said + "" == said;
      match e {
        case ModelStream(content) =>
        case ModelEnd(calls) => AnnouncedIsPending(r.pending, calls);
        case ToolsEnd(answers) => AnswersSayNothing(CloseText(r, run), answers, said, called);
        case Other =>
      }
      ReadIsHonest(Read(r, run, e), run, events[1..], said + text, called || (e.ModelEnd? && e.calls != []));
      assert said + (text + Visible(events[1..])) == (said + text) + Visible(events[1..]);
    }
  }

  lemma {:induction false} RestSaysNothing(r: Run, said: string, called: bool)
    requires Honest(r, said, called)
    ensures Honest(ReportRest(r), said, called) && ReportRest(r).pending == []
    decreases |r.pending|
  {
    if r.pending != [] {
      NoDeltas(Reporting(r.pending[0]));
      DeltasAppended(r.out, Reporting(r.pending[0]));
      RestSaysNothing(ReportFirst(r), said, called);
    }
  }

  /**
   * The text on the wire is the text the model streamed for a person to see, whole and in order; the
   * fallback line takes its place exactly when a run that does not fail had neither text nor a call.
   */
  lemma TextIsKept(source: Source, run: string, thread: string, texts: seq<string>)
    requires Shows(source.events, texts)
    ensures Deltas(Translate(source, run, thread)) ==
            if source.failure.None? && Joined(texts) == "" && !AnyCall(source.events) then FALLBACK else Joined(texts)
  {
    VisibleIsShown(source.events, texts);
    var said, called := Visible(source.events), AnyCall(source.events);
    ReadIsHonest(BEGIN, run, source.events, "", false);
    assert "" + said == said;
    var r := ReadAll(BEGIN, run, source.events);
    if source.failure.Some? {
      TextIsSaid(r, run, "", said, called);
      NoDeltas([RunError(source.failure.value)]);
      DeltasAppended(CloseText(r, run).out, [RunError(source.failure.value)]);
    } else {
      FinishKeepsText(r, run, thread, said, called);
    }
  }

  lemma FinishKeepsText(r: Run, run: string, thread: string, said: string, called: bool)
    requires Honest(r, said, called)
    ensures Deltas(Finish(r, run, thread)) == if said == "" && !called then FALLBACK else said
  {
    TextIsSaid(r, run, "", said, called);
    RestSaysNothing(CloseText(r, run), said, called);
    var told := ReportRest(CloseText(r, run));
    NoDeltas([RunFinished(thread, run)]);
    DeltasAppended(told.out, Fallback(told, run));
    DeltasAppended(told.out + Fallback(told, run), [RunFinished(thread, run)]);
    FallbackText(MessageId(run, told.index));
  }

  lemma FallbackText(id: string)
    ensures Deltas([TextStart(id), TextContent(id, FALLBACK), TextEnd(id)]) == FALLBACK
  {
    var out := [TextStart(id), TextContent(id, FALLBACK), TextEnd(id)];
    assert out == [TextStart(id)] + ([TextContent(id, FALLBACK)] + [TextEnd(id)]);
    NoDeltas([TextStart(id)]);
    NoDeltas([TextEnd(id)]);
    DeltasAppended([TextStart(id)], [TextContent(id, FALLBACK)] + [TextEnd(id)]);
    DeltasAppended([TextContent(id, FALLBACK)], [TextEnd(id)]);
    assert [TextContent(id, FALLBACK)][1..] == [];
  }

  /** A run says how it ended: that it is finished, or what was thrown. */
  lemma RunSaysHowItEnded(source: Source, run: string, thread: string)
    ensures var out := Translate(source, run, thread);
      out != [] && out[|out| - 1] == if source.failure.None? then RunFinished(thread, run) else RunError(source.failure.value)
  {
  }

  // ----- the order in which it is told -----

  /** A piece of text, or the result of a call. */
  datatype Item = Says(text: string) | Results(id: string, content: string)

  function ItemOf(w: Wire): seq<Item> {
    match w
    case TextContent(_, delta) => [Says(delta)]
    case CallResult(_, id, content) => [Results(id, content)]
    case _ => []
  }

  /** What the wire says, in its order. */
  function Items(out: seq<Wire>): seq<Item> {
    if out == [] then [] else Items(out[..|out| - 1]) + ItemOf(out[|out| - 1])
  }

  function Answers(answers: seq<Answer>): seq<Item> {
    if answers == [] then [] else [Results(answers[0].id, answers[0].content)] + Answers(answers[1..])
  }

  function HeardOf(e: Said): seq<Item> {
    match e
    case ModelStream(content) => [Says(TextOfChunk(content))]
    case ToolsEnd(answers) => Answers(answers)
    case _ => []
  }

  /** What the framework says, in its order. */
  function Heard(events: seq<Said>): seq<Item> {
    if events == [] then [] else HeardOf(events[0]) + Heard(events[1..])
  }

  /** `a` is `b` with some of it left out. */
  predicate Among(a: seq<Item>, b: seq<Item>) {
    a == [] ||
    (b != [] && ((a[|a| - 1] == b[|b| - 1] && Among(a[..|a| - 1], b[..|b| - 1])) || Among(a, b[..|b| - 1])))
  }

  lemma OneMoreItem(a: seq<Item>, b: seq<Item>, item: Item)
    requires Among(a, b)
    ensures Among(a + [item], b + [item]) && Among(a, b + [item])
  {
    assert (a + [item])[..|a|] == a && (b + [item])[..|b|] == b;
  }

  lemma OneMoreSent(out: seq<Wire>, w: Wire)
    ensures Items(out + [w]) == Items(out) + ItemOf(w)
  {
    assert (out + [w])[..|out|] == out;
  }

  /** Sending something that is no item. */
  lemma NoItemSent(out: seq<Wire>, w: Wire)
    requires ItemOf(w) == []
    ensures Items(out + [w]) == Items(out)
  {
    OneMoreSent(out, w);
  }

  lemma ReportHasNoItems(out: seq<Wire>, w: Waiting)
    ensures Items(out + Reporting(w)) == Items(out)
  {
    var start, args, end := CallStart(w.key, w.name), CallArgs(w.key, w.args), CallEnd(w.key);
    assert out + Reporting(w) == out + [start] + [args] + [end];
    NoItemSent(out, start);
    NoItemSent(out + [start], args);
    NoItemSent(out + [start] + [args], end);
  }

  lemma CloseHasNoItems(r: Run, run: string)
    ensures Items(CloseText(r, run).out) == Items(r.out)
  {
    if r.textOpen { NoItemSent(r.out, TextEnd(MessageId(run, r.index))); }
  }

  lemma StreamSays(r: Run, run: string, text: string)
    ensures Items(Stream(r, run, text).out) == if text == "" then Items(r.out) else Items(r.out) + [Says(text)]
  {
    if text != "" {
      var id := MessageId(run, r.index);
      var start: seq<Wire> := if r.textOpen then [] else [TextStart(id)];
      if r.textOpen { assert r.out + start == r.out; } else { NoItemSent(r.out, TextStart(id)); }
      OneMoreSent(r.out + start, TextContent(id, text));
    }
  }

  lemma AnswerSays(r: Run, a: Answer)
    ensures Items(AnswerOne(r, a).out) == if Has(r.pending, a.id) then Items(r.out) + [Results(a.id, a.content)] else Items(r.out)
  {
    if Has(r.pending, a.id) {
      var w := r.pending[Find(r.pending, a.id)];
      ReportHasNoItems(r.out, w);
      OneMoreSent(r.out + Reporting(w), CallResult(a.id + "-result", a.id, a.content));
    }
  }

  lemma {:induction false} AnswersAreAmong(r: Run, answers: seq<Answer>, heard: seq<Item>)
    requires Among(Items(r.out), heard)
    ensures Among(Items(AnswerAll(r, answers).out), heard + Answers(answers))
    decreases |answers|
  {
    if answers == [] {
      assert heard + [] == heard;
    } else {
      var said := Results(answers[0].id, answers[0].content);
      OneMoreItem(Items(r.out), heard, said);
      AnswerSays(r, answers[0]);
      AnswersAreAmong(AnswerOne(r, answers[0]), answers[1..], heard + [said]);
      Associates(heard, [said], Answers(answers[1..]));
    }
  }

  lemma EventIsAmong(r: Run, run: string, e: Said, heard: seq<Item>)
    requires Among(Items(r.out), heard)
    ensures Among(Items(Read(r, run, e).out), heard + HeardOf(e))
  {
    match e
    case ModelStream(content) =>
      StreamSays(r, run, TextOfChunk(content));
      OneMoreItem(Items(r.out), heard, Says(TextOfChunk(content)));
    case ToolsEnd(answers) =>
      CloseHasNoItems(r, run);
      AnswersAreAmong(CloseText(r, run), answers, heard);
    case ModelEnd(_) => assert heard + [] == heard;
    case Other => assert heard + [] == heard;
  }

  lemma {:induction false} ReadIsAmong(r: Run, run: string, events: seq<Said>, heard: seq<Item>)
    requires Among(Items(r.out), heard)
    ensures Among(Items(ReadAll(r, run, events).out), heard + Heard(events))
    decreases |events|
  {
    if events == [] {
      assert heard + [] == heard;
    } else {
      EventIsAmong(r, run, events[0], heard);
      ReadIsAmong(Read(r, run, events[0]), run, events[1..], heard + HeardOf(events[0]));
      Associates(heard, HeardOf(events[0]), Heard(events[1..]));
    }
  }

  lemma {:induction false} RestHasNoItems(r: Run)
    ensures Items(ReportRest(r).out) == Items(r.out)
    decreases |r.pending|
  {
    if r.pending != [] {
      ReportHasNoItems(r.out, r.pending[0]);
      RestHasNoItems(ReportFirst(r));
    }
  }

  lemma FallbackSays(out: seq<Wire>, r: Run, run: string)
    ensures Items(out + Fallback(r, run)) == if Fallback(r, run) == [] then Items(out) else Items(out) + [Says(FALLBACK)]
  {
    if Fallback(r, run) == [] {
      assert out + [] == out;
    } else {
      var id := MessageId(run, r.index);
      var start, said, end := TextStart(id), TextContent(id, FALLBACK), TextEnd(id);
      assert out + [start, said, end] == out + [start] + [said] + [end];
      NoItemSent(out, start);
      OneMoreSent(out + [start], said);
      NoItemSent(out + [start] + [said], end);
    }
  }

  lemma EndSays(r: Run, run: string, thread: string)
    ensures Items(Finish(r, run, thread)) == Items(r.out) || Items(Finish(r, run, thread)) == Items(r.out) + [Says(FALLBACK)]
  {
    var told := ReportRest(CloseText(r, run));
    CloseHasNoItems(r, run);
    RestHasNoItems(CloseText(r, run));
    FallbackSays(told.out, told, run);
    NoItemSent(told.out + Fallback(told, run), RunFinished(thread, run));
  }

  lemma FailSays(r: Run, run: string, why: string)
    ensures Items(Fail(r, run, why)) == Items(r.out)
  {
    CloseHasNoItems(r, run);
    NoItemSent(CloseText(r, run).out, RunError(why));
  }

  /** Texts and results are told in the order the framework said them, the fallback line after all of them. */
  lemma ToldInOrder(source: Source, run: string, thread: string)
    ensures Among(Items(Translate(source, run, thread)), Heard(source.events) + [Says(FALLBACK)])
  {
    var r, heard := ReadAll(BEGIN, run, source.events), Heard(source.events);
    assert Among(Items(r.out), heard) by {
      ReadIsAmong(BEGIN, run, source.events, []);
      assert [] + heard == heard;
    }
    OneMoreItem(Items(r.out), heard, Says(FALLBACK));
    if source.failure.Some? { FailSays(r, run, source.failure.value); } else { EndSays(r, run, thread); }
  }

  // ----- `streamRun` -----

  method Pend(waiting: seq<Waiting>, calls: seq<Call>) returns (pending: seq<Waiting>)
    ensures pending == Announce(waiting, calls)
  {
    pending := waiting;
    for k := 0 to |calls|
      invariant Announce(waiting, calls) == Announce(pending, calls[k..])
    {
      assert calls[k..][1..] == calls[k + 1..];
      pending := Set(pending, Waiting(Key(calls[k]), calls[k].name, calls[k].args));
    }
  }

  method SendText(before: Run, run: string, text: string) returns (r: Run)
    ensures r == Stream(before, run, text)
  {
    r := before;
    if text == "" { return; }
    var id := MessageId(run, r.index);
    if !r.textOpen { r := r.(out := r.out + [TextStart(id)], textOpen := true); }
    assert before.textOpen ==> before.out + [] == before.out;
    r := r.(out := r.out + [TextContent(id, text)], sentText := true);
  }

  /** The tools node finished: each answer it gave to a call that is pending. */
  method SendAnswers(before: Run, answers: seq<Answer>) returns (r: Run)
    ensures r == AnswerAll(before, answers)
  {
    r := before;
    for k := 0 to |answers|
      invariant AnswerAll(before, answers) == AnswerAll(r, answers[k..])
    {
      assert answers[k..][1..] == answers[k + 1..];
      var a := answers[k];
      if Has(r.pending, a.id) {
        var w := r.pending[Find(r.pending, a.id)];
        r := r.(out := r.out + Reporting(w) + [CallResult(a.id + "-result", a.id, a.content)]);
        r := r.(sentCall := true, pending := Delete(r.pending, a.id));
      }
    }
  }

  /** Calls this process did not run. */
  method SendRest(before: Run) returns (r: Run)
    ensures r == ReportRest(before)
  {
    r := before;
    while r.pending != []
      invariant ReportRest(before) == ReportRest(r)
      decreases |r.pending|
    {
      r := r.(out := r.out + Reporting(r.pending[0]), sentCall := true, pending := r.pending[1..]);
    }
  }

  /** The loop that reads the framework's events and sends as it goes; what it sends is well formed. */
  method StreamRun(source: Source, run: string, thread: string) returns (out: seq<Wire>)
    ensures out == Translate(source, run, thread) && WellFormed(out)
  {
    RunIsWellFormed(source, run, thread);
    var r := BEGIN;
    for i := 0 to |source.events|
      invariant ReadAll(BEGIN, run, source.events) == ReadAll(r, run, source.events[i..])
    {
      assert source.events[i..][1..] == source.events[i + 1..];
      match source.events[i] {
        case ModelStream(content) =>
          var text := ReadChunk(content);
          r := SendText(r, run, text);
        case ModelEnd(calls) =>
          var pending := Pend(r.pending, calls);
          r := r.(pending := pending);
        case ToolsEnd(answers) => r := SendAnswers(CloseText(r, run), answers);
        case Other =>
      }
    }
    r := CloseText(r, run);
    if source.failure.Some? { return r.out + [RunError(source.failure.value)]; }
    r := SendRest(r);
    return r.out + Fallback(r, run) + [RunFinished(thread, run)];
  }
}
