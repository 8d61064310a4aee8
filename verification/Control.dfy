/** Who has the wheel of a computer, and how long what the Bot asks of a person stays asked. */
module Control {
  import opened Text

  /** Moments, in milliseconds. */
  type Time = int

  /** The sentence for nothing said, or what was said as the code units kept of it: a cut may fall inside a character. */
  datatype Words = Sentence(text: string) | Cut(units: seq<int>)

  const HELP_REQUEST_TTL: Time := 10 * 60 * 1000
  const SECRET_REQUEST_TTL: Time := HELP_REQUEST_TTL

  datatype Holder = Bot | Human

  /** The published state, with the moment a secret was asked for, which the source keeps beside it. */
  datatype State = State(
    holder: Holder,
    since: Time,
    reason: Option<Words>,
    requested: bool,
    requestedAt: Option<Time>,
    secretWanted: Option<Words>,
    secretRef: Option<string>,
    secretSnapshot: Option<int>,
    secretRequestedAt: Option<Time>)

  datatype Pending = Pending(ref: string, snapshot: Option<int>)

  /** What happens to the wheel, with the readings of the clock it takes; `Passes` is only time going by. */
  datatype Event =
    | Passes(at: Time)
    | Get(help: Time, secret: Time)
    | RequestHelp(said: Option<string>, at: Time, help: Time, secret: Time)
    | RequestSecret(named: Option<string>, ref: Option<string>, snapshot: Option<int>, at: Time, help: Time, secret: Time)
    | PendingSecret(secret: Time)
    | SecretSupplied
    | Take(at: Time)
    | Release(at: Time)

  function Start(at: Time): State {
    State(Bot, at, None, false, None, None, None, None, None)
  }

  // ----- the machine that expires on read -----

  /** The ask is dropped once older than its time, but never while a person holds the wheel. */
  function LapseHelp(m: State, t: Time): State {
    if m.requested && m.holder == Bot && m.requestedAt.Some? && t - m.requestedAt.value > HELP_REQUEST_TTL
    then m.(requested := false, reason := None, requestedAt := None)
    else m
  }

  function NoSecret(m: State): State {
    m.(secretRequestedAt := None, secretWanted := None, secretRef := None, secretSnapshot := None)
  }

  /** `dropStaleSecret` */
  function LapseSecret(m: State, t: Time): State {
    if m.secretWanted.Some? && m.secretRequestedAt.Some? && t - m.secretRequestedAt.value > SECRET_REQUEST_TTL then NoSecret(m)
    else m
  }

  /** What was said, trimmed and cut at 500 code units, or else the sentence for nothing said. */
  function Worded(said: Option<string>, otherwise: string): (words: Words)
    ensures words.Sentence? <==> said.None? || Trim(said.value) == ""
    ensures words.Sentence? ==> words.text == otherwise
    ensures words.Cut? ==> words.units != [] && words.units <= Encoded(Trim(said.value))
    ensures words.Cut? ==> |words.units| == if |Encoded(Trim(said.value))| > 500 then 500 else |Encoded(Trim(said.value))|
  {
    if said.None? || Trim(said.value) == "" then Sentence(otherwise)
    else
      var units := Encoded(Trim(said.value));
      Cut(if |units| > 500 then units[..500] else units)
  }

  const HELP_WANTED := "The assistant needs a person to continue."
  const VALUE_WANTED := "the value this page is asking for"

  /** A request for a secret must name its field. */
  predicate NamesField(ref: Option<string>) {
    ref.Some? && Trim(ref.value) != ""
  }

  /** What an event itself does, once whatever is stale is out of the way. */
  function Act(m: State, e: Event): State {
    match e
    case RequestHelp(said, at, _, _) => m.(requested := true, requestedAt := Some(at), reason := Some(Worded(said, HELP_WANTED)))
    case RequestSecret(named, ref, snapshot, at, _, _) =>
      if !NamesField(ref) then m
      else m.(secretRequestedAt := Some(at), secretWanted := Some(Worded(named, VALUE_WANTED)),
              secretRef := Some(Trim(ref.value)), secretSnapshot := snapshot)
    case SecretSupplied => NoSecret(m)
    case Take(at) => State(Human, at, m.reason, false, None, None, None, None, None)
    case Release(at) => State(Bot, at, None, false, None, None, None, None, None)
    case _ => m
  }

  /** An event that answers with the state, as `get` does. */
  predicate Answers(e: Event) {
    e.Get? || e.RequestHelp? || (e.RequestSecret? && NamesField(e.ref))
  }

  function Step(m: State, e: Event): State {
    if Answers(e) then LapseSecret(LapseHelp(Act(m, e), e.help), e.secret)
    else if e.PendingSecret? then LapseSecret(m, e.secret)
    else Act(m, e)
  }

  function Awaited(m: State): Option<Pending> {
    if m.secretWanted.Some? && m.secretRef.Some? then Some(Pending(m.secretRef.value, m.secretSnapshot)) else None
  }

  function After(m: State, run: seq<Event>): State
    decreases |run|
  {
    if run == [] then m else Step(After(m, run[..|run| - 1]), run[|run| - 1])
  }

  // ----- the machine that drops a request the instant its time is up -----

  function Tick(m: State, t: Time): State {
    LapseSecret(LapseHelp(m, t), t)
  }

  /** The same events on a machine brought up to date at every reading of the clock, and whenever time passes. */
  function EagerStep(m: State, e: Event): State {
    match e
    case Passes(at) => Tick(m, at)
    case PendingSecret(secret) => Tick(m, secret)
    case SecretSupplied => Act(m, e)
    case Take(at) => Act(Tick(m, at), e)
    case Release(at) => Act(Tick(m, at), e)
    case Get(help, secret) => Tick(Tick(m, help), secret)
    case RequestHelp(_, at, help, secret) => Tick(Tick(Act(Tick(m, at), e), help), secret)
    case RequestSecret(_, ref, _, at, help, secret) =>
      if NamesField(ref) then Tick(Tick(Act(Tick(m, at), e), help), secret) else m
  }

  function EagerAfter(m: State, run: seq<Event>): State
    decreases |run|
  {
    if run == [] then m else EagerStep(EagerAfter(m, run[..|run| - 1]), run[|run| - 1])
  }

  // ----- what can be seen -----

  /** What a reader of the state acts on: all of it but the words of the ask and the moment of it. */
  datatype Seen = Seen(holder: Holder, since: Time, requested: bool, wanted: Option<Words>, ref: Option<string>, snapshot: Option<int>)

  function View(m: State): Seen {
    Seen(m.holder, m.since, m.requested, m.secretWanted, m.secretRef, m.secretSnapshot)
  }

  /** The eager machine as an answer reads it: the ask as it stands at one reading, the secret at the next. */
  function EagerView(m: State, e: Event): Seen
    requires Answers(e)
  {
    var now := if e.Get? then m else Act(Tick(m, e.at), e);
    var asked, secret := Tick(now, e.help), Tick(Tick(now, e.help), e.secret);
    Seen(now.holder, now.since, asked.requested, secret.secretWanted, secret.secretRef, secret.secretSnapshot)
  }

  // ----- a clock that does not run backwards -----

  function First(e: Event, before: Time): Time {
    match e
    case Passes(at) => at
    case Get(help, _) => help
    case RequestHelp(_, at, _, _) => at
    case RequestSecret(_, ref, _, at, _, _) => if NamesField(ref) then at else before
    case PendingSecret(secret) => secret
    case SecretSupplied => before
    case Take(at) => at
    case Release(at) => at
  }

  function Last(e: Event, before: Time): Time {
    if Answers(e) then e.secret else First(e, before)
  }

  predicate InOrder(e: Event, before: Time) {
    && before <= First(e, before)
    && (Answers(e) ==> First(e, before) <= e.help <= e.secret)
  }

  /** The last reading of the clock. */
  function Now(start: Time, run: seq<Event>): Time
    decreases |run|
  {
    if run == [] then start else Last(run[|run| - 1], Now(start, run[..|run| - 1]))
  }

  predicate Timely(start: Time, run: seq<Event>)
    decreases |run|
  {
    run == [] || (Timely(start, run[..|run| - 1]) && InOrder(run[|run| - 1], Now(start, run[..|run| - 1])))
  }

  // ----- the two machines agree -----

  predicate Sound(m: State) {
    && (m.requested ==> m.requestedAt.Some?)
    && (m.secretWanted.Some? <==> m.secretRef.Some?) && (m.secretWanted.Some? <==> m.secretRequestedAt.Some?)
    && (m.secretWanted.None? ==> m.secretSnapshot.None?)
  }

  /** Equal but for the words of the ask. */
  predicate Alike(a: State, b: State) {
    a.(reason := None) == b.(reason := None)
  }

  lemma LapsesOnce(m: State, t: Time, u: Time)
    requires t <= u
    ensures LapseHelp(LapseHelp(m, t), u) == LapseHelp(m, u) && LapseSecret(LapseSecret(m, t), u) == LapseSecret(m, u)
    ensures LapseHelp(LapseSecret(m, t), u) == LapseSecret(LapseHelp(m, u), t)
    ensures Tick(Tick(m, t), u) == Tick(m, u)
  {
  }

  lemma LapseAlike(a: State, b: State, t: Time)
    requires Alike(a, b)
    ensures Alike(LapseHelp(a, t), LapseHelp(b, t)) && Alike(LapseSecret(a, t), LapseSecret(b, t)) && Alike(Tick(a, t), Tick(b, t))
  {
  }

  lemma ActAlike(a: State, b: State, e: Event)
    requires Alike(a, b)
    ensures Alike(Act(a, e), Act(b, e))
  {
  }

  /** Acting and only then dropping what is stale is dropping it first. */
  lemma ActCommutes(m: State, e: Event, t: Time)
    requires Sound(m) && First(e, t) == t && !e.Passes? && !e.Get? && !e.PendingSecret?
    ensures Alike(Tick(Act(m, e), t), Tick(Act(Tick(m, t), e), t)) && Sound(Act(m, e))
    ensures !e.SecretSupplied? ==> Alike(Tick(Act(Tick(m, t), e), t), Act(Tick(m, t), e))
  {
  }

  lemma AnswerAgrees(lazy: State, eager: State, before: Time, help: Time, secret: Time)
    requires before <= help <= secret && Alike(Tick(lazy, before), eager) && Sound(lazy)
    ensures var answered := LapseSecret(LapseHelp(lazy, help), secret);
      var asked, wanted := Tick(eager, help), Tick(Tick(eager, help), secret);
      && Alike(Tick(answered, secret), wanted) && Sound(answered)
      && View(answered) == Seen(eager.holder, eager.since, asked.requested, wanted.secretWanted, wanted.secretRef, wanted.secretSnapshot)
  {
    LapsesOnce(lazy, before, help);
    LapsesOnce(lazy, before, secret);
    LapseAlike(Tick(lazy, before), eager, help);
    LapseAlike(Tick(Tick(lazy, before), help), Tick(eager, help), secret);
  }

  /** One step: a lazy machine that is the eager one once brought up to date stays so, and answers the same. */
  lemma StepAgrees(lazy: State, eager: State, before: Time, e: Event)
    requires InOrder(e, before) && Alike(Tick(lazy, before), eager) && Sound(lazy)
    ensures Alike(Tick(Step(lazy, e), Last(e, before)), EagerStep(eager, e)) && Sound(Step(lazy, e))
    ensures Answers(e) ==> View(Step(lazy, e)) == EagerView(eager, e)
    ensures e.PendingSecret? ==> Awaited(Step(lazy, e)) == Awaited(EagerStep(eager, e))
  {
    var t := First(e, before);
    LapsesOnce(lazy, before, t);
    LapseAlike(Tick(lazy, before), eager, t);
    assert Alike(Tick(lazy, t), Tick(eager, t));
    if e.Get? {
      AnswerAgrees(lazy, eager, before, e.help, e.secret);
    } else if Answers(e) {
      ActCommutes(lazy, e, t);
      ActAlike(Tick(lazy, t), Tick(eager, t), e);
      AnswerAgrees(Act(lazy, e), Act(Tick(eager, t), e), t, e.help, e.secret);
    } else if e.Take? || e.Release? {
      ActCommutes(lazy, e, t);
      ActAlike(Tick(lazy, t), Tick(eager, t), e);
    }
  }

  /** Over every run, dropping requests when they are next looked at cannot be told from dropping them on time. */
  lemma {:induction false} LazyIsEager(start: Time, run: seq<Event>)
    requires Timely(start, run)
    ensures Alike(Tick(After(Start(start), run), Now(start, run)), EagerAfter(Start(start), run)) && Sound(After(Start(start), run))
    ensures run != [] ==>
      var e, before := run[|run| - 1], run[..|run| - 1];
      && (Answers(e) ==> View(After(Start(start), run)) == EagerView(EagerAfter(Start(start), before), e))
      && (e.PendingSecret? ==> Awaited(After(Start(start), run)) == Awaited(EagerAfter(Start(start), run)))
    decreases |run|
  {
    if run != [] {
      var before := run[..|run| - 1];
      LazyIsEager(start, before);
      StepAgrees(After(Start(start), before), EagerAfter(Start(start), before), Now(start, before), run[|run| - 1]);
    }
  }

  /** A prompt is shown at a moment exactly when a value typed then is taken, and for the same field. */
  lemma ShownWhenAnswerable(start: Time, run: seq<Event>, help: Time, secret: Time)
    requires Timely(start, run)
    ensures var m := After(Start(start), run);
      var shown := Step(m, Get(help, secret));
      && (shown.secretWanted.Some? <==> Awaited(Step(m, PendingSecret(secret))).Some?)
      && (shown.secretWanted.Some? ==>
            Awaited(Step(m, PendingSecret(secret))) == Some(Pending(shown.secretRef.value, shown.secretSnapshot)))
  {
    LazyIsEager(start, run);
  }

  // ----- how long a request lasts -----

  /** An ask made at a moment still stands, or its time was up at some reading. */
  predicate HelpStands(m: State, words: Words, at: Time, now: Time) {
    && m.holder == Bot
    && if m.requested then m.requestedAt == Some(at) && m.reason == Some(words) else now - at > HELP_REQUEST_TTL
  }

  predicate SecretStands(m: State, asked: Pending, at: Time, now: Time) {
    if m.secretWanted.Some? then Awaited(m) == Some(asked) && m.secretRequestedAt == Some(at)
    else now - at > SECRET_REQUEST_TTL
  }

  predicate LeavesHelp(e: Event) {
    !e.RequestHelp? && !e.Take? && !e.Release?
  }

  predicate LeavesSecret(e: Event) {
    !(e.RequestSecret? && NamesField(e.ref)) && !e.SecretSupplied? && !e.Take? && !e.Release?
  }

  lemma {:induction false} HelpGoesOnStanding(m: State, start: Time, run: seq<Event>, words: Words, at: Time)
    requires Timely(start, run) && HelpStands(m, words, at, start) && forall e | e in run :: LeavesHelp(e)
    ensures HelpStands(After(m, run), words, at, Now(start, run)) && start <= Now(start, run)
    decreases |run|
  {
    if run != [] {
      assert run[|run| - 1] in run && forall e | e in run[..|run| - 1] :: e in run;
      HelpGoesOnStanding(m, start, run[..|run| - 1], words, at);
    }
  }

  lemma {:induction false} SecretGoesOnStanding(m: State, start: Time, run: seq<Event>, asked: Pending, at: Time)
    requires Timely(start, run) && SecretStands(m, asked, at, start) && forall e | e in run :: LeavesSecret(e)
    ensures SecretStands(After(m, run), asked, at, Now(start, run)) && start <= Now(start, run)
    decreases |run|
  {
    if run != [] {
      assert run[|run| - 1] in run && forall e | e in run[..|run| - 1] :: e in run;
      SecretGoesOnStanding(m, start, run[..|run| - 1], asked, at);
    }
  }

  /** An ask made while the Bot drives shows, in its own words, exactly until its time is up, whoever looks in between. */
  lemma HelpLastsItsTime(m: State, ask: Event, run: seq<Event>, look: Event)
    requires ask.RequestHelp? && look.Get? && m.holder == Bot && InOrder(ask, ask.at)
    requires Timely(ask.secret, run) && InOrder(look, Now(ask.secret, run)) && forall e | e in run :: LeavesHelp(e)
    ensures var shown := Step(After(Step(m, ask), run), look);
      && (shown.requested <==> look.help - ask.at <= 600_000)
      && (shown.requested ==> shown.reason == Some(Worded(ask.said, HELP_WANTED)))
  {
    HelpGoesOnStanding(Step(m, ask), ask.secret, run, Worded(ask.said, HELP_WANTED), ask.at);
  }

  /** A value is taken for a secret exactly until its time is up, and only for the field that was named. */
  lemma SecretLastsItsTime(m: State, ask: Event, run: seq<Event>, typed: Time)
    requires ask.RequestSecret? && NamesField(ask.ref) && InOrder(ask, ask.at)
    requires Timely(ask.secret, run) && Now(ask.secret, run) <= typed && forall e | e in run :: LeavesSecret(e)
    ensures Awaited(Step(After(Step(m, ask), run), PendingSecret(typed))) ==
      if typed - ask.at <= 600_000 then Some(Pending(Trim(ask.ref.value), ask.snapshot)) else None
  {
    SecretGoesOnStanding(Step(m, ask), ask.secret, run, Pending(Trim(ask.ref.value), ask.snapshot), ask.at);
  }

  /** The prompt for a secret is there, in its own words, just as long as a value would be taken. */
  lemma SecretShowsItsLabel(m: State, ask: Event, run: seq<Event>, look: Event)
    requires ask.RequestSecret? && NamesField(ask.ref) && look.Get? && InOrder(ask, ask.at)
    requires Timely(ask.secret, run) && InOrder(look, Now(ask.secret, run)) && forall e | e in run :: LeavesSecret(e)
    ensures Step(After(Step(m, ask), run), look).secretWanted ==
      if look.secret - ask.at <= 600_000 then Some(Worded(ask.named, VALUE_WANTED)) else None
  {
    LabelGoesOnStanding(Step(m, ask), ask.secret, run, Worded(ask.named, VALUE_WANTED), ask.at);
  }

  predicate LabelStands(m: State, shown: Words, at: Time, now: Time) {
    if m.secretWanted.Some? then m.secretWanted == Some(shown) && m.secretRequestedAt == Some(at)
    else now - at > SECRET_REQUEST_TTL
  }

  lemma {:induction false} LabelGoesOnStanding(m: State, start: Time, run: seq<Event>, shown: Words, at: Time)
    requires Timely(start, run) && LabelStands(m, shown, at, start) && forall e | e in run :: LeavesSecret(e)
    ensures LabelStands(After(m, run), shown, at, Now(start, run)) && start <= Now(start, run)
    decreases |run|
  {
    if run != [] {
      assert run[|run| - 1] in run && forall e | e in run[..|run| - 1] :: e in run;
      LabelGoesOnStanding(m, start, run[..|run| - 1], shown, at);
    }
  }

  predicate NoSecretAsked(m: State) {
    m.secretWanted.None? && m.secretRef.None? && m.secretSnapshot.None? && m.secretRequestedAt.None?
  }

  predicate NothingAsked(m: State) {
    NoSecretAsked(m) && !m.requested && m.requestedAt.None?
  }

  predicate AsksForASecret(e: Event) {
    e.RequestSecret? && NamesField(e.ref)
  }

  /** Nothing is asked until somebody asks. */
  lemma {:induction false} UnaskedStays(m: State, run: seq<Event>)
    requires forall e | e in run :: !AsksForASecret(e)
    ensures NoSecretAsked(m) ==> NoSecretAsked(After(m, run))
    ensures NothingAsked(m) && (forall e | e in run :: !e.RequestHelp?) ==> NothingAsked(After(m, run))
    decreases |run|
  {
    if run != [] {
      assert run[|run| - 1] in run && forall e | e in run[..|run| - 1] :: e in run;
      UnaskedStays(m, run[..|run| - 1]);
    }
  }

  /** A secret that was supplied is no longer asked for: until another is, no prompt shows and no value is taken. */
  lemma SuppliedEndsTheRequest(m: State, run: seq<Event>, look: Event, typed: Time)
    requires look.Get? && forall e | e in run :: !AsksForASecret(e)
    ensures var now := After(Step(m, SecretSupplied), run);
      Step(now, look).secretWanted == None && Awaited(Step(now, PendingSecret(typed))) == None
  {
    UnaskedStays(Step(m, SecretSupplied), run);
  }

  /** Taking the wheel, or giving it back, ends whatever was asked; giving it back forgets what for as well. */
  lemma HandoverEndsRequests(m: State, handover: Event, run: seq<Event>, look: Event)
    requires (handover.Take? || handover.Release?) && look.Get?
    requires forall e | e in run :: !AsksForASecret(e) && !e.RequestHelp?
    ensures NothingAsked(After(Step(m, handover), run)) && NothingAsked(Step(After(Step(m, handover), run), look))
    ensures Step(m, handover).reason == if handover.Take? then m.reason else None
  {
    UnaskedStays(Step(m, handover), run);
  }

  /** Whoever took the wheel last, or was given it back, until somebody takes it again. */
  function LastDriver(run: seq<Event>): Holder {
    if run == [] then Bot
    else if run[|run| - 1].Take? then Human
    else if run[|run| - 1].Release? then Bot
    else LastDriver(run[..|run| - 1])
  }

  /** When that was; at first, when the computer started. */
  function LastHandover(start: Time, run: seq<Event>): Time {
    if run == [] then start
    else if run[|run| - 1].Take? || run[|run| - 1].Release? then run[|run| - 1].at
    else LastHandover(start, run[..|run| - 1])
  }

  /** Only taking and releasing change the driver, and since when: no expiry takes the wheel from a person. */
  lemma {:induction false} OnlyTakeAndReleaseDrive(start: Time, run: seq<Event>)
    ensures After(Start(start), run).holder == LastDriver(run) && After(Start(start), run).since == LastHandover(start, run)
    decreases |run|
  {
    if run != [] { OnlyTakeAndReleaseDrive(start, run[..|run| - 1]); }
  }

  // ----- the object itself -----

  datatype ControlError = HumanHasControl | SayWhichField

  lemma OneMoreEvent(m: State, run: seq<Event>, e: Event)
    ensures After(m, run + [e]) == Step(After(m, run), e)
  {
    assert (run + [e])[..|run|] == run;
  }

  class Wheel {
    ghost const start: Time
    /** Everything done with the wheel so far. */
    ghost var run: seq<Event>
    var state: State

    ghost predicate Valid()
      reads this
    {
      state == After(Start(start), run)
    }

    /** The clock reads `at` when the computer starts. */
    constructor (at: Time)
      ensures Valid() && run == [] && start == at
    {
      start, run, state := at, [], Start(at);
    }

    method DropStaleSecret(now: Time)
      modifies this`state
      ensures state == LapseSecret(old(state), now)
    {
      if state.secretWanted.None? || state.secretRequestedAt.None? { return; }
      if now - state.secretRequestedAt.value <= SECRET_REQUEST_TTL { return; }
      state := state.(secretRequestedAt := None);
      state := state.(secretWanted := None, secretRef := None, secretSnapshot := None);
    }

    /** The body of `get`, which the other methods answer with too. */
    method Answer(help: Time, secret: Time) returns (answer: State)
      modifies this`state
      ensures state == LapseSecret(LapseHelp(old(state), help), secret) && answer == state
    {
      if state.requested && state.holder == Bot && state.requestedAt.Some? && help - state.requestedAt.value > HELP_REQUEST_TTL {
        state := state.(reason := None, requestedAt := None, requested := false);
      }
      DropStaleSecret(secret);
      answer := state;
    }

    method Get(help: Time, secret: Time) returns (answer: State)
      requires Valid()
      modifies this
      ensures Valid() && run == old(run) + [Event.Get(help, secret)]
      ensures state == Step(old(state), Event.Get(help, secret)) && answer == state
    {
      OneMoreEvent(Start(start), run, Event.Get(help, secret));
      run := run + [Event.Get(help, secret)];
      answer := Answer(help, secret);
    }

    method RequestHelp(said: Option<string>, at: Time, help: Time, secret: Time) returns (answer: State)
      requires Valid()
      modifies this
      ensures Valid() && run == old(run) + [Event.RequestHelp(said, at, help, secret)]
      ensures state == Step(old(state), Event.RequestHelp(said, at, help, secret)) && answer == state
    {
      OneMoreEvent(Start(start), run, Event.RequestHelp(said, at, help, secret));
      run := run + [Event.RequestHelp(said, at, help, secret)];
      state := state.(requested := true, requestedAt := Some(at), reason := Some(Worded(said, HELP_WANTED)));
      answer := Answer(help, secret);
    }

    method RequestSecret(named: Option<string>, ref: Option<string>, snapshot: Option<int>, at: Time, help: Time, secret: Time)
      returns (answer: Result<State, ControlError>)
      requires Valid()
      modifies this
      ensures Valid() && run == old(run) + [Event.RequestSecret(named, ref, snapshot, at, help, secret)]
      ensures state == Step(old(state), Event.RequestSecret(named, ref, snapshot, at, help, secret))
      ensures answer == if NamesField(ref) then Ok(state) else Refused(SayWhichField)
      ensures answer.Refused? ==> state == old(state)
    {
      OneMoreEvent(Start(start), run, Event.RequestSecret(named, ref, snapshot, at, help, secret));
      run := run + [Event.RequestSecret(named, ref, snapshot, at, help, secret)];
      if ref.None? || Trim(ref.value) == "" { return Refused(SayWhichField); }
      state := state.(secretRequestedAt := Some(at));
      state := state.(secretWanted := Some(Worded(named, VALUE_WANTED)), secretRef := Some(Trim(ref.value)), secretSnapshot := snapshot);
      var got := Answer(help, secret);
      answer := Ok(got);
    }

    method PendingSecret(now: Time) returns (pending: Option<Pending>)
      requires Valid()
      modifies this
      ensures Valid() && run == old(run) + [Event.PendingSecret(now)]
      ensures state == Step(old(state), Event.PendingSecret(now)) && pending == Awaited(state)
    {
      OneMoreEvent(Start(start), run, Event.PendingSecret(now));
      run := run + [Event.PendingSecret(now)];
      DropStaleSecret(now);
      if state.secretWanted.None? || state.secretRef.None? { return None; }
      pending := Some(Pending(state.secretRef.value, state.secretSnapshot));
    }

    method SecretSupplied()
      requires Valid()
      modifies this
      ensures Valid() && run == old(run) + [Event.SecretSupplied]
      ensures state == Step(old(state), Event.SecretSupplied)
    {
      OneMoreEvent(Start(start), run, Event.SecretSupplied);
      run := run + [Event.SecretSupplied];
      state := state.(secretRequestedAt := None);
      state := state.(secretWanted := None, secretRef := None, secretSnapshot := None);
    }

    /** A person has just taken the wheel: nothing is asked any more, so reading it back drops nothing. */
    method Take(at: Time, help: Time, secret: Time) returns (answer: State)
      requires Valid()
      modifies this
      ensures Valid() && run == old(run) + [Event.Take(at)]
      ensures state == Step(old(state), Event.Take(at)) && answer == state
    {
      OneMoreEvent(Start(start), run, Event.Take(at));
      run := run + [Event.Take(at)];
      state := state.(secretRequestedAt := None);
      state := State(Human, at, state.reason, false, None, None, None, None, state.secretRequestedAt);
      answer := Answer(help, secret);
    }

    method Release(at: Time, help: Time, secret: Time) returns (answer: State)
      requires Valid()
      modifies this
      ensures Valid() && run == old(run) + [Event.Release(at)]
      ensures state == Step(old(state), Event.Release(at)) && answer == state
    {
      OneMoreEvent(Start(start), run, Event.Release(at));
      run := run + [Event.Release(at)];
      state := state.(secretRequestedAt := None);
      state := State(Bot, at, None, false, None, None, None, None, state.secretRequestedAt);
      answer := Answer(help, secret);
    }

    /** The Bot is refused exactly when, of everybody who took the wheel or gave it back, a person taking it was the last. */
    method AssertBotMayAct() returns (refusal: Option<ControlError>)
      requires Valid()
      ensures refusal == if LastDriver(run) == Human then Some(HumanHasControl) else None
    {
      OnlyTakeAndReleaseDrive(start, run);
      refusal := if state.holder == Human then Some(HumanHasControl) else None;
    }

    /** A person's input is applied exactly while the Bot's is refused. */
    method HumanMayDrive() returns (may: bool)
      requires Valid()
      ensures may <==> LastDriver(run) == Human
    {
      OnlyTakeAndReleaseDrive(start, run);
      may := state.holder == Human;
    }
  }
}
