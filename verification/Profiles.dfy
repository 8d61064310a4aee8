/**
 * The Bots' browsers: launches, cap evictions, idle sweeps, stops and resets, interleaved.
 *
 * One event is the code between two awaits. A pending promise is a place in a sequence: `sections` for
 * the promises `closing` holds, `launches` for those `starting` holds, `calls` for `page` calls that wait.
 */
module Profiles {
  import opened Text
  import opened Eviction

  /** One run of `whileClosing`. `before` is the promise it chains on; `context` the browser it closes. */
  datatype Section = Section(bot: Bot, before: Option<nat>, context: Option<nat>, finished: bool, settled: bool)

  /** A launch: opening its browser, inside `enforceCap`, answered, or answered and no longer held. */
  datatype Phase = Opening | Capping(rest: seq<Bot>, waitsFor: Option<nat>) | Answered | Forgotten

  /** `arrived` is how many sections had been registered when the `page` call behind it came in. */
  datatype Launch = Launch(bot: Bot, arrived: nat, phase: Phase)

  datatype Call = AtGate(bot: Bot, section: nat, arrived: nat) | Replacing(bot: Bot, context: nat, arrived: nat) | Past

  datatype State = State(
    cap: nat,
    live: seq<Browser>,
    starting: map<Bot, nat>,
    closing: map<Bot, nat>,
    sections: seq<Section>,
    launches: seq<Launch>,
    calls: seq<Call>,
    clock: int,
    browsers: multiset<nat>,
    dropped: multiset<nat>)

  datatype Event =
    | Ask(bot: Bot, now: int, healthy: bool)      // a `page` call comes in
    | Admit(call: nat, now: int, healthy: bool)   // the promise it waited on at the gate resolved
    | Replace(call: nat)                          // the half-dead browser it found has closed
    | Open(launch: nat, context: nat, now: int)   // Chromium is up
    | FailOpen(launch: nat)                       // Chromium is not coming up
    | Strand(launch: nat, context: nat)           // it is up, but has no page and gives none
    | Cap(launch: nat)                            // the next turn of a launch's `enforceCap`
    | Forget(launch: nat)                         // the launch is over: `starting` is cleared
    | Evict(bot: Bot)                             // a stop, a reset or the idle sweep closes a browser
    | Guard(bot: Bot)                             // a reset begins
    | Finish(section: nat)                        // what `whileClosing` ran is done
    | Settle(section: nat)                        // the promise it registered resolves
    | Release(section: nat)                       // and its callback runs
    | CloseAll                                    // shutdown

  // ----- the `live` map -----

  function Place(live: seq<Browser>, bot: Bot): (i: nat)
    ensures i <= |live| && (i < |live| ==> live[i].bot == bot)
    ensures forall j | 0 <= j < i :: live[j].bot != bot
  {
    FirstWhere(live, (b: Browser) => b.bot == bot)
  }

  predicate Has(live: seq<Browser>, bot: Bot) {
    Place(live, bot) < |live|
  }

  /** `live.set`: in place when the key is there, last when it is new. */
  function Put(live: seq<Browser>, browser: Browser): seq<Browser> {
    if Has(live, browser.bot) then live[Place(live, browser.bot) := browser] else live + [browser]
  }

  /** `live.delete` */
  function Without(live: seq<Browser>, bot: Bot): seq<Browser> {
    if Has(live, bot) then live[..Place(live, bot)] + live[Place(live, bot) + 1..] else live
  }

  function Ids(live: seq<Browser>): seq<nat> {
    seq(|live|, i requires 0 <= i < |live| => live[i].context)
  }

  function Contexts(live: seq<Browser>): multiset<nat> {
    multiset(Ids(live))
  }

  // ----- one step -----

  function Init(cap: nat, clock: int): State {
    State(cap, [], map[], map[], [], [], [], clock, multiset{}, multiset{})
  }

  /** `whileClosing`, up to its first await. */
  function OpenSection(s: State, bot: Bot, context: Option<nat>): State {
    var before := if bot in s.closing then Some(s.closing[bot]) else None;
    s.(sections := s.sections + [Section(bot, before, context, false, false)], closing := s.closing[bot := |s.sections|])
  }

  /** `evict`, up to its first await. */
  function EvictNow(s: State, bot: Bot): State {
    if !Has(s.live, bot) then s
    else OpenSection(s.(live := Without(s.live, bot)), bot, Some(s.live[Place(s.live, bot)].context))
  }

  function Launching(s: State, bot: Bot, arrived: nat): State {
    s.(launches := s.launches + [Launch(bot, arrived, Opening)], starting := s.starting[bot := |s.launches|])
  }

  /** `page`, once nothing it has to wait for is closing. */
  function PastGate(s: State, bot: Bot, arrived: nat, now: int, healthy: bool): State {
    if bot in s.starting then s
    else if !Has(s.live, bot) then Launching(s, bot, arrived)
    else
      var i := Place(s.live, bot);
      if healthy then s.(live := s.live[i := s.live[i].(usedAt := now)], clock := now)
      else s.(calls := s.calls + [Replacing(bot, s.live[i].context, arrived)])
  }

  function InPhase(s: State, launch: nat, phase: Phase): State
    requires launch < |s.launches|
  {
    s.(launches := s.launches[launch := s.launches[launch].(phase := phase)])
  }

  /** One turn of `for (const botId of chooseEvictions(...)) await evict(botId)`. */
  function CapTurn(s: State, launch: nat, rest: seq<Bot>): State
    requires launch < |s.launches|
  {
    if rest == [] then InPhase(s, launch, Answered)
    else InPhase(EvictNow(s, rest[0]), launch, Capping(rest[1..], if Has(s.live, rest[0]) then Some(|s.sections|) else None))
  }

  /** The browser is in the map before the cap is counted. */
  function Arrive(s: State, launch: nat, context: nat, now: int): State
    requires launch < |s.launches|
  {
    s.(live := Put(s.live, Browser(s.launches[launch].bot, context, now)), browsers := s.browsers + multiset{context}, clock := now)
  }

  predicate Enabled(s: State, e: Event) {
    match e
    case Admit(call, _, _) =>
      && call < |s.calls| && s.calls[call].AtGate?
      && s.calls[call].section < |s.sections| && s.sections[s.calls[call].section].settled
    case Replace(call) => call < |s.calls| && s.calls[call].Replacing?
    case Open(launch, context, _) => launch < |s.launches| && s.launches[launch].phase.Opening? && context !in s.browsers
    case FailOpen(launch) => launch < |s.launches| && s.launches[launch].phase.Opening?
    case Strand(launch, context) => launch < |s.launches| && s.launches[launch].phase.Opening? && context !in s.browsers
    case Cap(launch) =>
      && launch < |s.launches| && s.launches[launch].phase.Capping?
      && var w := s.launches[launch].phase.waitsFor; w.Some? ==> w.value < |s.sections| && s.sections[w.value].finished
    case Forget(launch) => launch < |s.launches| && s.launches[launch].phase.Answered?
    case Finish(section) => section < |s.sections| && !s.sections[section].finished
    case Settle(section) =>
      && section < |s.sections| && s.sections[section].finished && !s.sections[section].settled
      && var b := s.sections[section].before; b.Some? ==> b.value < |s.sections| && s.sections[b.value].settled
    case Release(section) => section < |s.sections| && s.sections[section].settled
    case _ => true
  }

  function Step(s: State, e: Event): State
    requires Enabled(s, e)
  {
    match e
    case Ask(bot, now, healthy) =>
      if bot in s.closing then s.(calls := s.calls + [AtGate(bot, s.closing[bot], |s.sections|)])
      else PastGate(s, bot, |s.sections|, now, healthy)
    case Admit(call, now, healthy) =>
      PastGate(s.(calls := s.calls[call := Past]), s.calls[call].bot, s.calls[call].arrived, now, healthy)
    case Replace(call) =>
      var c := s.calls[call];
      Launching(s.(calls := s.calls[call := Past], live := Without(s.live, c.bot),
                dropped := s.dropped + multiset{c.context}), c.bot, c.arrived)
    case Open(launch, context, now) =>
      var up := Arrive(s, launch, context, now);
      CapTurn(up, launch, ChooseEvictions(up.live, s.cap))
    case FailOpen(launch) => InPhase(s, launch, Answered)
    case Strand(launch, context) => InPhase(s.(browsers := s.browsers + multiset{context}), launch, Answered)
    case Cap(launch) => CapTurn(s, launch, s.launches[launch].phase.rest)
    case Forget(launch) =>
      InPhase(s.(starting := s.starting - {s.launches[launch].bot}), launch, Forgotten)
    case Evict(bot) => EvictNow(s, bot)
    case Guard(bot) => OpenSection(s, bot, None)
    case Finish(section) => s.(sections := s.sections[section := s.sections[section].(finished := true)])
    case Settle(section) => s.(sections := s.sections[section := s.sections[section].(settled := true)])
    case Release(section) =>
      var bot := s.sections[section].bot;
      if bot in s.closing && s.closing[bot] == section then s.(closing := s.closing - {bot}) else s
    case CloseAll => s.(live := [], dropped := s.dropped + Contexts(s.live))
  }

  /** A run: every event could happen when it did. */
  ghost predicate IsRun(s: State, events: seq<Event>)
    decreases |events|
  {
    events != [] ==> Enabled(s, events[0]) && IsRun(Step(s, events[0]), events[1..])
  }

  ghost function After(s: State, events: seq<Event>): State
    requires IsRun(s, events)
    decreases |events|
  {
    if events == [] then s else After(Step(s, events[0]), events[1..])
  }

  // ----- the cap -----

  /** Never more browsers than the cap, and no `enforceCap` with a victim left to close. */
  ghost predicate Capped(s: State) {
    && OneEach(s.live) && |s.live| <= s.cap
    && forall l | 0 <= l < |s.launches| && s.launches[l].phase.Capping? :: s.launches[l].phase.rest == []
  }

  lemma WithoutOne(live: seq<Browser>, bot: Bot)
    requires OneEach(live)
    ensures OneEach(Without(live, bot)) && !Has(Without(live, bot), bot)
    ensures |Without(live, bot)| == if Has(live, bot) then |live| - 1 else |live|
  {
  }

  lemma PutOne(live: seq<Browser>, browser: Browser)
    requires OneEach(live)
    ensures OneEach(Put(live, browser)) && Has(Put(live, browser), browser.bot)
    ensures |Put(live, browser)| == if Has(live, browser.bot) then |live| else |live| + 1
  {
    var i := Place(live, browser.bot);
    assert Put(live, browser)[i] == browser;
  }

  /** One launch puts at most one browser too many into the map. */
  lemma OneTooManyAtMost(s: State, launch: nat, context: nat, now: int)
    requires Capped(s) && launch < |s.launches|
    ensures OneEach(Arrive(s, launch, context, now).live) && |ChooseEvictions(Arrive(s, launch, context, now).live, s.cap)| <= 1
  {
    PutOne(s.live, Browser(s.launches[launch].bot, context, now));
  }

  /** And the turn that finds it closes that one. */
  lemma CapTurnKeepsCap(s: State, launch: nat)
    requires OneEach(s.live) && launch < |s.launches| && |ChooseEvictions(s.live, s.cap)| <= 1
    requires forall l | 0 <= l < |s.launches| && s.launches[l].phase.Capping? :: s.launches[l].phase.rest == []
    ensures Capped(CapTurn(s, launch, ChooseEvictions(s.live, s.cap)))
    ensures var phase := CapTurn(s, launch, ChooseEvictions(s.live, s.cap)).launches[launch].phase;
      phase == Answered || (phase.Capping? && phase.rest == [])
  {
    var victims := ChooseEvictions(s.live, s.cap);
    if victims != [] {
      VictimsAreRunning(s.live, s.cap);
      assert victims[0] in victims;
      WithoutOne(s.live, victims[0]);
    }
  }

  lemma OpenKeepsCap(s: State, launch: nat, context: nat, now: int)
    requires Capped(s) && Enabled(s, Open(launch, context, now))
    ensures Capped(Step(s, Open(launch, context, now)))
    ensures |ChooseEvictions(Arrive(s, launch, context, now).live, s.cap)| <= 1
    ensures var phase := Step(s, Open(launch, context, now)).launches[launch].phase;
      phase == Answered || (phase.Capping? && phase.rest == [])
  {
    OneTooManyAtMost(s, launch, context, now);
    CapTurnKeepsCap(Arrive(s, launch, context, now), launch);
  }

  lemma PastGateKeepsCap(s: State, bot: Bot, arrived: nat, now: int, healthy: bool)
    requires Capped(s)
    ensures Capped(PastGate(s, bot, arrived, now, healthy))
  {
  }

  lemma StepKeepsCap(s: State, e: Event)
    requires Capped(s) && Enabled(s, e)
    ensures Capped(Step(s, e))
  {
    match e
    case Ask(bot, now, healthy) => if bot !in s.closing { PastGateKeepsCap(s, bot, |s.sections|, now, healthy); }
    case Admit(call, now, healthy) =>
      PastGateKeepsCap(s.(calls := s.calls[call := Past]), s.calls[call].bot, s.calls[call].arrived, now, healthy);
    case Open(launch, context, now) => OpenKeepsCap(s, launch, context, now);
    case Replace(call) => WithoutOne(s.live, s.calls[call].bot);
    case Evict(bot) => WithoutOne(s.live, bot);
    case _ =>
  }

  /** However launches, evictions, sweeps, stops and resets interleave, the cap is never exceeded. */
  lemma {:induction false} CapHolds(s: State, events: seq<Event>)
    requires Capped(s) && IsRun(s, events)
    ensures Capped(After(s, events))
    decreases |events|
  {
    if events != [] {
      StepKeepsCap(s, events[0]);
      CapHolds(Step(s, events[0]), events[1..]);
    }
  }

  /** The clock has not been behind what the map remembers. */
  ghost predicate Timely(s: State) {
    forall i | 0 <= i < |s.live| :: s.live[i].usedAt <= s.clock
  }

  /** If the event reads the clock, it reads no earlier time. */
  predicate NotBefore(e: Event, time: int) {
    match e
    case Ask(_, now, _) => time <= now
    case Admit(_, now, _) => time <= now
    case Open(_, _, now) => time <= now
    case _ => true
  }

  predicate OnTime(s: State, e: Event) {
    NotBefore(e, s.clock)
  }

  ghost predicate IsTimelyRun(s: State, events: seq<Event>)
    decreases |events|
  {
    events != [] ==> Enabled(s, events[0]) && OnTime(s, events[0]) && IsTimelyRun(Step(s, events[0]), events[1..])
  }

  lemma WithoutIsTimely(s: State, bot: Bot)
    requires Timely(s)
    ensures Timely(s.(live := Without(s.live, bot)))
  {
  }

  lemma CapTurnKeepsTimely(s: State, launch: nat, rest: seq<Bot>)
    requires Timely(s) && launch < |s.launches|
    ensures Timely(CapTurn(s, launch, rest))
  {
    if rest != [] { WithoutIsTimely(s, rest[0]); }
  }

  lemma PastGateKeepsTimely(s: State, bot: Bot, arrived: nat, now: int, healthy: bool)
    requires Timely(s) && s.clock <= now
    ensures Timely(PastGate(s, bot, arrived, now, healthy))
  {
  }

  lemma StepKeepsTimely(s: State, e: Event)
    requires Timely(s) && Enabled(s, e) && OnTime(s, e)
    ensures Timely(Step(s, e))
  {
    match e
    case Ask(bot, now, healthy) => if bot !in s.closing { PastGateKeepsTimely(s, bot, |s.sections|, now, healthy); }
    case Admit(call, now, healthy) =>
      PastGateKeepsTimely(s.(calls := s.calls[call := Past]), s.calls[call].bot, s.calls[call].arrived, now, healthy);
    case Open(launch, context, now) =>
      var up := Arrive(s, launch, context, now);
      assert Timely(up);
      CapTurnKeepsTimely(up, launch, ChooseEvictions(up.live, s.cap));
    case Cap(launch) => CapTurnKeepsTimely(s, launch, s.launches[launch].phase.rest);
    case Replace(call) => WithoutIsTimely(s, s.calls[call].bot);
    case Evict(bot) => WithoutIsTimely(s, bot);
    case _ =>
  }

  /** With a clock that does not run back, a launch's own `enforceCap` never picks its own Bot. */
  lemma {:induction false} LauncherIsSpared(s: State, events: seq<Event>, launch: nat, context: nat, now: int)
    requires Capped(s) && Timely(s) && s.cap >= 1 && IsTimelyRun(s, events) && IsRun(s, events)
    requires Enabled(After(s, events), Open(launch, context, now)) && OnTime(After(s, events), Open(launch, context, now))
    ensures var t := After(s, events);
            t.launches[launch].bot !in ChooseEvictions(Arrive(t, launch, context, now).live, t.cap)
    decreases |events|
  {
    if events == [] {
      var browser := Browser(s.launches[launch].bot, context, now);
      PutOne(s.live, browser);
      if !Has(s.live, browser.bot) {
        NewestStays(Put(s.live, browser), s.cap);
      }
    } else {
      StepKeepsCap(s, events[0]);
      StepKeepsTimely(s, events[0]);
      CapIsFixed(s, events[0]);
      LauncherIsSpared(Step(s, events[0]), events[1..], launch, context, now);
    }
  }

  lemma CapIsFixed(s: State, e: Event)
    requires Enabled(s, e)
    ensures Step(s, e).cap == s.cap
  {
  }

  /** Whatever the clock did, a launch picks its own Bot exactly when the map was full of browsers used after it. */
  lemma LauncherIsPickedWhen(s: State, launch: nat, context: nat, now: int)
    requires Capped(s) && Enabled(s, Open(launch, context, now))
    ensures s.launches[launch].bot in ChooseEvictions(Arrive(s, launch, context, now).live, s.cap) <==>
      !Has(s.live, s.launches[launch].bot) && |s.live| == s.cap && forall i | 0 <= i < |s.live| :: now < s.live[i].usedAt
  {
    var browser := Browser(s.launches[launch].bot, context, now);
    PutOne(s.live, browser);
    if !Has(s.live, browser.bot) && |s.live| == s.cap {
      LastIsPicked(s.live + [browser], s.cap);
      assert forall i | 0 <= i < s.cap :: (s.live + [browser])[i] == s.live[i];
    }
  }

  lemma {:induction false} RunGoesOn(s: State, events: seq<Event>, e: Event)
    requires IsRun(s, events) && Enabled(After(s, events), e)
    ensures IsRun(s, events + [e]) && After(s, events + [e]) == Step(After(s, events), e)
    decreases |events|
  {
    if events == [] {
      assert events + [e] == [e] && [e][1..] == [];
    } else {
      RunGoesOn(Step(s, events[0]), events[1..], e);
      assert (events + [e])[1..] == events[1..] + [e];
    }
  }

  lemma ThreeMore(s: State, events: seq<Event>, e: Event, f: Event, g: Event) returns (longer: seq<Event>)
    requires IsRun(s, events) && Enabled(After(s, events), e) && Enabled(Step(After(s, events), e), f)
    requires Enabled(Step(Step(After(s, events), e), f), g)
    ensures longer == events + [e] + [f] + [g] && IsRun(s, longer)
    ensures After(s, longer) == Step(Step(Step(After(s, events), e), f), g)
  {
    RunGoesOn(s, events, e);
    RunGoesOn(s, events + [e], f);
    RunGoesOn(s, events + [e] + [f], g);
    longer := events + [e] + [f] + [g];
  }

  /** One Bot's browser coming up. */
  function Starting(bot: Bot, context: nat): seq<Event> {
    [Ask(bot, 9, true)] + [Open(0, context, 10)] + [Forget(0)]
  }

  /** With nothing else in the process. */
  lemma OneBrowserRuns(bot: Bot, context: nat, cap: nat) returns (s: State)
    requires cap >= 1
    ensures IsRun(Init(cap, 0), Starting(bot, context)) && After(Init(cap, 0), Starting(bot, context)) == s
    ensures s == State(cap, [Browser(bot, context, 10)], map[], map[], [],
      [Launch(bot, 0, Forgotten)], [], 10, multiset{context}, multiset{})
  {
    var a := State(cap, [], map[bot := 0], map[], [], [Launch(bot, 0, Opening)], [], 0, multiset{}, multiset{});
    var b := State(cap, [Browser(bot, context, 10)], map[bot := 0], map[], [],
      [Launch(bot, 0, Answered)], [], 10, multiset{context}, multiset{});
    s := State(cap, [Browser(bot, context, 10)], map[], map[], [], [Launch(bot, 0, Forgotten)], [], 10, multiset{context}, multiset{});
    assert Step(Init(cap, 0), Ask(bot, 9, true)) == a;
    assert Arrive(a, 0, context, 10) == b.(launches := a.launches);
    assert Step(a, Open(0, context, 10)) == b;
    assert b.starting - {bot} == map[];
    assert Step(b, Forget(0)) == s;
    var events := ThreeMore(Init(cap, 0), [], Ask(bot, 9, true), Open(0, context, 10), Forget(0));
    assert events == Starting(bot, context);
  }

  /** One browser, the cap, and a clock set back while another starts: the run closes what it has just opened. */
  lemma ClockRunningBackPicksTheLauncher() returns (events: seq<Event>)
    ensures events == Starting("a", 7) + [Ask("b", 10, true)]
    ensures IsRun(Init(1, 0), events) && var s := After(Init(1, 0), events);
      Enabled(s, Open(1, 8, 5)) && ChooseEvictions(Arrive(s, 1, 8, 5).live, 1) == ["b"]
  {
    var s := OneBrowserRuns("a", 7, 1);
    RunGoesOn(Init(1, 0), Starting("a", 7), Ask("b", 10, true));
    events := Starting("a", 7) + [Ask("b", 10, true)];
    assert Step(s, Ask("b", 10, true)) == Launching(s, "b", 0);
    EarlierIsPicked(Launching(s, "b", 0));
  }

  lemma EarlierIsPicked(s: State)
    requires s.cap == 1 && s.live == [Browser("a", 7, 10)] && 8 !in s.browsers
    requires s.launches == [Launch("a", 0, Forgotten), Launch("b", 0, Opening)]
    ensures Enabled(s, Open(1, 8, 5)) && ChooseEvictions(Arrive(s, 1, 8, 5).live, 1) == ["b"]
  {
    LauncherIsPickedWhen(s, 1, 8, 5);
    var victims := ChooseEvictions(Arrive(s, 1, 8, 5).live, 1);
    assert |Arrive(s, 1, 8, 5).live| == 2 && |victims| == 1;
  }

  // ----- the gate -----

  /** Every section of `bot` before the `n`th is finished. */
  ghost predicate FinishedBelow(s: State, bot: Bot, n: nat) {
    forall j | 0 <= j < n && j < |s.sections| && s.sections[j].bot == bot :: s.sections[j].finished
  }

  /** No section of `bot` from the `from`th on, short of the `upto`th. */
  ghost predicate NoneBetween(s: State, bot: Bot, from: nat, upto: nat) {
    forall j | from <= j < upto && j < |s.sections| :: s.sections[j].bot != bot
  }

  /** `closing` holds the promise of the last section of a Bot, or every section of it is finished. */
  ghost predicate Guarded(s: State, bot: Bot) {
    if bot in s.closing then
      && s.closing[bot] < |s.sections|
      && s.sections[s.closing[bot]].bot == bot
      && NoneBetween(s, bot, s.closing[bot] + 1, |s.sections|)
    else FinishedBelow(s, bot, |s.sections|)
  }

  /** A promise chains on the one before it for the same Bot; once resolved, all up to it are finished. */
  ghost predicate Chained(s: State, k: nat)
    requires k < |s.sections|
  {
    var c := s.sections[k];
    && (match c.before
        case Some(p) => p < k && s.sections[p].bot == c.bot && NoneBetween(s, c.bot, p + 1, k)
        case None => FinishedBelow(s, c.bot, k))
    && (c.settled ==> FinishedBelow(s, c.bot, k + 1))
  }

  /** A `page` call waits for every section registered before it came in, and so does its launch. */
  ghost predicate Waited(s: State, c: Call) {
    match c
    case AtGate(bot, section, arrived) =>
      && section < arrived <= |s.sections| && s.sections[section].bot == bot
      && NoneBetween(s, bot, section + 1, arrived)
    case Replacing(bot, _, arrived) => arrived <= |s.sections| && FinishedBelow(s, bot, arrived)
    case Past => true
  }

  ghost predicate LaunchWaited(s: State, l: Launch) {
    l.arrived <= |s.sections| && FinishedBelow(s, l.bot, l.arrived)
  }

  ghost predicate Gated(s: State) {
    && (forall bot: Bot {:trigger Guarded(s, bot)} :: Guarded(s, bot))
    && (forall k | 0 <= k < |s.sections| :: Chained(s, k))
    && (forall c | 0 <= c < |s.calls| :: Waited(s, s.calls[c]))
    && (forall l | 0 <= l < |s.launches| :: LaunchWaited(s, s.launches[l]))
  }

  /** What the gate depends on: the sections and `closing`, which most events leave alone. */
  ghost predicate SameSections(s: State, t: State) {
    t.sections == s.sections && t.closing == s.closing
  }

  lemma SameSectionsGated(s: State, t: State)
    requires Gated(s) && SameSections(s, t)
    requires forall c | 0 <= c < |t.calls| :: Waited(s, t.calls[c])
    requires forall l | 0 <= l < |t.launches| :: LaunchWaited(s, t.launches[l])
    ensures Gated(t)
  {
    forall bot: Bot ensures Guarded(t, bot) { assert Guarded(s, bot); }
    forall k | 0 <= k < |t.sections| ensures Chained(t, k) { assert Chained(s, k); }
    forall c | 0 <= c < |t.calls| ensures Waited(t, t.calls[c]) { assert Waited(s, t.calls[c]); }
    forall l | 0 <= l < |t.launches| ensures LaunchWaited(t, t.launches[l]) { assert LaunchWaited(s, t.launches[l]); }
  }

  lemma OpenSectionGated(s: State, bot: Bot, context: Option<nat>)
    requires Gated(s)
    ensures Gated(OpenSection(s, bot, context))
  {
    var t := OpenSection(s, bot, context);
    assert Guarded(s, bot);
    forall b: Bot ensures Guarded(t, b) { assert Guarded(s, b); }
    forall k | 0 <= k < |t.sections| ensures Chained(t, k) {
      if k < |s.sections| { assert Chained(s, k); }
    }
    forall c | 0 <= c < |t.calls| ensures Waited(t, t.calls[c]) { assert Waited(s, s.calls[c]); }
    forall l | 0 <= l < |t.launches| ensures LaunchWaited(t, t.launches[l]) { assert LaunchWaited(s, s.launches[l]); }
  }

  /** A section that finishes, or whose promise resolves after the one before it, keeps the gate. */
  lemma SectionGated(s: State, k: nat, to: Section)
    requires Gated(s) && k < |s.sections|
    requires to == s.sections[k].(finished := true) || (to == s.sections[k].(settled := true) && Enabled(s, Settle(k)))
    ensures Gated(s.(sections := s.sections[k := to]))
  {
    var t := s.(sections := s.sections[k := to]);
    assert Chained(s, k);
    forall b: Bot ensures Guarded(t, b) { assert Guarded(s, b); }
    forall j | 0 <= j < |t.sections| ensures Chained(t, j) {
      assert Chained(s, j);
      if j == k && to.settled && to.before.Some? { assert Chained(s, to.before.value); }
    }
    forall c | 0 <= c < |t.calls| ensures Waited(t, t.calls[c]) { assert Waited(s, s.calls[c]); }
    forall l | 0 <= l < |t.launches| ensures LaunchWaited(t, t.launches[l]) { assert LaunchWaited(s, s.launches[l]); }
  }

  lemma ReleaseGated(s: State, section: nat)
    requires Gated(s) && Enabled(s, Release(section))
    ensures Gated(Step(s, Release(section)))
  {
    var t := Step(s, Release(section));
    var bot := s.sections[section].bot;
    assert Chained(s, section);
    forall b: Bot ensures Guarded(t, b) { assert Guarded(s, b); }
    forall j | 0 <= j < |t.sections| ensures Chained(t, j) { assert Chained(s, j); }
    forall c | 0 <= c < |t.calls| ensures Waited(t, t.calls[c]) { assert Waited(s, s.calls[c]); }
    forall l | 0 <= l < |t.launches| ensures LaunchWaited(t, t.launches[l]) { assert LaunchWaited(s, s.launches[l]); }
  }

  lemma PastGateGated(s: State, bot: Bot, arrived: nat, now: int, healthy: bool)
    requires Gated(s) && arrived <= |s.sections| && FinishedBelow(s, bot, arrived)
    ensures Gated(PastGate(s, bot, arrived, now, healthy))
  {
    SameSectionsGated(s, PastGate(s, bot, arrived, now, healthy));
  }

  lemma CapTurnGated(s: State, launch: nat, rest: seq<Bot>)
    requires Gated(s) && launch < |s.launches|
    ensures Gated(CapTurn(s, launch, rest))
  {
    var t := if rest == [] then s else EvictNow(s, rest[0]);
    if rest != [] && Has(s.live, rest[0]) {
      SameSectionsGated(s, s.(live := Without(s.live, rest[0])));
      OpenSectionGated(s.(live := Without(s.live, rest[0])), rest[0], Some(s.live[Place(s.live, rest[0])].context));
    }
    SameSectionsGated(t, CapTurn(s, launch, rest));
  }

  lemma StepKeepsGate(s: State, e: Event)
    requires Gated(s) && Enabled(s, e)
    ensures Gated(Step(s, e))
  {
    match e
    case Ask(bot, now, healthy) =>
      assert Guarded(s, bot);
      if bot in s.closing {
        SameSectionsGated(s, Step(s, e));
      } else {
        PastGateGated(s, bot, |s.sections|, now, healthy);
      }
    case Admit(call, now, healthy) =>
      var c := s.calls[call];
      assert Waited(s, c) && Chained(s, c.section);
      var t := s.(calls := s.calls[call := Past]);
      SameSectionsGated(s, t);
      PastGateGated(t, c.bot, c.arrived, now, healthy);
    case Replace(call) =>
      assert Waited(s, s.calls[call]);
      SameSectionsGated(s, Step(s, e));
    case Open(launch, context, now) =>
      var up := Arrive(s, launch, context, now);
      SameSectionsGated(s, up);
      CapTurnGated(up, launch, ChooseEvictions(up.live, s.cap));
    case Cap(launch) => CapTurnGated(s, launch, s.launches[launch].phase.rest);
    case Evict(bot) =>
      if Has(s.live, bot) {
        SameSectionsGated(s, s.(live := Without(s.live, bot)));
        OpenSectionGated(s.(live := Without(s.live, bot)), bot, Some(s.live[Place(s.live, bot)].context));
      }
    case Guard(bot) => OpenSectionGated(s, bot, None);
    case Finish(section) => SectionGated(s, section, s.sections[section].(finished := true));
    case Settle(section) => SectionGated(s, section, s.sections[section].(settled := true));
    case Release(section) => ReleaseGated(s, section);
    case _ => SameSectionsGated(s, Step(s, e));
  }

  /** In every run the gate holds. */
  lemma {:induction false} GateHolds(s: State, events: seq<Event>)
    requires Gated(s) && IsRun(s, events)
    ensures Gated(After(s, events))
    decreases |events|
  {
    if events != [] {
      StepKeepsGate(s, events[0]);
      GateHolds(Step(s, events[0]), events[1..]);
    }
  }

  /**
   * While a section of a Bot is unfinished, `closing` holds a promise for the Bot that has not resolved,
   * and every launch of the Bot so far belongs to a call that came in before the section was registered.
   */
  lemma ClosingHoldsLaunchesBack(s: State, events: seq<Event>, k: nat)
    requires Gated(s) && IsRun(s, events)
    requires k < |After(s, events).sections| && !After(s, events).sections[k].finished
    ensures var t := After(s, events);
            var bot := t.sections[k].bot;
            && bot in t.closing && k <= t.closing[bot] < |t.sections| && !t.sections[t.closing[bot]].settled
            && forall l | 0 <= l < |t.launches| && t.launches[l].bot == bot :: t.launches[l].arrived <= k
  {
    GateHolds(s, events);
    var t := After(s, events);
    var bot := t.sections[k].bot;
    assert Guarded(t, bot);
    assert Chained(t, t.closing[bot]);
    forall l | 0 <= l < |t.launches| && t.launches[l].bot == bot ensures t.launches[l].arrived <= k {
      assert LaunchWaited(t, t.launches[l]);
    }
  }

  // ----- one launch at a time -----

  predicate InFlight(l: Launch) {
    !l.phase.Forgotten?
  }

  /** `starting` holds exactly the launch in flight for each Bot, so there is at most one. */
  ghost predicate Single(s: State) {
    && (forall l | 0 <= l < |s.launches| && InFlight(s.launches[l]) ::
          s.launches[l].bot in s.starting && s.starting[s.launches[l].bot] == l)
    && (forall bot | bot in s.starting ::
          s.starting[bot] < |s.launches| && s.launches[s.starting[bot]].bot == bot && InFlight(s.launches[s.starting[bot]]))
  }

  /** A half-dead browser's replacement goes ahead although a launch of its Bot is already in flight. */
  predicate Overlaps(s: State, e: Event) {
    e.Replace? && e.call < |s.calls| && s.calls[e.call].Replacing? && s.calls[e.call].bot in s.starting
  }

  /** The same launches are in flight, and `starting` holds the same. */
  ghost predicate SameFlights(s: State, t: State) {
    && t.starting == s.starting && |t.launches| == |s.launches|
    && forall l | 0 <= l < |s.launches| ::
         t.launches[l].bot == s.launches[l].bot && (InFlight(t.launches[l]) <==> InFlight(s.launches[l]))
  }

  lemma SameFlightsSingle(s: State, t: State)
    requires Single(s) && SameFlights(s, t)
    ensures Single(t)
  {
  }

  lemma LaunchingSingle(s: State, bot: Bot, arrived: nat)
    requires Single(s)
    ensures Single(Launching(s, bot, arrived)) <==> bot !in s.starting
  {
    var t := Launching(s, bot, arrived);
    if bot in s.starting {
      assert t.launches[s.starting[bot]] == s.launches[s.starting[bot]];
    }
  }

  lemma PastGateSingle(s: State, bot: Bot, arrived: nat, now: int, healthy: bool)
    requires Single(s)
    ensures Single(PastGate(s, bot, arrived, now, healthy))
  {
    if bot !in s.starting && !Has(s.live, bot) {
      LaunchingSingle(s, bot, arrived);
    } else {
      SameFlightsSingle(s, PastGate(s, bot, arrived, now, healthy));
    }
  }

  lemma ForgetSingle(s: State, launch: nat)
    requires Single(s) && Enabled(s, Forget(launch))
    ensures Single(Step(s, Forget(launch)))
  {
    var t := Step(s, Forget(launch));
    assert InFlight(s.launches[launch]);
    forall l | 0 <= l < |t.launches| && InFlight(t.launches[l])
      ensures t.launches[l].bot in t.starting && t.starting[t.launches[l].bot] == l
    {
      assert InFlight(s.launches[l]);
    }
  }

  lemma ReplaceSingle(s: State, call: nat)
    requires Single(s) && Enabled(s, Replace(call))
    ensures Single(Step(s, Replace(call))) <==> s.calls[call].bot !in s.starting
  {
    var c := s.calls[call];
    var t := s.(calls := s.calls[call := Past], live := Without(s.live, c.bot), dropped := s.dropped + multiset{c.context});
    SameFlightsSingle(s, t);
    LaunchingSingle(t, c.bot, c.arrived);
  }

  lemma CallSingle(s: State, e: Event)
    requires Single(s) && Enabled(s, e) && (e.Ask? || e.Admit?)
    ensures Single(Step(s, e))
  {
    match e
    case Ask(bot, now, healthy) =>
      if bot in s.closing {
        SameFlightsSingle(s, Step(s, e));
      } else {
        PastGateSingle(s, bot, |s.sections|, now, healthy);
      }
    case Admit(call, now, healthy) =>
      var t := s.(calls := s.calls[call := Past]);
      SameFlightsSingle(s, t);
      PastGateSingle(t, s.calls[call].bot, s.calls[call].arrived, now, healthy);
  }

  lemma CapTurnSingle(s: State, launch: nat, rest: seq<Bot>)
    requires Single(s) && launch < |s.launches| && InFlight(s.launches[launch])
    ensures Single(CapTurn(s, launch, rest))
  {
    SameFlightsSingle(s, CapTurn(s, launch, rest));
  }

  lemma LaunchSingle(s: State, e: Event)
    requires Single(s) && Enabled(s, e) && (e.Open? || e.FailOpen? || e.Strand? || e.Cap? || e.Forget?)
    ensures Single(Step(s, e))
  {
    match e
    case Open(launch, context, now) =>
      var up := Arrive(s, launch, context, now);
      SameFlightsSingle(s, up);
      CapTurnSingle(up, launch, ChooseEvictions(up.live, s.cap));
    case FailOpen(launch) => SameFlightsSingle(s, Step(s, e));
    case Strand(launch, _) => SameFlightsSingle(s, Step(s, e));
    case Cap(launch) => CapTurnSingle(s, launch, s.launches[launch].phase.rest);
    case Forget(launch) => ForgetSingle(s, launch);
  }

  /** Nothing but an overlapping replacement puts a second launch in flight, and that always does. */
  lemma StepSingle(s: State, e: Event)
    requires Single(s) && Enabled(s, e)
    ensures Single(Step(s, e)) <==> !Overlaps(s, e)
  {
    if e.Replace? {
      ReplaceSingle(s, e.call);
    } else if e.Ask? || e.Admit? {
      CallSingle(s, e);
    } else if e.Open? || e.FailOpen? || e.Strand? || e.Cap? || e.Forget? {
      LaunchSingle(s, e);
    } else {
      assert SameFlights(s, Step(s, e));
      SameFlightsSingle(s, Step(s, e));
    }
  }

  ghost predicate SingleThroughout(s: State, events: seq<Event>)
    requires IsRun(s, events)
    decreases |events|
  {
    Single(s) && (events != [] ==> SingleThroughout(Step(s, events[0]), events[1..]))
  }

  ghost predicate NeverOverlaps(s: State, events: seq<Event>)
    requires IsRun(s, events)
    decreases |events|
  {
    events != [] ==> !Overlaps(s, events[0]) && NeverOverlaps(Step(s, events[0]), events[1..])
  }

  /** At most one launch per Bot throughout a run, exactly when the run holds no overlapping replacement. */
  lemma {:induction false} OneLaunchAtATime(s: State, events: seq<Event>)
    requires Single(s) && IsRun(s, events)
    ensures SingleThroughout(s, events) <==> NeverOverlaps(s, events)
    decreases |events|
  {
    if events != [] {
      var t := Step(s, events[0]);
      StepSingle(s, events[0]);
      if Single(t) {
        OneLaunchAtATime(t, events[1..]);
      }
    }
  }

  // ----- each browser is closed once -----

  function Closing(sections: seq<Section>): multiset<nat> {
    if sections == [] then multiset{}
    else
      var last := sections[|sections| - 1];
      Closing(sections[..|sections| - 1]) + if last.context.Some? then multiset{last.context.value} else multiset{}
  }

  ghost predicate Balanced(s: State) {
    s.browsers == Contexts(s.live) + Closing(s.sections) + s.dropped
  }

  /** Every browser ever opened is in `live`, or in the hands of one section, or was dropped: counted once in all. */
  ghost predicate Accounted(s: State) {
    Balanced(s) && Unopened(s)
  }

  /** While a launch opens its browser the map has none for its Bot. */
  ghost predicate Unopened(s: State) {
    forall l | 0 <= l < |s.launches| && s.launches[l].phase.Opening? :: !Has(s.live, s.launches[l].bot)
  }

  /** A replacement that finds in the map the very browser it closed. */
  predicate DropsItsOwn(s: State, e: Event) {
    e.Replace? && e.call < |s.calls| && s.calls[e.call].Replacing? ==>
      var c := s.calls[e.call];
      Has(s.live, c.bot) && s.live[Place(s.live, c.bot)].context == c.context
  }

  lemma ContextsWithout(live: seq<Browser>, i: nat)
    requires i < |live|
    ensures Contexts(live) == Contexts(live[..i] + live[i + 1..]) + multiset{live[i].context}
  {
    var ids := Ids(live);
    assert Ids(live[..i] + live[i + 1..]) == ids[..i] + ids[i + 1..];
    assert ids == ids[..i] + [ids[i]] + ids[i + 1..];
  }

  lemma ContextsAppended(live: seq<Browser>, browser: Browser)
    ensures Contexts(live + [browser]) == Contexts(live) + multiset{browser.context}
  {
    assert Ids(live + [browser]) == Ids(live) + [browser.context];
  }

  lemma ContextsUpdated(live: seq<Browser>, i: nat, browser: Browser)
    requires i < |live| && browser.context == live[i].context
    ensures Contexts(live[i := browser]) == Contexts(live)
  {
    assert Ids(live[i := browser]) == Ids(live);
  }

  /** Only which browser a section closes counts. */
  lemma {:induction false} ClosingAlike(a: seq<Section>, b: seq<Section>)
    requires |a| == |b| && forall i | 0 <= i < |a| :: a[i].context == b[i].context
    ensures Closing(a) == Closing(b)
    decreases |a|
  {
    if a != [] { ClosingAlike(a[..|a| - 1], b[..|b| - 1]); }
  }

  lemma ClosingUpdated(sections: seq<Section>, k: nat, to: Section)
    requires k < |sections| && to.context == sections[k].context
    ensures Closing(sections[k := to]) == Closing(sections)
  {
    ClosingAlike(sections[k := to], sections);
  }

  lemma EvictAccounted(s: State, bot: Bot)
    requires Accounted(s) && OneEach(s.live)
    ensures Accounted(EvictNow(s, bot))
  {
    if Has(s.live, bot) {
      EvictBalanced(s, bot);
      WithoutHasLess(s.live, bot);
    }
  }

  lemma EvictBalanced(s: State, bot: Bot)
    requires Balanced(s) && Has(s.live, bot)
    ensures Balanced(EvictNow(s, bot))
  {
    var i := Place(s.live, bot);
    var left, held, one := Contexts(Without(s.live, bot)), Closing(s.sections), multiset{s.live[i].context};
    assert Contexts(s.live) == left + one by { ContextsWithout(s.live, i); }
    assert Closing(EvictNow(s, bot).sections) == held + one by {
      SectionAccounted(s.(live := Without(s.live, bot)), bot, s.live[i].context);
    }
    Moved(left, held, s.dropped, one);
  }

  lemma Moved(a: multiset<nat>, b: multiset<nat>, c: multiset<nat>, x: multiset<nat>)
    ensures (a + x) + b + c == a + (b + x) + c
  {
  }

  lemma SectionAccounted(s: State, bot: Bot, context: nat)
    ensures Closing(OpenSection(s, bot, Some(context)).sections) == Closing(s.sections) + multiset{context}
    ensures Closing(OpenSection(s, bot, None).sections) == Closing(s.sections)
  {
    assert OpenSection(s, bot, Some(context)).sections[..|s.sections|] == s.sections;
    assert OpenSection(s, bot, None).sections[..|s.sections|] == s.sections;
  }

  lemma WithoutHasLess(live: seq<Browser>, bot: Bot)
    requires OneEach(live)
    ensures forall b :: Has(Without(live, bot), b) <==> Has(live, b) && b != bot
  {
    var less := Without(live, bot);
    WithoutOne(live, bot);
    forall b ensures Has(less, b) <==> Has(live, b) && b != bot {
      if Has(live, b) && b != bot {
        var i := Place(live, b);
        var k := if Has(live, bot) && i > Place(live, bot) then i - 1 else i;
        assert less[k].bot == b;
      }
      if Has(less, b) {
        var k := Place(less, b);
        var i := if Has(live, bot) && k >= Place(live, bot) then k + 1 else k;
        assert live[i].bot == b;
      }
    }
  }

  lemma CapTurnAccounted(s: State, launch: nat, rest: seq<Bot>)
    requires Accounted(s) && OneEach(s.live) && launch < |s.launches|
    ensures Accounted(CapTurn(s, launch, rest))
  {
    if rest != [] { EvictAccounted(s, rest[0]); }
  }

  lemma OpenAccounted(s: State, launch: nat, context: nat, now: int)
    requires Accounted(s) && Single(s) && Capped(s) && Enabled(s, Open(launch, context, now))
    ensures Accounted(Step(s, Open(launch, context, now)))
  {
    var up := Arrive(s, launch, context, now);
    var held := InPhase(up, launch, Capping([], None));
    PutOne(s.live, Browser(s.launches[launch].bot, context, now));
    ArriveAccounted(s, launch, context, now);
    CapTurnAccounted(held, launch, ChooseEvictions(up.live, s.cap));
    CapTurnForgetsPhase(up, launch, ChooseEvictions(up.live, s.cap), Capping([], None));
  }

  lemma CapTurnForgetsPhase(s: State, launch: nat, rest: seq<Bot>, phase: Phase)
    requires launch < |s.launches|
    ensures CapTurn(InPhase(s, launch, phase), launch, rest) == CapTurn(s, launch, rest)
  {
  }

  lemma ArriveAccounted(s: State, launch: nat, context: nat, now: int)
    requires Accounted(s) && Single(s) && Enabled(s, Open(launch, context, now))
    ensures Accounted(InPhase(Arrive(s, launch, context, now), launch, Capping([], None)))
  {
    var browser := Browser(s.launches[launch].bot, context, now);
    assert !Has(s.live, browser.bot);
    ContextsAppended(s.live, browser);
    forall l | 0 <= l < |s.launches| && l != launch && s.launches[l].phase.Opening?
      ensures !Has(s.live + [browser], s.launches[l].bot)
    {
      assert InFlight(s.launches[l]) && InFlight(s.launches[launch]);
      PlaceAppended(s.live, browser, s.launches[l].bot);
    }
  }

  lemma PlaceAppended(live: seq<Browser>, browser: Browser, bot: Bot)
    requires browser.bot != bot
    ensures Has(live + [browser], bot) <==> Has(live, bot)
  {
    if Has(live + [browser], bot) {
      var k := Place(live + [browser], bot);
      assert live[k].bot == bot;
    }
    if Has(live, bot) {
      assert (live + [browser])[Place(live, bot)].bot == bot;
    }
  }

  lemma SectionUpdateAccounted(s: State, section: nat, to: Section)
    requires Accounted(s) && section < |s.sections| && to.context == s.sections[section].context
    ensures Accounted(s.(sections := s.sections[section := to]))
  {
    ClosingUpdated(s.sections, section, to);
  }

  lemma CloseAllAccounted(s: State)
    requires Accounted(s)
    ensures Accounted(Step(s, CloseAll))
  {
    assert Contexts([]) == multiset{};
  }

  /** Neither a replacement that finds another browser than its own, or none, nor a browser that is up and in no map. */
  predicate KeepsCount(s: State, e: Event) {
    DropsItsOwn(s, e) && !e.Strand?
  }

  lemma OtherAccounted(s: State, e: Event)
    requires Accounted(s) && Single(s) && Capped(s) && Enabled(s, e) && !e.Replace? && !e.Strand?
    ensures Accounted(Step(s, e))
  {
    match e
    case Ask(bot, now, healthy) => PastGateAccounted(s, bot, |s.sections|, now, healthy);
    case Admit(call, now, healthy) =>
      PastGateAccounted(s.(calls := s.calls[call := Past]), s.calls[call].bot, s.calls[call].arrived, now, healthy);
    case Open(launch, context, now) => OpenAccounted(s, launch, context, now);
    case FailOpen(launch) =>
    case Cap(launch) => CapTurnAccounted(s, launch, s.launches[launch].phase.rest);
    case Forget(launch) =>
    case Evict(bot) => EvictAccounted(s, bot);
    case Guard(bot) => SectionAccounted(s, bot, 0);
    case Finish(section) => SectionUpdateAccounted(s, section, s.sections[section].(finished := true));
    case Settle(section) => SectionUpdateAccounted(s, section, s.sections[section].(settled := true));
    case Release(section) =>
    case CloseAll => CloseAllAccounted(s);
  }

  lemma StrandAccounted(s: State, launch: nat, context: nat)
    requires Balanced(s) && Enabled(s, Strand(launch, context))
    ensures !Balanced(Step(s, Strand(launch, context)))
  {
    OneTooMany(s.browsers, context);
  }

  /** Only a replacement that does not find its own browser, or a stranded launch, upsets the count, and each does. */
  lemma StepAccounted(s: State, e: Event)
    requires Accounted(s) && Single(s) && Capped(s) && Enabled(s, e)
    ensures Accounted(Step(s, e)) <==> KeepsCount(s, e)
  {
    if e.Replace? {
      ReplaceAccounted(s, e.call);
    } else if e.Strand? {
      StrandAccounted(s, e.launch, e.context);
    } else {
      OtherAccounted(s, e);
    }
  }

  lemma ReplaceAccounted(s: State, call: nat)
    requires Accounted(s) && OneEach(s.live) && Enabled(s, Replace(call))
    ensures Accounted(Step(s, Replace(call))) <==> DropsItsOwn(s, Replace(call))
  {
    ReplaceUnopened(s, call);
    ReplaceBalanced(s, call);
  }

  lemma ReplaceUnopened(s: State, call: nat)
    requires Unopened(s) && OneEach(s.live) && Enabled(s, Replace(call))
    ensures Unopened(Step(s, Replace(call)))
  {
    WithoutHasLess(s.live, s.calls[call].bot);
  }

  lemma ReplaceBalanced(s: State, call: nat)
    requires Balanced(s) && Enabled(s, Replace(call))
    ensures Balanced(Step(s, Replace(call))) <==> DropsItsOwn(s, Replace(call))
  {
    var c := s.calls[call];
    var left, held := Contexts(Without(s.live, c.bot)), Closing(s.sections);
    Regrouped(left, held, s.dropped, multiset{c.context});
    if Has(s.live, c.bot) {
      var i := Place(s.live, c.bot);
      ContextsWithout(s.live, i);
      Regrouped(left, held, s.dropped, multiset{s.live[i].context});
      OneForAnother(s.browsers, left + held + s.dropped, s.live[i].context, c.context);
    } else {
      OneTooMany(s.browsers, c.context);
    }
  }

  lemma Regrouped(a: multiset<nat>, b: multiset<nat>, c: multiset<nat>, x: multiset<nat>)
    ensures a + b + (c + x) == a + b + c + x
    ensures (a + x) + b + c == a + b + c + x
  {
  }

  lemma OneTooMany(all: multiset<nat>, x: nat)
    ensures all != all + multiset{x}
  {
    assert (all + multiset{x})[x] == all[x] + 1;
  }

  lemma OneForAnother(all: multiset<nat>, rest: multiset<nat>, own: nat, other: nat)
    requires all == rest + multiset{own}
    ensures all == rest + multiset{other} <==> own == other
  {
    assert (rest + multiset{other})[other] == rest[other] + 1;
  }

  lemma PastGateAccounted(s: State, bot: Bot, arrived: nat, now: int, healthy: bool)
    requires Accounted(s)
    ensures Accounted(PastGate(s, bot, arrived, now, healthy))
  {
    if bot !in s.starting && Has(s.live, bot) && healthy {
      var i := Place(s.live, bot);
      var touched := s.live[i].(usedAt := now);
      ContextsUpdated(s.live, i, touched);
      forall b ensures Has(s.live[i := touched], b) <==> Has(s.live, b) {
        PlaceTouched(s.live, i, touched, b);
      }
    }
  }

  lemma PlaceTouched(live: seq<Browser>, i: nat, touched: Browser, b: Bot)
    requires i < |live| && touched.bot == live[i].bot
    ensures Has(live[i := touched], b) <==> Has(live, b)
  {
    if Has(live, b) { assert live[i := touched][Place(live, b)].bot == b; }
    if Has(live[i := touched], b) { assert live[Place(live[i := touched], b)].bot == b; }
  }

  ghost predicate AccountedThroughout(s: State, events: seq<Event>)
    requires IsRun(s, events)
    decreases |events|
  {
    Accounted(s) && (events != [] ==> AccountedThroughout(Step(s, events[0]), events[1..]))
  }

  ghost predicate AlwaysKeepsCount(s: State, events: seq<Event>)
    requires IsRun(s, events)
    decreases |events|
  {
    events != [] ==> KeepsCount(s, events[0]) && AlwaysKeepsCount(Step(s, events[0]), events[1..])
  }

  ghost predicate Holds(live: seq<Browser>, bot: Bot, context: nat) {
    exists i :: 0 <= i < |live| && live[i].bot == bot && live[i].context == context
  }

  /** A replacement still to come: its browser was opened, and while the map has it no launch of its Bot is in flight. */
  ghost predicate Awaiting(s: State, c: Call) {
    c.Replacing? ==> c.context in s.browsers && (Holds(s.live, c.bot, c.context) ==> c.bot !in s.starting)
  }

  ghost predicate Traced(s: State) {
    && (forall i | 0 <= i < |s.live| :: s.live[i].context in s.browsers)
    && (forall c | 0 <= c < |s.calls| :: Awaiting(s, s.calls[c]))
  }

  /** Fewer browsers in the map, fewer launches in flight. */
  lemma LessIsTraced(s: State, t: State)
    requires Traced(s) && (forall c | c in s.browsers :: c in t.browsers) && (forall b | b in t.starting :: b in s.starting)
    requires forall i | 0 <= i < |t.live| :: Holds(s.live, t.live[i].bot, t.live[i].context)
    requires forall c | 0 <= c < |t.calls| :: t.calls[c].Replacing? ==> c < |s.calls| && t.calls[c] == s.calls[c]
    ensures Traced(t)
  {
    forall i | 0 <= i < |t.live| ensures t.live[i].context in t.browsers {
      assert Holds(s.live, t.live[i].bot, t.live[i].context);
    }
    forall c | 0 <= c < |t.calls| ensures Awaiting(t, t.calls[c]) {
      if t.calls[c].Replacing? {
        assert Awaiting(s, s.calls[c]);
        if Holds(t.live, t.calls[c].bot, t.calls[c].context) {
          var i :| 0 <= i < |t.live| && t.live[i].bot == t.calls[c].bot && t.live[i].context == t.calls[c].context;
          assert Holds(s.live, t.live[i].bot, t.live[i].context);
        }
      }
    }
  }

  lemma WithoutHolds(live: seq<Browser>, bot: Bot)
    ensures forall i | 0 <= i < |Without(live, bot)| :: Holds(live, Without(live, bot)[i].bot, Without(live, bot)[i].context)
  {
    var less, at := Without(live, bot), Place(live, bot);
    forall i | 0 <= i < |less| ensures Holds(live, less[i].bot, less[i].context) {
      assert less[i] == live[if i < at then i else i + 1];
    }
  }

  lemma SelfHolds(live: seq<Browser>)
    ensures forall i | 0 <= i < |live| :: Holds(live, live[i].bot, live[i].context)
  {
  }

  /** A launch begins for a Bot that the map has no browser of. */
  lemma LaunchingTraced(s: State, bot: Bot, arrived: nat)
    requires Traced(s) && !Has(s.live, bot)
    ensures Traced(Launching(s, bot, arrived))
  {
    var t := Launching(s, bot, arrived);
    forall c | 0 <= c < |t.calls| ensures Awaiting(t, t.calls[c]) {
      assert Awaiting(s, s.calls[c]);
    }
  }

  lemma PastGateTraced(s: State, bot: Bot, arrived: nat, now: int, healthy: bool)
    requires Traced(s)
    ensures Traced(PastGate(s, bot, arrived, now, healthy))
  {
    SelfHolds(s.live);
    if bot !in s.starting {
      var i := Place(s.live, bot);
      if !Has(s.live, bot) {
        LaunchingTraced(s, bot, arrived);
      } else if healthy {
        LessIsTraced(s, PastGate(s, bot, arrived, now, healthy));
      } else {
        var t := PastGate(s, bot, arrived, now, healthy);
        forall c | 0 <= c < |t.calls| ensures Awaiting(t, t.calls[c]) {
          if c < |s.calls| { assert Awaiting(s, s.calls[c]); }
        }
      }
    }
  }

  lemma EvictTraced(s: State, bot: Bot)
    requires Traced(s)
    ensures Traced(EvictNow(s, bot))
  {
    WithoutHolds(s.live, bot);
    if Has(s.live, bot) { LessIsTraced(s, EvictNow(s, bot)); }
  }

  lemma CapTurnTraced(s: State, launch: nat, rest: seq<Bot>)
    requires Traced(s) && launch < |s.launches|
    ensures Traced(CapTurn(s, launch, rest))
  {
    var t := if rest == [] then s else EvictNow(s, rest[0]);
    if rest != [] { EvictTraced(s, rest[0]); }
    SelfHolds(t.live);
    LessIsTraced(t, CapTurn(s, launch, rest));
  }

  /** A browser that comes up is new, so no replacement has it for its own. */
  lemma ArriveTraced(s: State, launch: nat, context: nat, now: int)
    requires Traced(s) && Enabled(s, Open(launch, context, now))
    ensures Traced(Arrive(s, launch, context, now))
  {
    var up := Arrive(s, launch, context, now);
    var browser := Browser(s.launches[launch].bot, context, now);
    forall i | 0 <= i < |up.live| ensures up.live[i] == browser || (i < |s.live| && up.live[i] == s.live[i]) {
    }
    forall c | 0 <= c < |up.calls| ensures Awaiting(up, up.calls[c]) {
      assert Awaiting(s, s.calls[c]);
    }
  }

  lemma ReplaceTraced(s: State, call: nat)
    requires Traced(s) && OneEach(s.live) && Enabled(s, Replace(call))
    ensures Traced(Step(s, Replace(call)))
  {
    var c := s.calls[call];
    var t := s.(calls := s.calls[call := Past], live := Without(s.live, c.bot), dropped := s.dropped + multiset{c.context});
    WithoutHolds(s.live, c.bot);
    LessIsTraced(s, t);
    WithoutOne(s.live, c.bot);
    LaunchingTraced(t, c.bot, c.arrived);
  }

  lemma StepKeepsTraced(s: State, e: Event)
    requires Traced(s) && OneEach(s.live) && Enabled(s, e)
    ensures Traced(Step(s, e))
  {
    SelfHolds(s.live);
    match e
    case Ask(bot, now, healthy) =>
      if bot in s.closing { LessIsTraced(s, Step(s, e)); } else { PastGateTraced(s, bot, |s.sections|, now, healthy); }
    case Admit(call, now, healthy) =>
      var t := s.(calls := s.calls[call := Past]);
      LessIsTraced(s, t);
      PastGateTraced(t, s.calls[call].bot, s.calls[call].arrived, now, healthy);
    case Replace(call) => ReplaceTraced(s, call);
    case Open(launch, context, now) =>
      ArriveTraced(s, launch, context, now);
      CapTurnTraced(Arrive(s, launch, context, now), launch, ChooseEvictions(Arrive(s, launch, context, now).live, s.cap));
    case Cap(launch) => CapTurnTraced(s, launch, s.launches[launch].phase.rest);
    case Evict(bot) => EvictTraced(s, bot);
    case _ => LessIsTraced(s, Step(s, e));
  }

  /** A replacement that finds its own browser overlaps no launch. */
  lemma OwnIsNoOverlap(s: State, e: Event)
    requires Traced(s) && Enabled(s, e) && DropsItsOwn(s, e)
    ensures !Overlaps(s, e)
  {
    if e.Replace? {
      assert Awaiting(s, s.calls[e.call]);
      assert Holds(s.live, s.calls[e.call].bot, s.calls[e.call].context);
    }
  }

  /**
   * In every run each browser opened is in the map, or closed by one section, or dropped, and counted once, throughout,
   * exactly when every replacement finds the half-dead browser it closed still in the map and no launch is stranded.
   * No launches overlap then either.
   */
  lemma {:induction false} EachIsClosedOnce(s: State, events: seq<Event>)
    requires Accounted(s) && Single(s) && Capped(s) && Traced(s) && IsRun(s, events)
    ensures AccountedThroughout(s, events) <==> AlwaysKeepsCount(s, events)
    ensures AlwaysKeepsCount(s, events) ==> NeverOverlaps(s, events)
    decreases |events|
  {
    if events != [] {
      var t := Step(s, events[0]);
      StepAccounted(s, events[0]);
      if KeepsCount(s, events[0]) {
        OwnIsNoOverlap(s, events[0]);
        StepSingle(s, events[0]);
        StepKeepsCap(s, events[0]);
        StepKeepsTraced(s, events[0]);
        EachIsClosedOnce(t, events[1..]);
      }
    }
  }

  // ----- no browser is lost -----

  /** Handed to a section to close, or dropped. */
  predicate Gone(s: State, context: nat) {
    context in Closing(s.sections) || context in s.dropped
  }

  ghost predicate SameGone(s: State, t: State) {
    forall c: nat :: Gone(t, c) <==> Gone(s, c)
  }

  ghost predicate Up(live: seq<Browser>, context: nat) {
    exists i :: 0 <= i < |live| && live[i].context == context
  }

  /** Every browser ever opened is in `live`, or in the hands of a section, or was dropped. */
  ghost predicate Covered(s: State) {
    forall c | c in s.browsers :: Up(s.live, c) || Gone(s, c)
  }

  /** A replacement still to come: if the map has its browser, it is under its Bot. */
  ghost predicate Found(s: State, c: Call) {
    c.Replacing? ==>
      && c.context in s.browsers
      && forall i | 0 <= i < |s.live| && s.live[i].context == c.context :: s.live[i].bot == c.bot
  }

  /** A browser in the map is there once and has not been handed on; nothing has that was not opened. */
  ghost predicate Apart(s: State) {
    && (forall i, j | 0 <= i < j < |s.live| :: s.live[i].context != s.live[j].context)
    && (forall i | 0 <= i < |s.live| :: s.live[i].context in s.browsers && !Gone(s, s.live[i].context))
    && (forall c | Gone(s, c) :: c in s.browsers)
    && (forall k | 0 <= k < |s.calls| :: Found(s, s.calls[k]))
  }

  /**
   * What loses a browser: it is up and in no map, or it is taken from the map by a replacement of another, or written
   * over by a second launch.
   */
  predicate Loses(s: State, e: Event) {
    match e
    case Strand(_, _) => true
    case Replace(call) =>
      && call < |s.calls| && s.calls[call].Replacing? && Has(s.live, s.calls[call].bot)
      && s.live[Place(s.live, s.calls[call].bot)].context != s.calls[call].context
    case Open(launch, _, _) => launch < |s.launches| && Has(s.live, s.launches[launch].bot)
    case _ => false
  }

  /** The map has the same browsers under the same Bots, the same were handed on, and no replacement is new. */
  ghost predicate SameBrowsers(s: State, t: State) {
    && |t.live| == |s.live| && t.browsers == s.browsers && SameGone(s, t)
    && (forall i | 0 <= i < |s.live| :: t.live[i].bot == s.live[i].bot && t.live[i].context == s.live[i].context)
    && forall k | 0 <= k < |t.calls| && t.calls[k].Replacing? :: t.calls[k] in s.calls
  }

  /** No replacement is new, and the map has no other browsers, nor under other Bots. */
  lemma FoundStays(s: State, t: State)
    requires forall k | 0 <= k < |s.calls| :: Found(s, s.calls[k])
    requires forall k | 0 <= k < |t.calls| && t.calls[k].Replacing? :: t.calls[k] in s.calls
    requires t.browsers == s.browsers && forall i | 0 <= i < |t.live| :: Holds(s.live, t.live[i].bot, t.live[i].context)
    ensures forall k | 0 <= k < |t.calls| :: Found(t, t.calls[k])
  {
    forall k | 0 <= k < |t.calls| && t.calls[k].Replacing? ensures Found(t, t.calls[k]) {
      var j :| 0 <= j < |s.calls| && s.calls[j] == t.calls[k];
      assert Found(s, s.calls[j]);
    }
  }

  lemma SameBrowsersCovered(s: State, t: State)
    requires Apart(s) && SameBrowsers(s, t)
    ensures Apart(t) && (Covered(t) <==> Covered(s))
  {
    SelfHolds(s.live);
    forall i | 0 <= i < |t.live| ensures Holds(s.live, t.live[i].bot, t.live[i].context) {
      assert t.live[i].bot == s.live[i].bot && t.live[i].context == s.live[i].context;
    }
    FoundStays(s, t);
    forall c ensures Up(t.live, c) <==> Up(s.live, c) {
      if Up(s.live, c) {
        var i :| 0 <= i < |s.live| && s.live[i].context == c;
        assert t.live[i].context == c;
      }
    }
  }

  lemma PastGateCovered(s: State, bot: Bot, arrived: nat, now: int, healthy: bool)
    requires Apart(s)
    ensures Apart(PastGate(s, bot, arrived, now, healthy))
    ensures Covered(PastGate(s, bot, arrived, now, healthy)) <==> Covered(s)
  {
    var t := PastGate(s, bot, arrived, now, healthy);
    if bot !in s.starting && Has(s.live, bot) && !healthy {
      forall k | 0 <= k < |t.calls| ensures Found(t, t.calls[k]) {
        if k < |s.calls| { assert Found(s, s.calls[k]); }
      }
      assert SameGone(s, t) && t.live == s.live;
    } else {
      SameBrowsersCovered(s, t);
    }
  }

  /** Taking a Bot's browser out of the map. */
  lemma WithoutIsUp(live: seq<Browser>, bot: Bot)
    ensures forall c :: Up(live, c) <==> Up(Without(live, bot), c) || (Has(live, bot) && live[Place(live, bot)].context == c)
  {
    var less, at := Without(live, bot), Place(live, bot);
    forall c ensures Up(live, c) <==> Up(less, c) || (Has(live, bot) && live[at].context == c) {
      if Up(live, c) {
        var i :| 0 <= i < |live| && live[i].context == c;
        if Has(live, bot) && i != at {
          assert less[if i < at then i else i - 1].context == c;
        }
      }
      if Up(less, c) {
        var i :| 0 <= i < |less| && less[i].context == c;
        assert live[if Has(live, bot) && i >= at then i + 1 else i].context == c;
      }
    }
  }

  /** Fewer browsers in the map, in their order, and what left it is among the gone. */
  lemma LessIsApart(s: State, bot: Bot, t: State)
    requires Apart(s) && t.live == Without(s.live, bot) && t.browsers == s.browsers
    requires forall c | Gone(t, c) :: Gone(s, c) || (c in s.browsers && !Up(t.live, c))
    requires forall k | 0 <= k < |t.calls| && t.calls[k].Replacing? :: t.calls[k] in s.calls
    ensures Apart(t)
  {
    var at := Place(s.live, bot);
    forall i | 0 <= i < |t.live| ensures t.live[i] == s.live[if Has(s.live, bot) && i >= at then i + 1 else i] {
    }
    forall i | 0 <= i < |t.live| ensures t.live[i].context in t.browsers && !Gone(t, t.live[i].context) {
      assert Up(t.live, t.live[i].context) && !Gone(s, t.live[i].context);
    }
    forall i, j | 0 <= i < j < |t.live| ensures t.live[i].context != t.live[j].context {
    }
    assert forall c | Gone(t, c) :: c in t.browsers;
    WithoutHolds(s.live, bot);
    FoundStays(s, t);
  }

  /** Closing a browser hands it on: none is lost, and none found. */
  lemma EvictCovered(s: State, bot: Bot)
    requires Apart(s)
    ensures Apart(EvictNow(s, bot)) && (Covered(EvictNow(s, bot)) <==> Covered(s))
  {
    if Has(s.live, bot) {
      var t, at := EvictNow(s, bot), Place(s.live, bot);
      var context := s.live[at].context;
      assert forall c :: Gone(t, c) <==> Gone(s, c) || c == context by {
        SectionAccounted(s.(live := Without(s.live, bot)), bot, context);
      }
      OnceUp(s, bot);
      LessIsApart(s, bot, t);
      WithoutIsUp(s.live, bot);
    }
  }

  /** What is taken out of the map is not left there under another Bot. */
  lemma OnceUp(s: State, bot: Bot)
    requires Apart(s) && Has(s.live, bot)
    ensures !Up(Without(s.live, bot), s.live[Place(s.live, bot)].context)
  {
    var less, at := Without(s.live, bot), Place(s.live, bot);
    forall i | 0 <= i < |less| ensures less[i].context != s.live[at].context {
      assert less[i] == s.live[if i < at then i else i + 1];
    }
  }

  lemma CapTurnCovered(s: State, launch: nat, rest: seq<Bot>)
    requires Apart(s) && launch < |s.launches|
    ensures Apart(CapTurn(s, launch, rest)) && (Covered(CapTurn(s, launch, rest)) <==> Covered(s))
  {
    var t := if rest == [] then s else EvictNow(s, rest[0]);
    if rest != [] { EvictCovered(s, rest[0]); }
    SameBrowsersCovered(t, CapTurn(s, launch, rest));
  }

  /** A browser that comes up is new; what the map had for its Bot is nowhere in it after that. */
  lemma ArriveIsUp(s: State, launch: nat, context: nat, now: int)
    requires Apart(s) && Enabled(s, Open(launch, context, now))
    ensures var at, t := Place(s.live, s.launches[launch].bot), Arrive(s, launch, context, now);
      forall c :: Up(t.live, c) <==> c == context || (Up(s.live, c) && (at < |s.live| ==> c != s.live[at].context))
  {
    var at, t := Place(s.live, s.launches[launch].bot), Arrive(s, launch, context, now);
    assert t.live[at].context == context;
    forall i | 0 <= i < |t.live| && i != at ensures i < |s.live| && t.live[i] == s.live[i] {
    }
    forall c ensures Up(t.live, c) <==> c == context || (Up(s.live, c) && (at < |s.live| ==> c != s.live[at].context)) {
      if Up(t.live, c) && c != context {
        var i :| 0 <= i < |t.live| && t.live[i].context == c;
        assert s.live[i].context == c;
      }
      if Up(s.live, c) && (at < |s.live| ==> c != s.live[at].context) {
        var i :| 0 <= i < |s.live| && s.live[i].context == c;
        assert t.live[i].context == c;
      }
    }
  }

  lemma ArriveApart(s: State, launch: nat, context: nat, now: int)
    requires Apart(s) && Enabled(s, Open(launch, context, now))
    ensures Apart(Arrive(s, launch, context, now))
  {
    var at, t := Place(s.live, s.launches[launch].bot), Arrive(s, launch, context, now);
    forall i | 0 <= i < |t.live|
      ensures if i == at then t.live[i].context == context else i < |s.live| && t.live[i] == s.live[i]
    {
    }
    assert !Gone(s, context) && SameGone(s, t);
    forall k | 0 <= k < |t.calls| ensures Found(t, t.calls[k]) {
      assert Found(s, s.calls[k]);
    }
  }

  lemma ArriveCovered(s: State, launch: nat, context: nat, now: int)
    requires Apart(s) && Covered(s) && Enabled(s, Open(launch, context, now))
    ensures Covered(Arrive(s, launch, context, now)) <==> !Has(s.live, s.launches[launch].bot)
  {
    var at, t := Place(s.live, s.launches[launch].bot), Arrive(s, launch, context, now);
    ArriveIsUp(s, launch, context, now);
    assert SameGone(s, t);
    if at < |s.live| {
      assert s.live[at].context in t.browsers && !Gone(t, s.live[at].context);
    }
  }

  /** What a replacement closed is not in the map under another Bot. */
  lemma ReplacedIsDown(s: State, call: nat)
    requires Apart(s) && OneEach(s.live) && Enabled(s, Replace(call))
    ensures !Up(Without(s.live, s.calls[call].bot), s.calls[call].context)
  {
    var c := s.calls[call];
    var less, at := Without(s.live, c.bot), Place(s.live, c.bot);
    assert Found(s, c);
    forall i | 0 <= i < |less| ensures less[i].context != c.context {
      var j := if Has(s.live, c.bot) && i >= at then i + 1 else i;
      assert less[i] == s.live[j] && j != at;
    }
  }

  lemma ReplaceCovered(s: State, call: nat)
    requires Apart(s) && Covered(s) && OneEach(s.live) && Enabled(s, Replace(call))
    ensures Apart(Step(s, Replace(call))) && (Covered(Step(s, Replace(call))) <==> !Loses(s, Replace(call)))
  {
    var c, t := s.calls[call], Step(s, Replace(call));
    var at := Place(s.live, c.bot);
    assert Found(s, c);
    assert forall x :: Gone(t, x) <==> Gone(s, x) || x == c.context;
    ReplacedIsDown(s, call);
    LessIsApart(s, c.bot, t);
    WithoutIsUp(s.live, c.bot);
    if Has(s.live, c.bot) {
      OnceUp(s, c.bot);
      assert s.live[at].context in t.browsers && (Gone(t, s.live[at].context) <==> s.live[at].context == c.context);
    }
  }

  lemma CloseAllCovered(s: State)
    requires Apart(s)
    ensures Apart(Step(s, CloseAll)) && (Covered(Step(s, CloseAll)) <==> Covered(s))
  {
    var t := Step(s, CloseAll);
    forall c ensures c in Contexts(s.live) <==> Up(s.live, c) {
      if c in Contexts(s.live) { var i :| 0 <= i < |Ids(s.live)| && Ids(s.live)[i] == c; }
      if Up(s.live, c) {
        var i :| 0 <= i < |s.live| && s.live[i].context == c;
        assert Ids(s.live)[i] == c;
      }
    }
    assert forall c :: Gone(t, c) <==> Gone(s, c) || Up(s.live, c);
    forall k | 0 <= k < |t.calls| ensures Found(t, t.calls[k]) { assert Found(s, s.calls[k]); }
  }

  lemma StrandCovered(s: State, launch: nat, context: nat)
    requires Apart(s) && Enabled(s, Strand(launch, context))
    ensures Apart(Step(s, Strand(launch, context))) && !Covered(Step(s, Strand(launch, context)))
  {
    var t := Step(s, Strand(launch, context));
    assert context in t.browsers && !Up(t.live, context) && !Gone(t, context) && SameGone(s, t);
    forall k | 0 <= k < |t.calls| ensures Found(t, t.calls[k]) { assert Found(s, s.calls[k]); }
  }

  lemma SectionCovered(s: State, section: nat, to: Section)
    requires Apart(s) && section < |s.sections| && to.context == s.sections[section].context
    ensures var t := s.(sections := s.sections[section := to]); Apart(t) && (Covered(t) <==> Covered(s))
  {
    var t := s.(sections := s.sections[section := to]);
    ClosingUpdated(s.sections, section, to);
    assert SameGone(s, t);
    SameBrowsersCovered(s, t);
  }

  lemma GuardCovered(s: State, bot: Bot)
    requires Apart(s)
    ensures Apart(OpenSection(s, bot, None)) && (Covered(OpenSection(s, bot, None)) <==> Covered(s))
  {
    SectionAccounted(s, bot, 0);
    assert SameGone(s, OpenSection(s, bot, None));
    SameBrowsersCovered(s, OpenSection(s, bot, None));
  }

  lemma CallCovered(s: State, e: Event)
    requires Apart(s) && Enabled(s, e) && (e.Ask? || e.Admit?)
    ensures Apart(Step(s, e)) && (Covered(Step(s, e)) <==> Covered(s))
  {
    match e
    case Ask(bot, now, healthy) =>
      if bot in s.closing { SameBrowsersCovered(s, Step(s, e)); } else { PastGateCovered(s, bot, |s.sections|, now, healthy); }
    case Admit(call, now, healthy) =>
      var t := s.(calls := s.calls[call := Past]);
      SameBrowsersCovered(s, t);
      PastGateCovered(t, s.calls[call].bot, s.calls[call].arrived, now, healthy);
  }

  lemma OpenCovered(s: State, launch: nat, context: nat, now: int)
    requires Apart(s) && Covered(s) && Enabled(s, Open(launch, context, now))
    ensures var t := Step(s, Open(launch, context, now));
      Apart(t) && (Covered(t) <==> !Has(s.live, s.launches[launch].bot))
  {
    var up := Arrive(s, launch, context, now);
    ArriveApart(s, launch, context, now);
    ArriveCovered(s, launch, context, now);
    CapTurnCovered(up, launch, ChooseEvictions(up.live, s.cap));
  }

  /** A step loses a browser exactly when it is one of those three. */
  lemma StepCovered(s: State, e: Event)
    requires Apart(s) && Covered(s) && OneEach(s.live) && Enabled(s, e)
    ensures Apart(Step(s, e)) && (Covered(Step(s, e)) <==> !Loses(s, e))
  {
    match e
    case Ask(_, _, _) => CallCovered(s, e);
    case Admit(_, _, _) => CallCovered(s, e);
    case Replace(call) => ReplaceCovered(s, call);
    case Open(launch, context, now) => OpenCovered(s, launch, context, now);
    case Strand(launch, context) => StrandCovered(s, launch, context);
    case Cap(launch) => CapTurnCovered(s, launch, s.launches[launch].phase.rest);
    case Evict(bot) => EvictCovered(s, bot);
    case CloseAll => CloseAllCovered(s);
    case Guard(bot) => GuardCovered(s, bot);
    case Finish(section) => SectionCovered(s, section, s.sections[section].(finished := true));
    case Settle(section) => SectionCovered(s, section, s.sections[section].(settled := true));
    case _ => SameBrowsersCovered(s, Step(s, e));
  }

  ghost predicate CoveredThroughout(s: State, events: seq<Event>)
    requires IsRun(s, events)
    decreases |events|
  {
    Covered(s) && (events != [] ==> CoveredThroughout(Step(s, events[0]), events[1..]))
  }

  ghost predicate NeverLoses(s: State, events: seq<Event>)
    requires IsRun(s, events)
    decreases |events|
  {
    events != [] ==> !Loses(s, events[0]) && NeverLoses(Step(s, events[0]), events[1..])
  }

  /**
   * In every run each browser opened is in the map, or was handed to a section to close, or was dropped, throughout,
   * exactly when no launch is stranded, no replacement takes another browser than its own out of the map, and no
   * launch comes up over a browser the map already has for its Bot.
   */
  lemma {:induction false} NoBrowserIsLost(s: State, events: seq<Event>)
    requires Covered(s) && Apart(s) && Capped(s) && IsRun(s, events)
    ensures CoveredThroughout(s, events) <==> NeverLoses(s, events)
    decreases |events|
  {
    if events != [] {
      StepCovered(s, events[0]);
      StepKeepsCap(s, events[0]);
      if !Loses(s, events[0]) { NoBrowserIsLost(Step(s, events[0]), events[1..]); }
    }
  }

  /** A run that counts every browser once loses none. */
  lemma {:induction false} CountedIsNotLost(s: State, events: seq<Event>)
    requires Accounted(s) && Single(s) && Capped(s) && Traced(s) && IsRun(s, events) && AlwaysKeepsCount(s, events)
    ensures NeverLoses(s, events)
    decreases |events|
  {
    if events != [] {
      var e := events[0];
      StepAccounted(s, e);
      OwnIsNoOverlap(s, e);
      StepSingle(s, e);
      StepKeepsCap(s, e);
      StepKeepsTraced(s, e);
      CountedIsNotLost(Step(s, e), events[1..]);
    }
  }

  // ----- the idle sweep, between its closes -----

  /** The event uses the Bot's browser, or is a new one coming up. */
  predicate Touches(s: State, e: Event, bot: Bot) {
    match e
    case Ask(b, _, healthy) => b == bot && healthy && bot !in s.closing && bot !in s.starting && Has(s.live, bot)
    case Admit(call, _, healthy) =>
      && call < |s.calls| && s.calls[call].AtGate? && s.calls[call].bot == bot
      && healthy && bot !in s.starting && Has(s.live, bot)
    case Open(launch, _, _) => launch < |s.launches| && s.launches[launch].bot == bot
    case _ => false
  }

  /** When the last of a run's events to touch the Bot's browser did so, if any does. */
  ghost function LastTouch(s: State, events: seq<Event>, bot: Bot): Option<int>
    requires IsRun(s, events)
    decreases |events|
  {
    if events == [] then None
    else
      var later := LastTouch(Step(s, events[0]), events[1..], bot);
      if later.Some? then later else if Touches(s, events[0], bot) then Some(events[0].now) else None
  }

  /** What the map has for a Bot. */
  function Entry(live: seq<Browser>, bot: Bot): Option<Browser> {
    if Has(live, bot) then Some(live[Place(live, bot)]) else None
  }

  lemma EntryAt(live: seq<Browser>, i: nat)
    requires OneEach(live) && i < |live|
    ensures Entry(live, live[i].bot) == Some(live[i])
  {
  }

  lemma EntryWithout(live: seq<Browser>, gone: Bot, bot: Bot)
    requires OneEach(live)
    ensures Entry(Without(live, gone), bot) == if bot == gone then None else Entry(live, bot)
  {
    WithoutOne(live, gone);
    WithoutHasLess(live, gone);
    if bot != gone && Has(live, bot) {
      var less, at := Without(live, gone), Place(live, gone);
      var i := Place(less, bot);
      assert less[i] == live[if Has(live, gone) && i >= at then i + 1 else i];
      EntryAt(live, if Has(live, gone) && i >= at then i + 1 else i);
    }
  }

  lemma EntryPut(live: seq<Browser>, browser: Browser, bot: Bot)
    requires OneEach(live)
    ensures Entry(Put(live, browser), bot) == if bot == browser.bot then Some(browser) else Entry(live, bot)
  {
    PutOne(live, browser);
    var more := Put(live, browser);
    EntryAt(more, Place(live, browser.bot));
    if bot != browser.bot && Has(live, bot) {
      assert more[Place(live, bot)] == live[Place(live, bot)];
      EntryAt(more, Place(live, bot));
    }
    if bot != browser.bot && Has(more, bot) {
      assert more[Place(more, bot)] == live[Place(more, bot)];
    }
  }

  /** Evicting, itself or in `enforceCap`, leaves a Bot's entry as it was, or none. */
  lemma EntryAfterEvict(s: State, gone: Bot, bot: Bot)
    requires OneEach(s.live)
    ensures Entry(EvictNow(s, gone).live, bot) == Entry(s.live, bot) || Entry(EvictNow(s, gone).live, bot) == None
  {
    EntryWithout(s.live, gone, bot);
  }

  lemma EntryAfterCap(s: State, launch: nat, rest: seq<Bot>, bot: Bot)
    requires OneEach(s.live) && launch < |s.launches|
    ensures var left := Entry(CapTurn(s, launch, rest).live, bot); left == Entry(s.live, bot) || left == None
  {
    if rest != [] { EntryAfterEvict(s, rest[0], bot); }
  }

  lemma EntryPastGate(s: State, asker: Bot, arrived: nat, now: int, healthy: bool, bot: Bot)
    requires OneEach(s.live)
    ensures Entry(PastGate(s, asker, arrived, now, healthy).live, bot) ==
      if asker == bot && healthy && bot !in s.starting && Has(s.live, bot) then Some(Entry(s.live, bot).value.(usedAt := now))
      else Entry(s.live, bot)
  {
    if asker !in s.starting && Has(s.live, asker) && healthy {
      EntryPut(s.live, s.live[Place(s.live, asker)].(usedAt := now), bot);
    }
  }

  /** A step leaves a Bot's browser as it was, or takes it out of the map, or touches it at the time it reads. */
  lemma StepTouches(s: State, e: Event, bot: Bot)
    requires OneEach(s.live) && Enabled(s, e)
    ensures var left := Entry(Step(s, e).live, bot);
      left == None || if Touches(s, e, bot) then left.value.usedAt == e.now else left == Entry(s.live, bot)
  {
    match e
    case Ask(asker, now, healthy) => EntryPastGate(s, asker, |s.sections|, now, healthy, bot);
    case Admit(call, now, healthy) =>
      EntryPastGate(s.(calls := s.calls[call := Past]), s.calls[call].bot, s.calls[call].arrived, now, healthy, bot);
    case Replace(call) => EntryWithout(s.live, s.calls[call].bot, bot);
    case Open(launch, context, now) =>
      var browser := Browser(s.launches[launch].bot, context, now);
      PutOne(s.live, browser);
      EntryPut(s.live, browser, bot);
      EntryAfterCap(Arrive(s, launch, context, now), launch, ChooseEvictions(Put(s.live, browser), s.cap), bot);
    case Cap(launch) => EntryAfterCap(s, launch, s.launches[launch].phase.rest, bot);
    case Evict(gone) => EntryAfterEvict(s, gone, bot);
    case _ =>
  }

  /** After a run the map has a Bot's browser as its last touch left it, or as it was, or has none. */
  lemma {:induction false} LastTouchStands(s: State, events: seq<Event>, bot: Bot)
    requires Capped(s) && IsRun(s, events)
    ensures var left, last := Entry(After(s, events).live, bot), LastTouch(s, events, bot);
      left == None || if last.Some? then left.value.usedAt == last.value else left == Entry(s.live, bot)
    decreases |events|
  {
    if events != [] {
      StepTouches(s, events[0], bot);
      StepKeepsCap(s, events[0]);
      LastTouchStands(Step(s, events[0]), events[1..], bot);
    }
  }

  lemma {:induction false} TouchedSince(s: State, events: seq<Event>, bot: Bot, time: int)
    requires IsRun(s, events) && forall e | e in events :: NotBefore(e, time)
    ensures LastTouch(s, events, bot).Some? ==> time <= LastTouch(s, events, bot).value
    decreases |events|
  {
    if events != [] {
      assert NotBefore(events[0], time);
      TouchedSince(Step(s, events[0]), events[1..], bot, time);
    }
  }

  /**
   * A sweep chooses its Bots at one time and closes them one after another, awaiting each. Whatever happens before a
   * Bot's turn, the browser it closes was used within the timeout of the choice exactly when it was last used or
   * launched since then at such a time: with a clock that does not run back, when it was at all.
   */
  lemma SweepClosesOneInUse(s: State, events: seq<Event>, bot: Bot, timeout: int, now: int)
    requires Capped(s) && bot in ChooseIdle(s.live, timeout, now) && IsRun(s, events)
    requires Has(After(s, events).live, bot)
    ensures var inUse, last := now - Entry(After(s, events).live, bot).value.usedAt < timeout, LastTouch(s, events, bot);
      && (inUse <==> last.Some? && now - last.value < timeout)
      && ((forall e | e in events :: NotBefore(e, now)) ==> (inUse <==> last.Some?))
  {
    LastTouchStands(s, events, bot);
    assert OneEach(s.live);
    var i :| 0 <= i < |s.live| && s.live[i].bot == bot && now - s.live[i].usedAt >= timeout;
    EntryAt(s.live, i);
    if forall e | e in events :: NotBefore(e, now) { TouchedSince(s, events, bot, now); }
  }

  // ----- what each event does -----

  /** One launch of the Bot is added, for a call that came in when so many sections were registered; `starting` holds it. */
  ghost predicate Launches(s: State, t: State, bot: Bot, arrived: nat) {
    && t.launches == s.launches + [Launch(bot, arrived, Opening)]
    && (forall b :: b in t.starting <==> b in s.starting || b == bot) && t.starting[bot] == |s.launches|
    && forall b | b in s.starting && b != bot :: t.starting[b] == s.starting[b]
  }

  ghost predicate NoNewLaunch(s: State, t: State) {
    t.launches == s.launches && t.starting == s.starting
  }

  /** The map's one record of a Bot. */
  ghost predicate IsRecord(live: seq<Browser>, i: nat, bot: Bot) {
    i < |live| && live[i].bot == bot
  }

  /**
   * What becomes of a call that nothing holds back: it joins the launch in flight; or begins one, when there is no
   * browser; or uses the browser there is; or waits for what is half-dead to close. `waiting` is the calls without it.
   */
  ghost predicate GoesOn(s: State, t: State, waiting: seq<Call>, bot: Bot, arrived: nat, now: int, healthy: bool) {
    && SameSections(s, t) && t.browsers == s.browsers && t.dropped == s.dropped
    && if bot in s.starting then NoNewLaunch(s, t) && t.live == s.live && t.calls == waiting
       else if forall i: nat :: !IsRecord(s.live, i, bot) then Launches(s, t, bot, arrived) && t.live == s.live && t.calls == waiting
       else
         && NoNewLaunch(s, t)
         && exists i: nat :: IsRecord(s.live, i, bot) &&
              if healthy then
                && t.calls == waiting && t.clock == now && |t.live| == |s.live| && t.live[i] == Browser(bot, s.live[i].context, now)
                && forall j | 0 <= j < |s.live| && j != i :: t.live[j] == s.live[j]
              else t.live == s.live && t.calls == waiting + [Replacing(bot, s.live[i].context, arrived)]
  }

  lemma PastGateGoesOn(s: State, bot: Bot, arrived: nat, now: int, healthy: bool)
    ensures GoesOn(s, PastGate(s, bot, arrived, now, healthy), s.calls, bot, arrived, now, healthy)
  {
    var i := Place(s.live, bot);
    if i < |s.live| { assert IsRecord(s.live, i, bot); }
  }

  /** A call is held at the gate exactly while `closing` has its Bot; else, and once admitted, it goes on. */
  lemma CallGoesOn(s: State, e: Event)
    requires Enabled(s, e) && (e.Ask? || e.Admit?)
    ensures var t := Step(s, e);
      if e.Admit? then
        var c := s.calls[e.call];
        GoesOn(s, t, s.calls[e.call := Past], c.bot, c.arrived, e.now, e.healthy)
      else if e.bot in s.closing then t == s.(calls := s.calls + [AtGate(e.bot, s.closing[e.bot], |s.sections|)])
      else GoesOn(s, t, s.calls, e.bot, |s.sections|, e.now, e.healthy)
  {
    match e
    case Ask(bot, now, healthy) => if bot !in s.closing { PastGateGoesOn(s, bot, |s.sections|, now, healthy); }
    case Admit(call, now, healthy) =>
      PastGateGoesOn(s.(calls := s.calls[call := Past]), s.calls[call].bot, s.calls[call].arrived, now, healthy);
  }

  /** A replacement takes its Bot's record out of the map, whatever it is, and always launches. */
  lemma ReplacementLaunches(s: State, call: nat)
    requires OneEach(s.live) && Enabled(s, Replace(call))
    ensures var t, c := Step(s, Replace(call)), s.calls[call];
      && Launches(s, t, c.bot, c.arrived) && t.calls == s.calls[call := Past] && t.dropped == s.dropped + multiset{c.context}
      && SameSections(s, t) && t.browsers == s.browsers
      && forall b :: Entry(t.live, b) == if b == c.bot then None else Entry(s.live, b)
  {
    forall b ensures Entry(Without(s.live, s.calls[call].bot), b) == if b == s.calls[call].bot then None else Entry(s.live, b) {
      EntryWithout(s.live, s.calls[call].bot, b);
    }
  }

  /** The event settles what the `k`th call waited for, and the call goes on as it must. */
  ghost predicate WentOn(s: State, e: Event, k: nat)
    requires Enabled(s, e) && k < |s.calls|
  {
    match s.calls[k]
    case AtGate(bot, _, arrived) =>
      e.Admit? && e.call == k && GoesOn(s, Step(s, e), s.calls[k := Past], bot, arrived, e.now, e.healthy)
    case Replacing(bot, _, arrived) => e == Replace(k) && Launches(s, Step(s, e), bot, arrived)
    case Past => false
  }

  lemma CallsStay(s: State, e: Event, k: nat)
    requires OneEach(s.live) && Enabled(s, e) && k < |s.calls|
    ensures k < |Step(s, e).calls| && (Step(s, e).calls[k] == s.calls[k] || (Step(s, e).calls[k].Past? && WentOn(s, e, k)))
  {
    match e
    case Ask(bot, now, healthy) =>
    case Admit(call, now, healthy) => CallGoesOn(s, e);
    case Replace(call) => ReplacementLaunches(s, call);
    case Open(launch, context, now) =>
      var up := Arrive(s, launch, context, now);
      CapTurnLeavesCalls(up, launch, ChooseEvictions(up.live, s.cap));
    case Cap(launch) => CapTurnLeavesCalls(s, launch, s.launches[launch].phase.rest);
    case _ =>
  }

  lemma CapTurnLeavesCalls(s: State, launch: nat, rest: seq<Bot>)
    requires launch < |s.launches|
    ensures CapTurn(s, launch, rest).calls == s.calls
  {
  }

  /** Somewhere in the run the call is let go on, and goes on. */
  ghost predicate IsServed(s: State, events: seq<Event>, k: nat)
    requires IsRun(s, events) && k < |s.calls|
    decreases |events|
  {
    events != [] && (WentOn(s, events[0], k) || (k < |Step(s, events[0]).calls| && IsServed(Step(s, events[0]), events[1..], k)))
  }

  /** In every run a call that waits goes on waiting for the same, until it joins, uses, replaces or launches a browser. */
  lemma {:induction false} NoCallIsForgotten(s: State, events: seq<Event>, k: nat)
    requires Capped(s) && IsRun(s, events) && k < |s.calls| && !s.calls[k].Past?
    ensures k < |After(s, events).calls|
    ensures After(s, events).calls[k] == s.calls[k] || IsServed(s, events, k)
    decreases |events|
  {
    if events != [] {
      var t := Step(s, events[0]);
      CallsStay(s, events[0], k);
      StepKeepsCap(s, events[0]);
      if t.calls[k] == s.calls[k] {
        NoCallIsForgotten(t, events[1..], k);
      } else {
        CallsLast(t, events[1..], k);
      }
    }
  }

  lemma {:induction false} CallsLast(s: State, events: seq<Event>, k: nat)
    requires Capped(s) && IsRun(s, events) && k < |s.calls|
    ensures k < |After(s, events).calls|
    decreases |events|
  {
    if events != [] {
      CallsStay(s, events[0], k);
      StepKeepsCap(s, events[0]);
      CallsLast(Step(s, events[0]), events[1..], k);
    }
  }

  /** A section is added that closes such a browser; its promise chains on the one `closing` held and takes its place. */
  ghost predicate Registers(s: State, t: State, bot: Bot, context: Option<nat>) {
    && |t.sections| == |s.sections| + 1 && t.sections[..|s.sections|] == s.sections
    && t.sections[|s.sections|] ==
         Section(bot, if bot in s.closing then Some(s.closing[bot]) else None, context, false, false)
    && (forall b :: b in t.closing <==> b in s.closing || b == bot) && t.closing[bot] == |s.sections|
    && forall b | b in s.closing && b != bot :: t.closing[b] == s.closing[b]
  }

  /** A launch that had to close another browser answers once that close is done, and not before. */
  lemma CapIsWaitedFor(s: State, launch: nat)
    requires Capped(s) && launch < |s.launches| && s.launches[launch].phase.Capping?
    ensures var w := s.launches[launch].phase.waitsFor;
      Enabled(s, Cap(launch)) <==> (w.Some? ==> w.value < |s.sections| && s.sections[w.value].finished)
    ensures Enabled(s, Cap(launch)) ==>
      var t, l := Step(s, Cap(launch)), s.launches[launch];
      t == s.(launches := t.launches) && t.launches == s.launches[launch := Launch(l.bot, l.arrived, Answered)]
  {
  }

  /** Closing takes one record out of the map at once, and registers the close of its browser after the last one of its Bot. */
  lemma EvictionCloses(s: State, bot: Bot)
    requires OneEach(s.live)
    ensures var t := Step(s, Evict(bot));
      match Entry(s.live, bot)
      case None => t == s
      case Some(browser) =>
        && (forall b :: Entry(t.live, b) == if b == bot then None else Entry(s.live, b))
        && Registers(s, t, bot, Some(browser.context)) && NoNewLaunch(s, t) && t.calls == s.calls
        && t.browsers == s.browsers && t.dropped == s.dropped
  {
    forall b ensures Entry(Without(s.live, bot), b) == if b == bot then None else Entry(s.live, b) {
      EntryWithout(s.live, bot, b);
    }
  }

  /** A browser that comes up is its Bot's, used at that moment, unless it is the one the cap closes; it is counted as opened. */
  lemma LaunchComesUp(s: State, launch: nat, context: nat, now: int)
    requires Capped(s) && Enabled(s, Open(launch, context, now))
    ensures var t, bot := Step(s, Open(launch, context, now)), s.launches[launch].bot;
      var victims := ChooseEvictions(Put(s.live, Browser(bot, context, now)), s.cap);
      && t.browsers == s.browsers + multiset{context} && t.starting == s.starting && t.calls == s.calls && t.dropped == s.dropped
      && (forall b :: Entry(t.live, b) ==
            if b in victims then None else if b == bot then Some(Browser(bot, context, now)) else Entry(s.live, b))
      && |t.sections| == |s.sections| + |victims|
      && t.launches[launch].phase == if victims == [] then Answered else Capping([], Some(|s.sections|))
  {
    var up := Arrive(s, launch, context, now);
    OneTooManyAtMost(s, launch, context, now);
    OneIsClosed(up, launch);
    forall b ensures Entry(up.live, b) == if b == s.launches[launch].bot then Some(Browser(b, context, now)) else Entry(s.live, b) {
      EntryPut(s.live, Browser(s.launches[launch].bot, context, now), b);
    }
  }

  /** The first turn of `enforceCap` closes the one victim there may be. */
  lemma OneIsClosed(s: State, launch: nat)
    requires OneEach(s.live) && launch < |s.launches| && |ChooseEvictions(s.live, s.cap)| <= 1
    ensures var t, victims := CapTurn(s, launch, ChooseEvictions(s.live, s.cap)), ChooseEvictions(s.live, s.cap);
      && t.browsers == s.browsers && t.starting == s.starting && t.calls == s.calls && t.dropped == s.dropped
      && (forall b :: Entry(t.live, b) == if b in victims then None else Entry(s.live, b))
      && |t.sections| == |s.sections| + |victims|
      && t.launches[launch].phase == if victims == [] then Answered else Capping([], Some(|s.sections|))
  {
    var victims := ChooseEvictions(s.live, s.cap);
    if victims != [] {
      assert victims[0] in victims && victims == [victims[0]];
      assert Has(s.live, victims[0]) by { VictimsAreRunning(s.live, s.cap); }
      TurnCloses(s, launch, victims[0]);
    }
  }

  lemma TurnCloses(s: State, launch: nat, bot: Bot)
    requires OneEach(s.live) && launch < |s.launches| && Has(s.live, bot)
    ensures var t := CapTurn(s, launch, [bot]);
      && t.browsers == s.browsers && t.starting == s.starting && t.calls == s.calls && t.dropped == s.dropped
      && (forall b :: Entry(t.live, b) == if b == bot then None else Entry(s.live, b))
      && |t.sections| == |s.sections| + 1 && t.launches[launch].phase == Capping([], Some(|s.sections|))
  {
    EvictionCloses(s, bot);
  }

  lemma GuardRegisters(s: State, bot: Bot)
    ensures var t := Step(s, Guard(bot)); Registers(s, t, bot, None) && t.live == s.live && NoNewLaunch(s, t) && t.calls == s.calls
  {
  }

  /** Once the last close of a Bot is over its gate is open again; an earlier one's end leaves it shut. */
  lemma LastReleaseOpensTheGate(s: State, section: nat)
    requires Enabled(s, Release(section))
    ensures var t, bot := Step(s, Release(section)), s.sections[section].bot;
      && t == s.(closing := t.closing)
      && (bot in t.closing <==> bot in s.closing && s.closing[bot] != section)
      && forall b | b != bot || b in t.closing :: (b in t.closing <==> b in s.closing) && (b in s.closing ==> t.closing[b] == s.closing[b])
  {
  }

  /** A launch that is over, however it went, holds nothing of its Bot's back: the next call begins another or uses what is there. */
  lemma LaunchOverFrees(s: State, launch: nat)
    requires Enabled(s, Forget(launch))
    ensures var t, bot := Step(s, Forget(launch)), s.launches[launch].bot;
      && bot !in t.starting && (forall b | b != bot :: b in t.starting <==> b in s.starting)
      && (forall b | b in t.starting :: t.starting[b] == s.starting[b])
      && t.live == s.live && t.calls == s.calls && SameSections(s, t) && !InFlight(t.launches[launch])
  {
  }

  /** Shutdown leaves no browser in the map, and every one that was there dropped. */
  lemma ShutdownDropsAll(s: State)
    ensures var t := Step(s, CloseAll);
      && t.live == [] && NoNewLaunch(s, t) && SameSections(s, t) && t.calls == s.calls && t.browsers == s.browsers
      && forall c :: t.dropped[c] == s.dropped[c] + multiset(Ids(s.live))[c]
  {
  }

  /** The work of a section ends, and later its promise resolves. Nothing else changes. */
  lemma SectionEnds(s: State, k: nat)
    ensures Enabled(s, Finish(k)) ==>
      var t := Step(s, Finish(k));
      t == s.(sections := t.sections) && t.sections == s.sections[k := s.sections[k].(finished := true)]
    ensures Enabled(s, Settle(k)) ==>
      var t := Step(s, Settle(k));
      t == s.(sections := t.sections) && t.sections == s.sections[k := s.sections[k].(settled := true)]
  {
  }

  /** A launch that fails answers, and changes nothing else, unless its browser is up and left behind. */
  lemma LaunchFails(s: State, launch: nat, context: nat)
    ensures Enabled(s, FailOpen(launch)) ==>
      var t, l := Step(s, FailOpen(launch)), s.launches[launch];
      t == s.(launches := t.launches) && t.launches == s.launches[launch := Launch(l.bot, l.arrived, Answered)]
    ensures Enabled(s, Strand(launch, context)) ==>
      var t, l := Step(s, Strand(launch, context)), s.launches[launch];
      && t == s.(launches := t.launches, browsers := t.browsers) && t.browsers == s.browsers + multiset{context}
      && t.launches == s.launches[launch := Launch(l.bot, l.arrived, Answered)]
  {
  }

  // ----- the gate can always be passed -----

  /** Only whether sections are finished and their promises resolved may differ. */
  ghost predicate OnlyEnds(s: State, t: State) {
    && t == s.(sections := t.sections) && |t.sections| == |s.sections|
    && forall k | 0 <= k < |s.sections| ::
         t.sections[k] == s.sections[k].(finished := t.sections[k].finished, settled := t.sections[k].settled)
  }

  /** The work of every section can end, a later one's first, as of a close that a reset waits for. */
  lemma {:induction false} SectionsCanFinish(s: State, n: nat) returns (events: seq<Event>)
    requires n <= |s.sections|
    ensures IsRun(s, events) && (forall e | e in events :: e.Finish? || e.Settle?) && OnlyEnds(s, After(s, events))
    ensures forall k | n <= k < |s.sections| :: After(s, events).sections[k].finished
    decreases |s.sections| - n
  {
    events := [];
    if n < |s.sections| {
      events := SectionsCanFinish(s, n + 1);
      if !After(s, events).sections[n].finished {
        RunGoesOn(s, events, Finish(n));
        events := events + [Finish(n)];
      }
    }
  }

  /** And then their promises resolve, in the order they were registered: none waits for a later one. */
  lemma {:induction false} SectionsCanEnd(s: State, n: nat) returns (events: seq<Event>)
    requires Gated(s) && n <= |s.sections|
    ensures IsRun(s, events) && (forall e | e in events :: e.Finish? || e.Settle?) && OnlyEnds(s, After(s, events))
    ensures forall k | 0 <= k < |s.sections| :: After(s, events).sections[k].finished
    ensures forall k | 0 <= k < n :: After(s, events).sections[k].settled
  {
    if n == 0 {
      events := SectionsCanFinish(s, 0);
    } else {
      events := SectionsCanEnd(s, n - 1);
      assert Chained(s, n - 1);
      events := OneCanSettle(s, events, n - 1);
    }
  }

  lemma OneCanSettle(s: State, events: seq<Event>, k: nat) returns (longer: seq<Event>)
    requires IsRun(s, events) && (forall e | e in events :: e.Finish? || e.Settle?) && OnlyEnds(s, After(s, events))
    requires k < |s.sections| && (s.sections[k].before.Some? ==> s.sections[k].before.value < k)
    requires forall j | 0 <= j < |s.sections| :: After(s, events).sections[j].finished
    requires forall j | 0 <= j < k :: After(s, events).sections[j].settled
    ensures IsRun(s, longer) && (forall e | e in longer :: e.Finish? || e.Settle?) && OnlyEnds(s, After(s, longer))
    ensures forall j | 0 <= j < |s.sections| :: After(s, longer).sections[j].finished
    ensures forall j | 0 <= j <= k :: After(s, longer).sections[j].settled
  {
    longer := events;
    if !After(s, events).sections[k].settled {
      RunGoesOn(s, events, Settle(k));
      longer := events + [Settle(k)];
    }
  }

  /** Whatever is closing, once it is over the gate of every Bot opens. */
  lemma GateCanOpen(s: State, bot: Bot) returns (events: seq<Event>)
    requires Gated(s) && bot in s.closing
    ensures IsRun(s, events) && (forall e | e in events :: e.Finish? || e.Settle? || e == Release(s.closing[bot]))
    ensures bot !in After(s, events).closing && After(s, events).calls == s.calls && After(s, events).live == s.live
  {
    assert Guarded(s, bot);
    var ends := SectionsCanEnd(s, |s.sections|);
    RunGoesOn(s, ends, Release(s.closing[bot]));
    events := ends + [Release(s.closing[bot])];
  }

  /** And a call that waits there can go on. */
  lemma CallCanGoOn(s: State, call: nat, now: int, healthy: bool) returns (events: seq<Event>)
    requires Gated(s) && call < |s.calls| && s.calls[call].AtGate?
    ensures IsRun(s, events) && (forall e | e in events :: e.Finish? || e.Settle?)
    ensures Enabled(After(s, events), Admit(call, now, healthy)) && WentOn(After(s, events), Admit(call, now, healthy), call)
  {
    assert Waited(s, s.calls[call]);
    events := SectionsCanEnd(s, |s.sections|);
    CallGoesOn(After(s, events), Admit(call, now, healthy));
  }

  // ----- runs in which they break -----

  lemma {:induction false} OneMoreEvent(s: State, events: seq<Event>, e: Event)
    requires IsRun(s, events) && IsRun(s, events + [e])
    ensures NeverOverlaps(s, events + [e]) <==> NeverOverlaps(s, events) && !Overlaps(After(s, events), e)
    ensures NeverLoses(s, events + [e]) <==> NeverLoses(s, events) && !Loses(After(s, events), e)
    ensures AlwaysKeepsCount(s, events + [e]) <==> AlwaysKeepsCount(s, events) && KeepsCount(After(s, events), e)
    decreases |events|
  {
    if events == [] {
      assert (events + [e])[0] == e;
    } else {
      assert (events + [e])[1..] == events[1..] + [e];
      OneMoreEvent(Step(s, events[0]), events[1..], e);
    }
  }

  /** A run without overlap and without loss. */
  ghost predicate IsSafe(s: State, events: seq<Event>) {
    IsRun(s, events) && NeverOverlaps(s, events) && NeverLoses(s, events)
  }

  lemma GoOn(s: State, events: seq<Event>, e: Event, t: State) returns (longer: seq<Event>)
    requires IsSafe(s, events) && Enabled(After(s, events), e) && Step(After(s, events), e) == t
    requires !Overlaps(After(s, events), e) && !Loses(After(s, events), e)
    ensures longer == events + [e] && IsSafe(s, longer) && After(s, longer) == t
  {
    RunGoesOn(s, events, e);
    OneMoreEvent(s, events, e);
    longer := events + [e];
  }

  /** A process in which one browser, of the Bot `b`, is up and has not been asked for since. */
  ghost predicate OneUp(s: State) {
    && s.cap == 3 && s.live == [Browser("b", 7, 10)] && s.starting == map[] && s.closing == map[] && s.sections == []
    && s.launches == [Launch("b", 0, Forgotten)] && s.browsers == multiset{7}
  }

  lemma FindsItHalfDead(s: State, now: int)
    requires OneUp(s)
    ensures Step(s, Ask("b", now, false)) == s.(calls := s.calls + [Replacing("b", 7, 0)])
    ensures OneUp(Step(s, Ask("b", now, false)))
  {
  }

  lemma StartingIsSafe()
    requires IsRun(Init(3, 0), Starting("b", 7))
    ensures IsSafe(Init(3, 0), Starting("b", 7))
  {
    var i, events := Init(3, 0), Starting("b", 7);
    var a := Step(i, events[0]);
    assert events[1..] == [events[1], events[2]] && events[1..][1..] == [events[2]];
    assert a.live == [] && !Loses(a, events[1]);
  }

  lemma OneUpRuns() returns (events: seq<Event>, s: State)
    ensures events == Starting("b", 7) + [Ask("b", 11, false)]
    ensures IsSafe(Init(3, 0), events) && After(Init(3, 0), events) == s && OneUp(s) && s.calls == [Replacing("b", 7, 0)]
  {
    var up := OneBrowserRuns("b", 7, 3);
    StartingIsSafe();
    FindsItHalfDead(up, 11);
    s := Step(up, Ask("b", 11, false));
    events := GoOn(Init(3, 0), Starting("b", 7), Ask("b", 11, false), s);
  }

  lemma OneReplaces(s: State)
    requires OneUp(s) && s.calls == [Replacing("b", 7, 0), Replacing("b", 7, 0)]
    ensures Enabled(s, Replace(0)) && !Overlaps(s, Replace(0)) && !Loses(s, Replace(0))
    ensures var t := Step(s, Replace(0));
      && t.cap == 3 && t.live == [] && "b" in t.starting && t.calls == [Past, Replacing("b", 7, 0)]
      && t.browsers == multiset{7} && t.launches == [Launch("b", 0, Forgotten), Launch("b", 0, Opening)]
  {
    assert s.calls[0 := Past] == [Past, Replacing("b", 7, 0)];
    assert Without(s.live, "b") == [];
  }

  /** Two calls find the same half-dead browser, and one of them has replaced it. */
  lemma OneReplacedRuns() returns (events: seq<Event>, s: State)
    ensures events == Starting("b", 7) + [Ask("b", 11, false)] + [Ask("b", 12, false)] + [Replace(0)]
    ensures IsSafe(Init(3, 0), events) && After(Init(3, 0), events) == s
    ensures s.cap == 3 && s.live == [] && "b" in s.starting && s.calls == [Past, Replacing("b", 7, 0)] && s.browsers == multiset{7}
    ensures s.launches == [Launch("b", 0, Forgotten), Launch("b", 0, Opening)]
  {
    var i := Init(3, 0);
    var run, a := OneUpRuns();
    FindsItHalfDead(a, 12);
    var b := Step(a, Ask("b", 12, false));
    assert b.calls == [Replacing("b", 7, 0), Replacing("b", 7, 0)];
    run := GoOn(i, run, Ask("b", 12, false), b);
    OneReplaces(b);
    s := Step(b, Replace(0));
    events := GoOn(i, run, Replace(0), s);
  }

  /** The second replacement puts a second launch of the Bot in flight. */
  lemma TwoCallsOverlap() returns (events: seq<Event>)
    ensures events == Starting("b", 7) + [Ask("b", 11, false)] + [Ask("b", 12, false)] + [Replace(0)] + [Replace(1)]
    ensures IsRun(Init(3, 0), events) && !NeverOverlaps(Init(3, 0), events) && !SingleThroughout(Init(3, 0), events)
  {
    var run, s := OneReplacedRuns();
    RunGoesOn(Init(3, 0), run, Replace(1));
    OneMoreEvent(Init(3, 0), run, Replace(1));
    events := run + [Replace(1)];
    FreshProcess(3, 0);
    OneLaunchAtATime(Init(3, 0), events);
  }

  /** And when both launches are up, the browser of the first is in no map: the second was set over it. */
  lemma SecondLaunchBuriesTheFirst() returns (events: seq<Event>)
    ensures events == Starting("b", 7) + [Ask("b", 11, false)] + [Ask("b", 12, false)] + [Replace(0)] + [Replace(1)]
      + [Open(1, 8, 13)] + [Open(2, 9, 14)]
    ensures IsRun(Init(3, 0), events) && !NeverLoses(Init(3, 0), events) && !CoveredThroughout(Init(3, 0), events)
  {
    var i := Init(3, 0);
    var run, s := OneReplacedRuns();
    RunGoesOn(i, run, Replace(1));
    OneMoreEvent(i, run, Replace(1));
    var t := Step(s, Replace(1));
    assert Without(s.live, "b") == [];
    FirstIsUp(t);
    RunGoesOn(i, run + [Replace(1)], Open(1, 8, 13));
    RunGoesOn(i, run + [Replace(1)] + [Open(1, 8, 13)], Open(2, 9, 14));
    OneMoreEvent(i, run + [Replace(1)] + [Open(1, 8, 13)], Open(2, 9, 14));
    events := run + [Replace(1)] + [Open(1, 8, 13)] + [Open(2, 9, 14)];
    FreshProcess(3, 0);
    NoBrowserIsLost(i, events);
  }

  lemma FirstIsUp(s: State)
    requires s.cap == 3 && s.live == [] && s.browsers == multiset{7}
    requires s.launches == [Launch("b", 0, Forgotten), Launch("b", 0, Opening), Launch("b", 0, Opening)]
    ensures Enabled(s, Open(1, 8, 13))
    ensures var t := Step(s, Open(1, 8, 13)); Enabled(t, Open(2, 9, 14)) && Loses(t, Open(2, 9, 14))
  {
    assert Put(s.live, Browser("b", 8, 13)) == [Browser("b", 8, 13)];
    var t := Step(s, Open(1, 8, 13));
    assert t.live == [Browser("b", 8, 13)] && t.launches[2] == s.launches[2];
  }

  /** The browser is stopped while the call that found it half-dead still waits. */
  lemma StopRuns(i: State, run: seq<Event>, s: State) returns (events: seq<Event>, t: State)
    requires IsSafe(i, run) && After(i, run) == s && OneUp(s)
    ensures events == run + [Evict("b")] && IsSafe(i, events) && After(i, events) == t
    ensures t == s.(live := [], sections := [Section("b", None, Some(7), false, false)], closing := map["b" := 0])
  {
    assert Without(s.live, "b") == [];
    t := s.(live := [], sections := [Section("b", None, Some(7), false, false)], closing := map["b" := 0]);
    assert Step(s, Evict("b")) == t;
    events := GoOn(i, run, Evict("b"), t);
  }

  /** Stopped, and then dropped by the call that had found it half-dead: counted twice, and not lost. */
  lemma CountedTwiceIsNotLost() returns (events: seq<Event>)
    ensures events == Starting("b", 7) + [Ask("b", 11, false)] + [Evict("b")] + [Replace(0)]
    ensures IsRun(Init(3, 0), events) && CoveredThroughout(Init(3, 0), events) && !AccountedThroughout(Init(3, 0), events)
  {
    var i := Init(3, 0);
    var run, s := OneUpRuns();
    run, s := StopRuns(i, run, s);
    RunGoesOn(i, run, Replace(0));
    OneMoreEvent(i, run, Replace(0));
    events := run + [Replace(0)];
    FreshProcess(3, 0);
    EachIsClosedOnce(i, events);
    NoBrowserIsLost(i, events);
  }

  /** And the close is over. */
  lemma StoppedRuns(i: State, run: seq<Event>, s: State) returns (events: seq<Event>, t: State)
    requires IsSafe(i, run) && After(i, run) == s
    requires s.sections == [Section("b", None, Some(7), false, false)] && s.closing == map["b" := 0]
    ensures events == run + [Finish(0)] + [Settle(0)] + [Release(0)] && IsSafe(i, events) && After(i, events) == t
    ensures t == s.(sections := [Section("b", None, Some(7), true, true)], closing := map[])
  {
    var b := s.(sections := [Section("b", None, Some(7), true, false)]);
    assert Step(s, Finish(0)) == b;
    events := GoOn(i, run, Finish(0), b);
    var c := b.(sections := [Section("b", None, Some(7), true, true)]);
    assert Step(b, Settle(0)) == c;
    events := GoOn(i, events, Settle(0), c);
    assert c.closing - {"b"} == map[];
    t := c.(closing := map[]);
    assert Step(c, Release(0)) == t;
    events := GoOn(i, events, Release(0), t);
  }

  /** A stop and a fresh launch while a replacement waits for its close: it drops the fresh browser, and no launches overlap. */
  lemma ReplacementDropsAnother() returns (events: seq<Event>)
    ensures events == Starting("b", 7) + [Ask("b", 11, false)]
      + [Evict("b")] + [Finish(0)] + [Settle(0)] + [Release(0)] + [Ask("b", 12, true)] + [Open(1, 8, 13)] + [Forget(1)] + [Replace(0)]
    ensures IsRun(Init(3, 0), events) && NeverOverlaps(Init(3, 0), events)
    ensures !NeverLoses(Init(3, 0), events) && !CoveredThroughout(Init(3, 0), events)
  {
    var i := Init(3, 0);
    var run, s := OneUpRuns();
    run, s := StopRuns(i, run, s);
    run, s := StoppedRuns(i, run, s);
    run, s := RelaunchedRuns(i, run, s);
    DropsTheFresh(s);
    RunGoesOn(i, run, Replace(0));
    OneMoreEvent(i, run, Replace(0));
    events := run + [Replace(0)];
    FreshProcess(3, 0);
    NoBrowserIsLost(i, events);
  }

  lemma DropsTheFresh(s: State)
    requires s.live == [Browser("b", 8, 13)] && s.calls == [Replacing("b", 7, 0)] && s.starting == map[]
    ensures Enabled(s, Replace(0)) && Loses(s, Replace(0)) && !Overlaps(s, Replace(0))
  {
  }

  lemma RelaunchedRuns(i: State, run: seq<Event>, s: State) returns (events: seq<Event>, t: State)
    requires IsSafe(i, run) && After(i, run) == s
    requires s.cap == 3 && s.live == [] && s.starting == map[] && s.closing == map[] && s.launches == [Launch("b", 0, Forgotten)]
    requires |s.sections| == 1 && 8 !in s.browsers
    ensures events == run + [Ask("b", 12, true)] + [Open(1, 8, 13)] + [Forget(1)] && IsSafe(i, events) && After(i, events) == t
    ensures t.live == [Browser("b", 8, 13)] && t.calls == s.calls && t.starting == map[]
  {
    var a := s.(launches := [Launch("b", 0, Forgotten), Launch("b", 1, Opening)], starting := map["b" := 1]);
    assert Step(s, Ask("b", 12, true)) == a;
    events := GoOn(i, run, Ask("b", 12, true), a);
    ComesUp(a);
    var b := Step(a, Open(1, 8, 13));
    events := GoOn(i, events, Open(1, 8, 13), b);
    t := Step(b, Forget(1));
    assert b.starting - {"b"} == map[];
    events := GoOn(i, events, Forget(1), t);
  }

  lemma ComesUp(s: State)
    requires s.cap == 3 && s.live == [] && 8 !in s.browsers && s.launches == [Launch("b", 0, Forgotten), Launch("b", 1, Opening)]
    ensures Enabled(s, Open(1, 8, 13)) && !Loses(s, Open(1, 8, 13))
    ensures var t := Step(s, Open(1, 8, 13));
      && t.live == [Browser("b", 8, 13)] && t.launches == [Launch("b", 0, Forgotten), Launch("b", 1, Answered)]
      && t.calls == s.calls && t.starting == s.starting
  {
    assert Put(s.live, Browser("b", 8, 13)) == [Browser("b", 8, 13)];
  }

  /** Two idle browsers: the second is asked for while the first closes, and is closed in its turn. */
  lemma SweepClosesOneJustUsed() returns (before: seq<Event>, between: seq<Event>)
    ensures before == Starting("a", 7) + [Ask("b", 11, true)] + [Open(1, 8, 12)] + [Forget(1)]
    ensures between == [Evict("a")] + [Ask("b", 101, true)]
    ensures IsRun(Init(2, 0), before) && var s := After(Init(2, 0), before);
      && "a" in ChooseIdle(s.live, 50, 100) && "b" in ChooseIdle(s.live, 50, 100)
      && IsRun(s, between) && Entry(After(s, between).live, "b") == Some(Browser("b", 8, 101))
  {
    var s;
    before, s := TwoUpRuns();
    assert s.live[0].bot == "a" && s.live[1].bot == "b";
    between := AskedWhileSwept(s);
  }

  lemma TwoUpRuns() returns (events: seq<Event>, s: State)
    ensures events == Starting("a", 7) + [Ask("b", 11, true)] + [Open(1, 8, 12)] + [Forget(1)]
    ensures IsRun(Init(2, 0), events) && After(Init(2, 0), events) == s
    ensures s.live == [Browser("a", 7, 10), Browser("b", 8, 12)] && s.starting == map[] && s.closing == map[]
  {
    var up := OneBrowserRuns("a", 7, 2);
    s := TwoUp(up);
    events := ThreeMore(Init(2, 0), Starting("a", 7), Ask("b", 11, true), Open(1, 8, 12), Forget(1));
  }

  /** A second browser comes up beside the first. */
  lemma TwoUp(s: State) returns (t: State)
    requires s.cap == 2 && s.live == [Browser("a", 7, 10)] && s.starting == map[] && s.closing == map[] && s.sections == []
    requires s.launches == [Launch("a", 0, Forgotten)] && s.browsers == multiset{7}
    ensures var a := Step(s, Ask("b", 11, true));
      && Enabled(a, Open(1, 8, 12)) && var b := Step(a, Open(1, 8, 12));
      && Enabled(b, Forget(1)) && t == Step(b, Forget(1))
    ensures t.live == [Browser("a", 7, 10), Browser("b", 8, 12)] && t.starting == map[] && t.closing == map[]
  {
    var a := Step(s, Ask("b", 11, true));
    assert a == Launching(s, "b", 0);
    assert Put(a.live, Browser("b", 8, 12)) == [Browser("a", 7, 10), Browser("b", 8, 12)];
    var b := Step(a, Open(1, 8, 12));
    assert b.live == [Browser("a", 7, 10), Browser("b", 8, 12)] && b.starting == map["b" := 1];
    assert b.starting - {"b"} == map[];
    t := Step(b, Forget(1));
  }

  lemma AskedWhileSwept(s: State) returns (events: seq<Event>)
    requires s.live == [Browser("a", 7, 10), Browser("b", 8, 12)] && s.starting == map[] && s.closing == map[]
    ensures events == [Evict("a")] + [Ask("b", 101, true)]
    ensures IsRun(s, events) && Entry(After(s, events).live, "b") == Some(Browser("b", 8, 101))
  {
    var t := Step(s, Evict("a"));
    assert Place(s.live, "a") == 0 && Without(s.live, "a") == [Browser("b", 8, 12)];
    assert "b" !in t.closing && Place(t.live, "b") == 0;
    var u := Step(t, Ask("b", 101, true));
    assert u.live == [Browser("b", 8, 101)];
    assert Entry(u.live, "b") == Some(u.live[0]);
    RunGoesOn(s, [], Evict("a"));
    assert [] + [Evict("a")] == [Evict("a")];
    RunGoesOn(s, [Evict("a")], Ask("b", 101, true));
    events := [Evict("a")] + [Ask("b", 101, true)];
  }

  /** A fresh process starts inside every one of these invariants. */
  lemma FreshProcess(cap: nat, clock: int)
    ensures var s := Init(cap, clock);
      Capped(s) && Timely(s) && Gated(s) && Single(s) && Accounted(s) && Traced(s) && Covered(s) && Apart(s)
  {
    forall bot: Bot ensures Guarded(Init(cap, clock), bot) {}
  }

  /** `createProfiles`: its three maps, and the promises pending on them. */
  class Browsers {
    const cap: nat
    const idleTimeout: int
    var live: seq<Browser>
    var starting: map<Bot, nat>
    var closing: map<Bot, nat>
    var sections: seq<Section>
    var launches: seq<Launch>
    var calls: seq<Call>
    var clock: int
    ghost var browsers: multiset<nat>
    ghost var dropped: multiset<nat>

    ghost function View(): State
      reads this
    {
      State(cap, live, starting, closing, sections, launches, calls, clock, browsers, dropped)
    }

    constructor (cap: nat, idleTimeout: int, clock: int)
      ensures View() == Init(cap, clock) && this.idleTimeout == idleTimeout
    {
      this.cap, this.idleTimeout, this.clock := cap, idleTimeout, clock;
      live, starting, closing, sections, launches, calls := [], map[], map[], [], [], [];
      browsers, dropped := multiset{}, multiset{};
    }

    method WhileClosing(bot: Bot, context: Option<nat>)
      modifies this`sections, this`closing
      ensures View() == OpenSection(old(View()), bot, context)
    {
      var before := None;
      if bot in closing { before := Some(closing[bot]); }
      closing := closing[bot := |sections|];
      sections := sections + [Section(bot, before, context, false, false)];
    }

    /** `evict`: forgets the browser before anything is awaited. */
    method EvictBrowser(bot: Bot) returns (running: bool)
      modifies this`live, this`sections, this`closing
      ensures View() == Step(old(View()), Evict(bot)) && running == Has(old(live), bot)
    {
      running := Has(live, bot);
      if running {
        var context := live[Place(live, bot)].context;
        live := Without(live, bot);
        WhileClosing(bot, Some(context));
      }
    }

    method StartLaunch(bot: Bot, arrived: nat)
      modifies this`launches, this`starting
      ensures View() == Launching(old(View()), bot, arrived)
    {
      starting := starting[bot := |launches|];
      launches := launches + [Launch(bot, arrived, Opening)];
    }

    /** `page`, past the gate: join a launch, use what is running, replace it, or launch. */
    method Proceed(bot: Bot, arrived: nat, now: int, healthy: bool)
      modifies this`live, this`launches, this`starting, this`calls, this`clock
      ensures View() == PastGate(old(View()), bot, arrived, now, healthy)
    {
      if bot in starting { return; }
      var i := Place(live, bot);
      if i == |live| {
        StartLaunch(bot, arrived);
      } else if healthy {
        live, clock := live[i := live[i].(usedAt := now)], now;
      } else {
        calls := calls + [Replacing(bot, live[i].context, arrived)];
      }
    }

    method Page(bot: Bot, now: int, healthy: bool)
      modifies this`live, this`launches, this`starting, this`calls, this`clock
      ensures View() == Step(old(View()), Ask(bot, now, healthy))
    {
      if bot in closing {
        calls := calls + [AtGate(bot, closing[bot], |sections|)];
      } else {
        Proceed(bot, |sections|, now, healthy);
      }
    }

    method PageAdmitted(call: nat, now: int, healthy: bool)
      requires Enabled(View(), Admit(call, now, healthy))
      modifies this`live, this`launches, this`starting, this`calls, this`clock
      ensures View() == Step(old(View()), Admit(call, now, healthy))
    {
      var c := calls[call];
      calls := calls[call := Past];
      Proceed(c.bot, c.arrived, now, healthy);
    }

    method PageReplaces(call: nat)
      requires Enabled(View(), Replace(call))
      modifies this`live, this`launches, this`starting, this`calls, this`dropped
      ensures View() == Step(old(View()), Replace(call))
    {
      var c := calls[call];
      calls := calls[call := Past];
      live := Without(live, c.bot);
      dropped := dropped + multiset{c.context};
      StartLaunch(c.bot, c.arrived);
    }

    /** One turn of the loop in `enforceCap`, to the next await or the end of it. */
    method EnforceCap(launch: nat, victims: seq<Bot>)
      requires launch < |launches|
      modifies this`live, this`sections, this`closing, this`launches
      ensures View() == CapTurn(old(View()), launch, victims)
    {
      var phase := Answered;
      if victims != [] {
        var section := |sections|;
        var running := EvictBrowser(victims[0]);
        phase := Capping(victims[1..], if running then Some(section) else None);
      }
      launches := launches[launch := launches[launch].(phase := phase)];
    }

    /** A launch's browser is up. The cap is kept, and the first turn of `enforceCap` is its last. */
    method BrowserOpens(launch: nat, context: nat, now: int)
      requires Capped(View()) && Enabled(View(), Open(launch, context, now))
      modifies this`live, this`sections, this`closing, this`launches, this`clock, this`browsers
      ensures View() == Step(old(View()), Open(launch, context, now)) && Capped(View())
      ensures launches[launch].phase == Answered || (launches[launch].phase.Capping? && launches[launch].phase.rest == [])
    {
      OpenKeepsCap(View(), launch, context, now);
      live := Put(live, Browser(launches[launch].bot, context, now));
      clock := now;
      browsers := browsers + multiset{context};
      EnforceCap(launch, ChooseEvictions(live, cap));
    }

    method BrowserFails(launch: nat)
      requires Enabled(View(), FailOpen(launch))
      modifies this`launches
      ensures View() == Step(old(View()), FailOpen(launch))
    {
      launches := launches[launch := launches[launch].(phase := Answered)];
    }

    /** A browser that is up is left behind when it has no page and gives none. */
    method BrowserStrands(launch: nat, context: nat)
      requires Enabled(View(), Strand(launch, context))
      modifies this`launches, this`browsers
      ensures View() == Step(old(View()), Strand(launch, context))
    {
      browsers := browsers + multiset{context};
      launches := launches[launch := launches[launch].(phase := Answered)];
    }

    method CapGoesOn(launch: nat)
      requires Enabled(View(), Cap(launch))
      modifies this`live, this`sections, this`closing, this`launches
      ensures View() == Step(old(View()), Cap(launch))
    {
      EnforceCap(launch, launches[launch].phase.rest);
    }

    method LaunchOver(launch: nat)
      requires Enabled(View(), Forget(launch))
      modifies this`launches, this`starting
      ensures View() == Step(old(View()), Forget(launch))
    {
      starting := starting - {launches[launch].bot};
      launches := launches[launch := launches[launch].(phase := Forgotten)];
    }

    method SectionFinishes(section: nat)
      requires Enabled(View(), Finish(section))
      modifies this`sections
      ensures View() == Step(old(View()), Finish(section))
    {
      sections := sections[section := sections[section].(finished := true)];
    }

    method PromiseResolves(section: nat)
      requires Enabled(View(), Settle(section))
      modifies this`sections
      ensures View() == Step(old(View()), Settle(section))
    {
      sections := sections[section := sections[section].(settled := true)];
    }

    method PromiseReleased(section: nat)
      requires Enabled(View(), Release(section))
      modifies this`closing
      ensures View() == Step(old(View()), Release(section))
    {
      var bot := sections[section].bot;
      if bot in closing && closing[bot] == section { closing := closing - {bot}; }
    }

    method Shutdown()
      modifies this`live, this`dropped
      ensures View() == Step(old(View()), CloseAll)
    {
      dropped := dropped + Contexts(live);
      live := [];
    }

    /** The loop of `sweepIdle`, with nothing else happening between its closes. */
    method EvictEach(idle: seq<Bot>)
      requires OneEach(live)
      modifies this`live, this`sections, this`closing
      ensures live == Keeping(old(live), idle)
    {
      ghost var was := live;
      KeepingAll(live);
      for k := 0 to |idle|
        invariant live == Keeping(was, idle[..k])
      {
        assert idle[..k + 1] == idle[..k] + [idle[k]];
        KeepingOneLess(was, idle[..k], idle[k]);
        var _ := EvictBrowser(idle[k]);
      }
      assert idle[..|idle|] == idle;
    }

    /** `sweepIdle`, uninterrupted: the browsers in use stay, as they are and in order. */
    method SweepIdle(now: int)
      requires OneEach(live)
      modifies this`live, this`sections, this`closing
      ensures live == InUse(old(live), idleTimeout, now)
    {
      IdleAreGone(live, idleTimeout, now);
      EvictEach(ChooseIdle(live, idleTimeout, now));
    }
  }

  /** The browsers used within the timeout; all of them when it is switched off. */
  function InUse(live: seq<Browser>, timeout: int, now: int): seq<Browser> {
    if live == [] then []
    else
      var last := live[|live| - 1];
      InUse(live[..|live| - 1], timeout, now) + if timeout > 0 && now - last.usedAt >= timeout then [] else [last]
  }

  function Keeping(live: seq<Browser>, gone: seq<Bot>): seq<Browser> {
    if live == [] then []
    else Keeping(live[..|live| - 1], gone) + if live[|live| - 1].bot in gone then [] else [live[|live| - 1]]
  }

  lemma {:induction false} KeepingAll(live: seq<Browser>)
    ensures Keeping(live, []) == live
  {
    if live != [] { KeepingAll(live[..|live| - 1]); }
  }

  lemma {:induction false} KeepingAmong(live: seq<Browser>, gone: seq<Bot>, bot: Bot)
    requires forall i | 0 <= i < |live| :: live[i].bot != bot
    ensures forall i | 0 <= i < |Keeping(live, gone)| :: Keeping(live, gone)[i].bot != bot
    ensures Keeping(live, gone + [bot]) == Keeping(live, gone)
  {
    if live != [] { KeepingAmong(live[..|live| - 1], gone, bot); }
  }

  lemma WithoutLast(live: seq<Browser>, last: Browser, bot: Bot)
    requires last.bot == bot ==> !Has(live, bot)
    ensures Without(live + [last], bot) == if last.bot == bot then live else Without(live, bot) + [last]
  {
    var all := live + [last];
    assert forall i | 0 <= i < |live| :: all[i] == live[i];
    if Has(live, bot) {
      var at := Place(live, bot);
      assert all[at].bot == bot && Place(all, bot) == at;
      assert all[..at] == live[..at] && all[at + 1..] == live[at + 1..] + [last];
    } else if last.bot == bot {
      assert all[|live|].bot == bot && Place(all, bot) == |live|;
      assert all[..|live|] == live && all[|live| + 1..] == [];
    }
  }

  /** Evicting one more. */
  lemma {:induction false} KeepingOneLess(live: seq<Browser>, gone: seq<Bot>, bot: Bot)
    requires OneEach(live)
    ensures Without(Keeping(live, gone), bot) == Keeping(live, gone + [bot])
  {
    if live != [] {
      var front, last := live[..|live| - 1], live[|live| - 1];
      KeepingOneLess(front, gone, bot);
      if last.bot == bot { KeepingAmong(front, gone, bot); }
      KeepingPeels(live, gone);
      KeepingPeels(live, gone + [bot]);
      if last.bot !in gone { WithoutLast(Keeping(front, gone), last, bot); }
    }
  }

  lemma KeepingPeels(live: seq<Browser>, gone: seq<Bot>)
    requires live != []
    ensures var front, last := Keeping(live[..|live| - 1], gone), live[|live| - 1];
      Keeping(live, gone) == if last.bot in gone then front else front + [last]
  {
  }

  lemma IdleAreGone(live: seq<Browser>, timeout: int, now: int)
    requires OneEach(live)
    ensures Keeping(live, ChooseIdle(live, timeout, now)) == InUse(live, timeout, now)
  {
    IdleAreGoneFrom(live, ChooseIdle(live, timeout, now), timeout, now);
  }

  lemma {:induction false} IdleAreGoneFrom(live: seq<Browser>, idle: seq<Bot>, timeout: int, now: int)
    requires forall i | 0 <= i < |live| :: live[i].bot in idle <==> timeout > 0 && now - live[i].usedAt >= timeout
    ensures Keeping(live, idle) == InUse(live, timeout, now)
  {
    if live != [] { IdleAreGoneFrom(live[..|live| - 1], idle, timeout, now); }
  }
}
