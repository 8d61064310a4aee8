/** Who owns a Bot's live screen, and what may still act on it. */
module Viewer {
  import opened Text

  // Handles of sockets, casts and follow loops; all that is asked of them is identity.
  type Socket = nat
  type Cast = nat
  type Follow = nat

  datatype Standing = Casting(cast: Cast) | Starting | Gone

  /** A claim as it stands: what it holds, and whether it lost the screen. */
  datatype Claimed = Claimed(socket: Socket, cast: Option<Cast>, follow: Option<Follow>, revoked: bool)

  /** The claims in the order they were made, and which of them owns the screen. */
  datatype Screen = Screen(claims: seq<Claimed>, current: Option<nat>)

  /** What happens to casts, loops and claims. A teardown stops a cast, or had none to stop. */
  datatype Deed =
    | Installed(cast: Cast)
    | TearingDown(work: Option<Cast>)
    | Settled(work: Option<Cast>)
    | Following(follow: Follow)
    | Cancelled(follow: Follow)
    | Told(claim: nat)

  /** `tearing` holds the teardowns running, by the cast they stop; `log` everything done so far. */
  datatype State = State(screen: Screen, tearing: seq<Option<Cast>>, log: seq<Deed>)

  datatype Event =
    | Claim(socket: Socket)
    | Install(claim: nat, cast: Cast)
    | SetFollow(claim: nat, follow: Follow)
    | Release(socket: Socket)
    | ReleaseAll
    | Settle(place: nat)

  const EMPTY := State(Screen([], None), [], [])

  predicate Placed(s: Screen) {
    s.current.Some? ==> s.current.value < |s.claims|
  }

  function Owner(s: Screen): Claimed
    requires Placed(s) && s.current.Some?
  {
    s.claims[s.current.value]
  }

  predicate Fits(s: Screen, e: Event) {
    Placed(s) && (e.Install? || e.SetFollow? ==> e.claim < |s.claims|)
  }

  predicate Enabled(s: State, e: Event) {
    Fits(s.screen, e) && (e.Settle? ==> e.place < |s.tearing|)
  }

  /** Whether the event takes the screen from its owner. */
  predicate Ousts(s: Screen, e: Event)
    requires Placed(s)
  {
    s.current.Some? && (e.Claim? || e.ReleaseAll? || (e.Release? && Owner(s).socket == e.socket))
  }

  /** What `tearDown` leaves of a claim that stops owning the screen. */
  function Ousted(s: Screen): Screen
    requires Placed(s) && s.current.Some?
  {
    Screen(s.claims[s.current.value := Owner(s).(cast := None, follow := None, revoked := true)], None)
  }

  function ScreenStep(s: Screen, e: Event): Screen
    requires Fits(s, e)
  {
    var t := if Ousts(s, e) then Ousted(s) else s;
    match e
    case Claim(socket) => Screen(t.claims + [Claimed(socket, None, None, false)], Some(|t.claims|))
    case Install(claim, cast) =>
      if t.claims[claim].revoked then t else t.(claims := t.claims[claim := t.claims[claim].(cast := Some(cast))])
    case SetFollow(claim, follow) =>
      if t.claims[claim].revoked then t else t.(claims := t.claims[claim := t.claims[claim].(follow := Some(follow))])
    case _ => t
  }

  /** The cast an event has stopped: the ousted owner's, the replaced one, or the refused one. */
  function StoppedBy(s: Screen, e: Event): Option<Cast>
    requires Fits(s, e)
  {
    if Ousts(s, e) then Owner(s).cast
    else if e.Install? then (if s.claims[e.claim].revoked then Some(e.cast) else s.claims[e.claim].cast)
    else None
  }

  /** The loop an event has cancelled. */
  function CancelledBy(s: Screen, e: Event): Option<Follow>
    requires Fits(s, e)
  {
    if Ousts(s, e) then Owner(s).follow
    else if e.SetFollow? then (if s.claims[e.claim].revoked then Some(e.follow) else s.claims[e.claim].follow)
    else None
  }

  /** A claim that is ousted is told so, unless it gave the screen up itself. */
  function ToldBy(s: Screen, e: Event): Option<nat>
    requires Fits(s, e)
  {
    if Ousts(s, e) && !e.Release? then s.current else None
  }

  /** An ousted owner's teardown runs even when it has no cast to stop. */
  predicate TearsDown(s: Screen, e: Event)
    requires Fits(s, e)
  {
    Ousts(s, e) || StoppedBy(s, e).Some?
  }

  function CancelDeeds(follow: Option<Follow>): seq<Deed> {
    if follow.Some? then [Cancelled(follow.value)] else []
  }

  /** What an event brings, before anything it does to what was there. */
  function Brought(s: State, e: Event): seq<Deed>
    requires Enabled(s, e)
  {
    match e
    case Install(_, cast) => [Installed(cast)]
    case SetFollow(_, follow) => [Following(follow)]
    case Settle(place) => [Settled(s.tearing[place])]
    case _ => []
  }

  function ToldDeeds(claim: Option<nat>): seq<Deed> {
    if claim.Some? then [Told(claim.value)] else []
  }

  function TornDeeds(s: Screen, e: Event): seq<Deed>
    requires Fits(s, e)
  {
    if TearsDown(s, e) then [TearingDown(StoppedBy(s, e))] else []
  }

  function Deeds(s: State, e: Event): seq<Deed>
    requires Enabled(s, e)
  {
    Brought(s, e) + ToldDeeds(ToldBy(s.screen, e)) + CancelDeeds(CancelledBy(s.screen, e)) + TornDeeds(s.screen, e)
  }

  function Tearing(s: State, e: Event): seq<Option<Cast>>
    requires Enabled(s, e)
  {
    if e.Settle? then s.tearing[..e.place] + s.tearing[e.place + 1..]
    else if TearsDown(s.screen, e) then s.tearing + [StoppedBy(s.screen, e)]
    else s.tearing
  }

  function Step(s: State, e: Event): State
    requires Enabled(s, e)
  {
    State(ScreenStep(s.screen, e), Tearing(s, e), s.log + Deeds(s, e))
  }

  /** How often something was done. */
  function Count(log: seq<Deed>, deed: Deed): nat {
    if log == [] then 0
    else Count(log[..|log| - 1], deed) + if log[|log| - 1] == deed then 1 else 0
  }

  ghost predicate IsRun(s: State, events: seq<Event>)
    decreases |events|
  {
    events != [] ==> Enabled(s, events[0]) && IsRun(Step(s, events[0]), events[1..])
  }

  ghost function After(s: State, events: seq<Event>): State
    requires IsRun(s, events)
    decreases |events|
  {
    if events == [] then s else After(Step(s, events[0]), events[1..])
  }

  function StandingOf(s: Screen, socket: Socket): Standing
    requires Placed(s)
  {
    if s.current.None? || Owner(s).socket != socket then Gone
    else if Owner(s).cast.Some? then Casting(Owner(s).cast.value)
    else Starting
  }

  predicate Occupied(s: State) {
    s.screen.current.Some? || s.tearing != []
  }

  // ----- what every run keeps -----

  /** A claim is un-revoked exactly when it is the current one, and a revoked claim holds nothing. */
  ghost predicate OneOwner(s: Screen) {
    && Placed(s)
    && (forall k | 0 <= k < |s.claims| :: !s.claims[k].revoked <==> s.current == Some(k))
    && (forall k | 0 <= k < |s.claims| && s.claims[k].revoked :: s.claims[k].cast.None? && s.claims[k].follow.None?)
  }

  function HeldCast(s: Screen): Option<Cast>
    requires Placed(s)
  {
    if s.current.Some? then Owner(s).cast else None
  }

  function HeldFollow(s: Screen): Option<Follow>
    requires Placed(s)
  {
    if s.current.Some? then Owner(s).follow else None
  }

  lemma ScreenKeeps(s: Screen, e: Event)
    requires OneOwner(s) && Fits(s, e)
    ensures OneOwner(ScreenStep(s, e))
  {
  }

  /** What an event takes in, it holds or stops; what it stopped, it held or took in. */
  lemma CastsBalance(s: Screen, e: Event)
    requires OneOwner(s) && Fits(s, e)
    ensures var t := ScreenStep(s, e);
            if e.Install? then
              (HeldCast(t) == Some(e.cast) && StoppedBy(s, e) == HeldCast(s)) ||
              (HeldCast(t) == HeldCast(s) && StoppedBy(s, e) == Some(e.cast))
            else
              (HeldCast(t) == None && StoppedBy(s, e) == HeldCast(s)) || (HeldCast(t) == HeldCast(s) && StoppedBy(s, e) == None)
  {
    ScreenKeeps(s, e);
  }

  lemma FollowsBalance(s: Screen, e: Event)
    requires OneOwner(s) && Fits(s, e)
    ensures var t := ScreenStep(s, e);
            if e.SetFollow? then
              (HeldFollow(t) == Some(e.follow) && CancelledBy(s, e) == HeldFollow(s)) ||
              (HeldFollow(t) == HeldFollow(s) && CancelledBy(s, e) == Some(e.follow))
            else
              (HeldFollow(t) == None && CancelledBy(s, e) == HeldFollow(s)) || (HeldFollow(t) == HeldFollow(s) && CancelledBy(s, e) == None)
  {
    ScreenKeeps(s, e);
  }

  function Times(x: Option<nat>, n: nat): nat {
    if x == Some(n) then 1 else 0
  }

  /** Each cast handed in is held or was told to stop; each told to stop is stopping or has settled. */
  ghost predicate CastsConserved(s: State)
    requires Placed(s.screen)
  {
    forall c: Cast {:trigger Installed(c)} ::
      && Count(s.log, Installed(c)) == Count(s.log, TearingDown(Some(c))) + Times(HeldCast(s.screen), c)
      && Count(s.log, TearingDown(Some(c))) == multiset(s.tearing)[Some(c)] + Count(s.log, Settled(Some(c)))
  }

  /** Each follow loop handed in is held or was cancelled. */
  ghost predicate FollowsConserved(s: State)
    requires Placed(s.screen)
  {
    forall f: Follow {:trigger Following(f)} ::
      Count(s.log, Following(f)) == Count(s.log, Cancelled(f)) + Times(HeldFollow(s.screen), f)
  }

  /** A claim is told at most once, and only when it has lost the screen. */
  ghost predicate ToldOnce(s: State) {
    forall k: nat {:trigger Told(k)} ::
      Count(s.log, Told(k)) <= if k < |s.screen.claims| && s.screen.claims[k].revoked then 1 else 0
  }

  ghost predicate Kept(s: State) {
    OneOwner(s.screen) && CastsConserved(s) && FollowsConserved(s) && ToldOnce(s)
  }

  lemma {:induction false} CountAppended(log: seq<Deed>, more: seq<Deed>, deed: Deed)
    ensures Count(log + more, deed) == Count(log, deed) + Count(more, deed)
    decreases |more|
  {
    if more == [] {
      assert log + more == log;
    } else {
      CountAppended(log, more[..|more| - 1], deed);
      assert (log + more)[..|log + more| - 1] == log + more[..|more| - 1];
    }
  }

  lemma CountFour(a: seq<Deed>, b: seq<Deed>, c: seq<Deed>, d: seq<Deed>, deed: Deed)
    ensures Count(a + b + c + d, deed) == Count(a, deed) + Count(b, deed) + Count(c, deed) + Count(d, deed)
  {
    CountAppended(a, b, deed);
    CountAppended(a + b, c, deed);
    CountAppended(a + b + c, d, deed);
  }

  lemma CountOne(log: seq<Deed>, deed: Deed)
    requires |log| <= 1
    ensures Count(log, deed) == One(log, deed)
  {
    if log != [] { assert log[..0] == []; }
  }

  /** What one event adds to the account of a deed. */
  lemma DeedsCount(s: State, e: Event, deed: Deed)
    requires Enabled(s, e)
    ensures Count(Deeds(s, e), deed) ==
      match deed
      case Installed(c) => if e.Install? && e.cast == c then 1 else 0
      case Following(f) => if e.SetFollow? && e.follow == f then 1 else 0
      case Settled(work) => if e.Settle? && s.tearing[e.place] == work then 1 else 0
      case Told(k) => Times(ToldBy(s.screen, e), k)
      case Cancelled(f) => Times(CancelledBy(s.screen, e), f)
      case TearingDown(work) => if TearsDown(s.screen, e) && StoppedBy(s.screen, e) == work then 1 else 0
  {
    DeedsSum(s, e, deed);
  }

  /** Whether a list of one deed or none is that deed. */
  function One(log: seq<Deed>, deed: Deed): nat {
    if log != [] && log[0] == deed then 1 else 0
  }

  lemma DeedsSum(s: State, e: Event, deed: Deed)
    requires Enabled(s, e)
    ensures Count(Deeds(s, e), deed) ==
      One(Brought(s, e), deed) + One(ToldDeeds(ToldBy(s.screen, e)), deed)
      + One(CancelDeeds(CancelledBy(s.screen, e)), deed) + One(TornDeeds(s.screen, e), deed)
  {
    var told, cancelled, torn := ToldDeeds(ToldBy(s.screen, e)), CancelDeeds(CancelledBy(s.screen, e)), TornDeeds(s.screen, e);
    CountFour(Brought(s, e), told, cancelled, torn, deed);
    CountOne(Brought(s, e), deed);
    CountOne(told, deed);
    CountOne(cancelled, deed);
    CountOne(torn, deed);
  }

  lemma TearingCount(s: State, e: Event, c: Cast)
    requires Enabled(s, e)
    ensures multiset(Tearing(s, e))[Some(c)] + (if e.Settle? then Times(s.tearing[e.place], c) else 0)
         == multiset(s.tearing)[Some(c)] + Times(StoppedBy(s.screen, e), c)
  {
    if e.Settle? {
      assert s.tearing == s.tearing[..e.place] + [s.tearing[e.place]] + s.tearing[e.place + 1..];
    }
  }

  lemma OustedOnce(s: Screen, e: Event)
    requires OneOwner(s) && Fits(s, e)
    ensures var t := ScreenStep(s, e);
            && |s.claims| <= |t.claims|
            && (forall k | 0 <= k < |s.claims| && s.claims[k].revoked :: t.claims[k].revoked)
            && (ToldBy(s, e).Some? ==> !s.claims[ToldBy(s, e).value].revoked && t.claims[ToldBy(s, e).value].revoked)
  {
  }

  lemma StepCount(s: State, e: Event, deed: Deed)
    requires Enabled(s, e)
    ensures Count(Step(s, e).log, deed) == Count(s.log, deed) + Count(Deeds(s, e), deed)
  {
    CountAppended(s.log, Deeds(s, e), deed);
  }

  lemma StepCasts(s: State, e: Event)
    requires OneOwner(s.screen) && CastsConserved(s) && Enabled(s, e)
    ensures Placed(ScreenStep(s.screen, e)) && CastsConserved(Step(s, e))
  {
    var t := Step(s, e);
    ScreenKeeps(s.screen, e);
    forall c: Cast
      ensures Count(t.log, Installed(c)) == Count(t.log, TearingDown(Some(c))) + Times(HeldCast(t.screen), c)
      ensures Count(t.log, TearingDown(Some(c))) == multiset(t.tearing)[Some(c)] + Count(t.log, Settled(Some(c)))
    {
      StepCount(s, e, Installed(c));
      StepCount(s, e, TearingDown(Some(c)));
      StepCount(s, e, Settled(Some(c)));
      DeedsCount(s, e, Installed(c));
      DeedsCount(s, e, TearingDown(Some(c)));
      DeedsCount(s, e, Settled(Some(c)));
      CastsBalance(s.screen, e);
      TearingCount(s, e, c);
    }
  }

  lemma StepFollows(s: State, e: Event)
    requires OneOwner(s.screen) && FollowsConserved(s) && Enabled(s, e)
    ensures Placed(ScreenStep(s.screen, e)) && FollowsConserved(Step(s, e))
  {
    var t := Step(s, e);
    ScreenKeeps(s.screen, e);
    forall f: Follow ensures Count(t.log, Following(f)) == Count(t.log, Cancelled(f)) + Times(HeldFollow(t.screen), f) {
      StepCount(s, e, Following(f));
      StepCount(s, e, Cancelled(f));
      DeedsCount(s, e, Following(f));
      DeedsCount(s, e, Cancelled(f));
      FollowsBalance(s.screen, e);
    }
  }

  lemma StepTold(s: State, e: Event)
    requires OneOwner(s.screen) && ToldOnce(s) && Enabled(s, e)
    ensures ToldOnce(Step(s, e))
  {
    var t := Step(s, e);
    forall k: nat ensures Count(t.log, Told(k)) <= if k < |t.screen.claims| && t.screen.claims[k].revoked then 1 else 0 {
      StepCount(s, e, Told(k));
      DeedsCount(s, e, Told(k));
      OustedOnce(s.screen, e);
    }
  }

  lemma StepKeeps(s: State, e: Event)
    requires Kept(s) && Enabled(s, e)
    ensures Kept(Step(s, e))
  {
    ScreenKeeps(s.screen, e);
    StepCasts(s, e);
    StepFollows(s, e);
    StepTold(s, e);
  }

  lemma {:induction false} RunKeeps(s: State, events: seq<Event>)
    requires Kept(s) && IsRun(s, events)
    ensures Kept(After(s, events))
    decreases |events|
  {
    if events != [] {
      StepKeeps(s, events[0]);
      RunKeeps(Step(s, events[0]), events[1..]);
    }
  }

  /**
   * With distinct handles, each cast ever handed to `install` is either the current claim's or has been
   * stopped exactly once, never both; so is each follow loop.
   */
  lemma HeldOrStoppedOnce(events: seq<Event>, cast: Cast, follow: Follow)
    requires IsRun(EMPTY, events)
    ensures var t := After(EMPTY, events);
            && OneOwner(t.screen)
            && (Count(t.log, Installed(cast)) == 1 ==>
                  Count(t.log, TearingDown(Some(cast))) == if HeldCast(t.screen) == Some(cast) then 0 else 1)
            && (Count(t.log, Following(follow)) == 1 ==>
                  Count(t.log, Cancelled(follow)) == if HeldFollow(t.screen) == Some(follow) then 0 else 1)
  {
    RunKeeps(EMPTY, events);
    assert Installed(cast).Installed? && Following(follow).Following?;
  }

  /** When nobody is watching or about to, every cast ever installed was stopped and its teardown settled. */
  lemma UnoccupiedMeansSettled(events: seq<Event>, cast: Cast)
    requires IsRun(EMPTY, events) && !Occupied(After(EMPTY, events))
    ensures var t := After(EMPTY, events);
            Count(t.log, Installed(cast)) == Count(t.log, TearingDown(Some(cast))) == Count(t.log, Settled(Some(cast)))
  {
    RunKeeps(EMPTY, events);
    assert Installed(cast).Installed?;
  }

  // ----- what each event does -----

  /** A claim loses the screen: revoked and empty, its loop cancelled, its cast being stopped, and told if it must be. */
  ghost predicate LetsGo(s: State, t: State, k: nat, told: bool)
    requires k < |s.screen.claims|
  {
    var was := s.screen.claims[k];
    && k < |t.screen.claims| && t.screen.claims[k] == Claimed(was.socket, None, None, true)
    && t.tearing == s.tearing + [was.cast]
    && t.log == s.log + (if told then [Told(k)] else [])
         + (if was.follow.Some? then [Cancelled(was.follow.value)] else []) + [TearingDown(was.cast)]
  }

  /** Nobody owns the screen, and every claim but the `k`th is as it was. */
  ghost predicate GivenUp(s: Screen, t: Screen, k: nat) {
    && t.current == None && |t.claims| == |s.claims|
    && forall j | 0 <= j < |s.claims| && j != k :: t.claims[j] == s.claims[j]
  }

  /** A claim owns the screen at once; the one before it is told, and let go of. */
  lemma ClaimTakesTheScreen(s: State, socket: Socket)
    requires OneOwner(s.screen) && ToldOnce(s)
    ensures var t, n := Step(s, Claim(socket)), |s.screen.claims|;
      && |t.screen.claims| == n + 1 && t.screen.claims[n] == Claimed(socket, None, None, false)
      && t.screen.current == Some(n) && StandingOf(t.screen, socket) == Starting && Occupied(t)
      && (forall j | 0 <= j < n && s.screen.current != Some(j) :: t.screen.claims[j] == s.screen.claims[j])
      && match s.screen.current
         case Some(k) => LetsGo(s, t, k, true) && Count(t.log, Told(k)) == 1
         case None => t.tearing == s.tearing && t.log == s.log
  {
    if s.screen.current.Some? { FormerIsToldOnce(s, socket); }
  }

  lemma FormerIsToldOnce(s: State, socket: Socket)
    requires Placed(s.screen) && s.screen.current.Some? && !Owner(s.screen).revoked && ToldOnce(s)
    ensures Count(Step(s, Claim(socket)).log, Told(s.screen.current.value)) == 1
  {
    var k := s.screen.current.value;
    assert Told(k).Told?;
    StepCount(s, Claim(socket), Told(k));
    DeedsCount(s, Claim(socket), Told(k));
    assert Count(s.log, Told(k)) == 0;
  }

  /** Its owner's socket gives the screen up, and is told nothing; any other socket changes nothing. */
  lemma ReleaseGivesUpTheScreen(s: State, socket: Socket)
    requires OneOwner(s.screen)
    ensures var t := Step(s, Release(socket));
      match s.screen.current
      case Some(k) =>
        if s.screen.claims[k].socket != socket then t == s
        else GivenUp(s.screen, t.screen, k) && LetsGo(s, t, k, false) && forall x :: StandingOf(t.screen, x) == Gone
      case None => t == s
  {
  }

  /** The computer takes the screen from whoever owns it, and tells them. */
  lemma ReleaseAllGivesUpTheScreen(s: State)
    requires OneOwner(s.screen)
    ensures var t := Step(s, ReleaseAll);
      match s.screen.current
      case Some(k) => GivenUp(s.screen, t.screen, k) && LetsGo(s, t, k, true) && forall x :: StandingOf(t.screen, x) == Gone
      case None => t == s
  {
  }

  /** A cast is what the owner's screen shows from then on, and the one before it is stopped; a revoked claim's is stopped itself. */
  lemma InstalledCastIsShown(s: State, claim: nat, cast: Cast)
    requires OneOwner(s.screen) && claim < |s.screen.claims|
    ensures var t, was := Step(s, Install(claim, cast)), s.screen.claims[claim];
      && t.screen.current == s.screen.current && |t.screen.claims| == |s.screen.claims|
      && (forall j | 0 <= j < |s.screen.claims| && j != claim :: t.screen.claims[j] == s.screen.claims[j])
      && if was.revoked then
           && t.screen.claims[claim] == was && t.tearing == s.tearing + [Some(cast)]
           && t.log == s.log + [Installed(cast), TearingDown(Some(cast))]
         else
           && t.screen.claims[claim] == Claimed(was.socket, Some(cast), was.follow, false)
           && StandingOf(t.screen, was.socket) == Casting(cast)
           && t.tearing == s.tearing + (if was.cast.Some? then [was.cast] else [])
           && t.log == s.log + [Installed(cast)] + if was.cast.Some? then [TearingDown(was.cast)] else []
  {
  }

  /** The same of the loop that follows the browser; to cancel one takes no time. */
  lemma FollowedIsKept(s: State, claim: nat, follow: Follow)
    requires OneOwner(s.screen) && claim < |s.screen.claims|
    ensures var t, was := Step(s, SetFollow(claim, follow)), s.screen.claims[claim];
      && t.screen.current == s.screen.current && |t.screen.claims| == |s.screen.claims| && t.tearing == s.tearing
      && (forall j | 0 <= j < |s.screen.claims| && j != claim :: t.screen.claims[j] == s.screen.claims[j])
      && if was.revoked then
           t.screen.claims[claim] == was && t.log == s.log + [Following(follow), Cancelled(follow)]
         else
           && t.screen.claims[claim] == Claimed(was.socket, was.cast, Some(follow), false)
           && t.log == s.log + [Following(follow)] + if was.follow.Some? then [Cancelled(was.follow.value)] else []
  {
  }

  /** A teardown that settles leaves the count, and touches nothing else. */
  lemma SettledLeavesTheCount(s: State, place: nat)
    requires Placed(s.screen) && place < |s.tearing|
    ensures var t := Step(s, Settle(place));
      && t.screen == s.screen && t.log == s.log + [Settled(s.tearing[place])]
      && multiset(t.tearing) == multiset(s.tearing) - multiset{s.tearing[place]}
  {
    assert s.tearing == s.tearing[..place] + [s.tearing[place]] + s.tearing[place + 1..];
  }

  lemma {:induction false} SettlesOneByOne(s: State, settles: seq<Event>)
    requires Placed(s.screen) && IsRun(s, settles) && forall e | e in settles :: e.Settle?
    ensures After(s, settles).screen == s.screen && |After(s, settles).tearing| + |settles| == |s.tearing|
    decreases |settles|
  {
    if settles != [] {
      var t := Step(s, settles[0]);
      assert settles[0] in settles && forall e | e in settles[1..] :: e in settles;
      assert t.screen == s.screen && |t.tearing| + 1 == |s.tearing|;
      SettlesOneByOne(t, settles[1..]);
    }
  }

  /** Once its owner has given the screen up and every teardown has settled, and not before, the screen is free. */
  lemma ReleasedAndSettledIsFree(s: State, socket: Socket, settles: seq<Event>)
    requires Kept(s) && s.screen.current.Some? && Owner(s.screen).socket == socket
    requires IsRun(Step(s, Release(socket)), settles) && forall e | e in settles :: e.Settle?
    ensures !Occupied(After(Step(s, Release(socket)), settles)) <==> |settles| == |s.tearing| + 1
  {
    ReleaseGivesUpTheScreen(s, socket);
    SettlesOneByOne(Step(s, Release(socket)), settles);
  }

  // ----- superseded sockets -----

  /** What a socket other than the owner's, and the claims it once held, can still do. */
  predicate Foreign(s: Screen, owner: nat, e: Event)
    requires owner < |s.claims|
  {
    match e
    case Install(claim, _) => claim != owner
    case SetFollow(claim, _) => claim != owner
    case Release(socket) => socket != s.claims[owner].socket
    case Settle(_) => true
    case _ => false
  }

  /** However late they come, they change nothing the current owner has. */
  lemma {:induction false} SupersededCannotInterfere(s: State, owner: nat, events: seq<Event>)
    requires OneOwner(s.screen) && s.screen.current == Some(owner) && IsRun(s, events)
    requires forall e | e in events :: Foreign(s.screen, owner, e)
    ensures var t := After(s, events);
            && t.screen == s.screen
            && (forall k :: Told(k) in t.log ==> Told(k) in s.log)
            && forall socket :: StandingOf(t.screen, socket) == StandingOf(s.screen, socket)
    decreases |events|
  {
    if events != [] {
      var t := Step(s, events[0]);
      assert events[0] in events && Foreign(s.screen, owner, events[0]);
      assert t.screen == s.screen;
      forall f | f in events[1..] ensures Foreign(t.screen, owner, f) { assert f in events; }
      SupersededCannotInterfere(t, owner, events[1..]);
    }
  }

  // ----- the slot as it is updated in place -----

  class Entry {
    const socket: Socket
    var cast: Option<Cast>
    var follow: Option<Follow>
    var revoked: bool

    constructor (socket: Socket)
      ensures Value() == Claimed(socket, None, None, false)
    {
      this.socket, cast, follow, revoked := socket, None, None, false;
    }

    function Value(): Claimed
      reads this
    {
      Claimed(socket, cast, follow, revoked)
    }
  }

  /** `createViewerSlot`. A claim's `install` and `setFollow` are methods that take the entry they close over. */
  class Slot {
    var current: Entry?
    var tearing: seq<Option<Cast>>
    ghost var entries: seq<Entry>
    ghost var screen: Screen
    ghost var log: seq<Deed>

    /** `screen` is what the entries hold. */
    ghost predicate Valid()
      reads this, entries
    {
      && |entries| == |screen.claims| && Placed(screen)
      && (forall i, j | 0 <= i < j < |entries| :: entries[i] != entries[j])
      && (forall i | 0 <= i < |entries| :: entries[i].Value() == screen.claims[i])
      && current == (if screen.current.Some? then entries[screen.current.value] else null)
    }

    ghost function View(): State
      reads this
    {
      State(screen, tearing, log)
    }

    constructor ()
      ensures Valid() && View() == EMPTY
    {
      current, tearing, entries, screen, log := null, [], [], Screen([], None), [];
    }

    /** `tearDown`, up to its await. */
    method TearDown(entry: Entry)
      modifies this`tearing, this`log, entry`cast, entry`follow
      ensures entry.cast.None? && entry.follow.None?
      ensures tearing == old(tearing) + [old(entry.cast)]
      ensures log == old(log) + CancelDeeds(old(entry.follow)) + [TearingDown(old(entry.cast))]
    {
      if entry.follow.Some? {
        log := log + [Cancelled(entry.follow.value)];
        entry.follow := None;
      }
      var cast := entry.cast;
      entry.cast := None;
      StopTracked(cast);
    }

    /** A stop that occupancy counts until it settles. */
    method StopTracked(cast: Option<Cast>)
      modifies this`tearing, this`log
      ensures tearing == old(tearing) + [cast] && log == old(log) + [TearingDown(cast)]
    {
      tearing, log := tearing + [cast], log + [TearingDown(cast)];
    }

    method TakeScreen(socket: Socket) returns (entry: Entry)
      requires Valid()
      modifies this, current
      ensures Valid() && View() == Step(old(View()), Claim(socket))
      ensures fresh(entry) && entries == old(entries) + [entry]
    {
      var previous := current;
      entry := new Entry(socket);
      current := entry;
      if previous != null {
        previous.revoked := true;
        log := log + [Told(screen.current.value)];
        TearDown(previous);
      }
      screen := ScreenStep(screen, Claim(socket));
      entries := entries + [entry];
    }

    method Install(entry: Entry, cast: Cast, ghost claim: nat) returns (accepted: bool)
      requires Valid() && claim < |entries| && entries[claim] == entry
      modifies this`tearing, this`log, this`screen, entry`cast
      ensures Valid() && View() == Step(old(View()), Event.Install(claim, cast))
      ensures accepted == !entry.revoked
    {
      screen := ScreenStep(screen, Event.Install(claim, cast));
      log := log + [Installed(cast)];
      if entry.revoked {
        StopTracked(Some(cast));
        return false;
      }
      var replaced := entry.cast;
      entry.cast := Some(cast);
      if replaced.Some? { StopTracked(replaced); }
      return true;
    }

    method SetFollow(entry: Entry, follow: Follow, ghost claim: nat) returns (accepted: bool)
      requires Valid() && claim < |entries| && entries[claim] == entry
      modifies this`log, this`screen, entry`follow
      ensures Valid() && View() == Step(old(View()), Event.SetFollow(claim, follow))
      ensures accepted == !entry.revoked
    {
      screen := ScreenStep(screen, Event.SetFollow(claim, follow));
      log := log + [Following(follow)];
      if entry.revoked {
        log := log + [Cancelled(follow)];
        return false;
      }
      log := log + CancelDeeds(entry.follow);
      entry.follow := Some(follow);
      return true;
    }

    method Release(socket: Socket)
      requires Valid()
      modifies this, current
      ensures Valid() && View() == Step(old(View()), Event.Release(socket))
    {
      var entry := current;
      if entry == null || entry.socket != socket { return; }
      screen := ScreenStep(screen, Event.Release(socket));
      current := null;
      entry.revoked := true;
      TearDown(entry);
    }

    method ReleaseAll()
      requires Valid()
      modifies this, current
      ensures Valid() && View() == Step(old(View()), Event.ReleaseAll)
    {
      var entry := current;
      if entry == null { return; }
      log := log + [Told(screen.current.value)];
      screen := ScreenStep(screen, Event.ReleaseAll);
      current := null;
      entry.revoked := true;
      TearDown(entry);
    }

    /** A teardown settles, or its budget runs out. */
    method TearDownSettles(place: nat)
      requires Valid() && place < |tearing|
      modifies this`tearing, this`log
      ensures Valid() && View() == Step(old(View()), Settle(place))
    {
      log := log + [Settled(tearing[place])];
      tearing := tearing[..place] + tearing[place + 1..];
    }

    method IsOccupied() returns (occupied: bool)
      requires Valid()
      ensures occupied == Occupied(View())
    {
      occupied := current != null || tearing != [];
    }
  }
}
