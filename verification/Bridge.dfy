/** One upstream socket bridged to one page, from before its handshake until either end is gone. */
module Bridge {
  import opened Text

  /** A frame, known by what it is and how many bytes it takes. */
  datatype Frame = Frame(id: nat, size: nat)

  const MOST_FRAMES := 64
  const MOST_BYTES := 8 * 1024 * 1024

  /** The bridge's variables, which listeners it still has, and everything it did to either socket. */
  datatype State = State(
    attached: bool,
    pending: seq<Frame>,
    pendingBytes: nat,
    disposed: bool,
    timedOut: bool,
    outcome: Option<bool>,
    waiting: bool,
    listening: bool,
    received: seq<Frame>,
    sent: seq<Frame>,
    closes: seq<int>,
    terminations: nat)

  datatype Event =
    | Opened
    | Message(frame: Frame)
    | Failed
    | Closed(code: int)
    | Aborted
    | TimedOut
    | Attached
    | Dropped

  function Fresh(): State {
    State(false, [], 0, false, false, None, true, true, [], [], [], 0)
  }

  // ----- the handlers -----

  /** `finishHandshake`: the timer and the listeners for it go; a promise keeps what it was first resolved with. */
  function HandshakeOver(s: State, success: bool): State {
    s.(waiting := false, outcome := if s.outcome.None? then Some(success) else s.outcome)
  }

  function Disposal(s: State): State {
    if s.disposed then s
    else HandshakeOver(s.(disposed := true), false).(
      listening := false, pending := [], pendingBytes := 0, terminations := s.terminations + 1)
  }

  function Told(s: State, code: int): State {
    if s.attached then s.(closes := s.closes + [code]) else s
  }

  function Failure(s: State): State {
    Disposal(Told(s, 1011))
  }

  function Arrival(s: State, frame: Frame): State {
    var got := s.(received := s.received + [frame]);
    if s.attached then got.(sent := s.sent + [frame])
    else if |s.pending| >= MOST_FRAMES || s.pendingBytes + frame.size > MOST_BYTES then Failure(got)
    else got.(pending := s.pending + [frame], pendingBytes := s.pendingBytes + frame.size)
  }

  function Attachment(s: State): State {
    var on := s.(attached := true);
    if s.disposed then on.(closes := s.closes + [1011])
    else on.(sent := s.sent + s.pending, pending := [], pendingBytes := 0)
  }

  /** An event reaches its handler only while the handler is registered. */
  function Step(s: State, e: Event): State {
    match e
    case Opened => if s.waiting then HandshakeOver(s, true) else s
    case Message(frame) => if s.listening then Arrival(s, frame) else s
    case Failed => if s.listening then Failure(s) else s
    case Closed(code) => if s.listening then Disposal(Told(s, if code == 1000 then 1000 else 1011)) else s
    case Aborted => if s.waiting then Disposal(s) else s
    case TimedOut => if s.waiting then Disposal(s.(timedOut := true)) else s
    case Attached => Attachment(s)
    case Dropped => Disposal(s)
  }

  function After(s: State, run: seq<Event>): State
    decreases |run|
  {
    if run == [] then s else Step(After(s, run[..|run| - 1]), run[|run| - 1])
  }

  // ----- what every run keeps -----

  function Bytes(frames: seq<Frame>): nat {
    if frames == [] then 0 else Bytes(frames[..|frames| - 1]) + frames[|frames| - 1].size
  }

  ghost predicate Kept(s: State) {
    && |s.pending| <= MOST_FRAMES && s.pendingBytes == Bytes(s.pending) <= MOST_BYTES
    && (if s.disposed then s.pending == [] && s.sent <= s.received else s.sent + s.pending == s.received)
    && (s.attached ==> s.pending == [])
    && s.terminations == (if s.disposed then 1 else 0)
    && s.listening == !s.disposed && s.waiting == s.outcome.None?
    && (s.disposed ==> s.outcome.Some?) && (s.timedOut ==> s.disposed && s.outcome == Some(false))
  }

  lemma OneMoreFrame(frames: seq<Frame>, frame: Frame)
    ensures Bytes(frames + [frame]) == Bytes(frames) + frame.size
  {
    assert (frames + [frame])[..|frames|] == frames;
  }

  lemma EndKeeps(s: State, code: int)
    requires Kept(s)
    ensures Kept(Disposal(s)) && Kept(Disposal(Told(s, code))) && Kept(Disposal(s.(timedOut := s.timedOut || s.waiting)))
  {
  }

  lemma ArrivalKeeps(s: State, frame: Frame)
    requires Kept(s) && s.listening
    ensures Kept(Arrival(s, frame))
  {
    OneMoreFrame(s.pending, frame);
    if !s.attached {
      assert s.sent + (s.pending + [frame]) == s.received + [frame];
    } else {
      assert s.sent + [frame] + [] == s.received + [frame];
    }
  }

  lemma StepKeeps(s: State, e: Event)
    requires Kept(s)
    ensures Kept(Step(s, e))
  {
    match e
    case Message(frame) => if s.listening { ArrivalKeeps(s, frame); }
    case Closed(code) => EndKeeps(s, if code == 1000 then 1000 else 1011);
    case Attached =>
    case Opened =>
    case _ => EndKeeps(s, 1011);
  }

  /** Over every run: nothing lost, repeated or reordered until the end; bounded; handshaken and terminated once. */
  lemma {:induction false} RunKeeps(run: seq<Event>)
    ensures Kept(After(Fresh(), run))
    decreases |run|
  {
    if run != [] {
      RunKeeps(run[..|run| - 1]);
      StepKeeps(After(Fresh(), run[..|run| - 1]), run[|run| - 1]);
    }
  }

  /** Once a page is attached, and until the bridge is disposed of, it has been sent exactly what came. */
  lemma AttachedPageHasItAll(run: seq<Event>)
    requires After(Fresh(), run).attached && !After(Fresh(), run).disposed
    ensures After(Fresh(), run).sent == After(Fresh(), run).received
  {
    RunKeeps(run);
  }

  /** What an end fixes: whatever happens later, nothing is sent, and how the handshake went does not change. */
  ghost predicate Fixed(before: State, after: State) {
    && (before.outcome.Some? ==> after.outcome == before.outcome)
    && (before.disposed ==>
          after.disposed && after.sent == before.sent && after.received == before.received && after.timedOut == before.timedOut)
    && before.sent <= after.sent
  }

  lemma StepFixes(s: State, e: Event)
    requires Kept(s)
    ensures Fixed(s, Step(s, e))
  {
  }

  lemma {:induction false} EndIsTheEnd(run: seq<Event>, later: seq<Event>)
    ensures Fixed(After(Fresh(), run), After(Fresh(), run + later))
    decreases |later|
  {
    if later == [] {
      assert run + later == run;
    } else {
      var before := later[..|later| - 1];
      EndIsTheEnd(run, before);
      assert (run + later)[..|run + later| - 1] == run + before;
      RunKeeps(run + before);
      StepFixes(After(Fresh(), run + before), later[|later| - 1]);
    }
  }

  // ----- what the page is told -----

  /** A page that is attached only once the handshake is over, and does not leave of itself. */
  predicate PageStays(s: State, run: seq<Event>)
    decreases |run|
  {
    run == [] ||
    (PageStays(s, run[..|run| - 1]) && !run[|run| - 1].Dropped?
     && (run[|run| - 1].Attached? ==> After(s, run[..|run| - 1]).outcome.Some?))
  }

  /** However the bridge ends, a page that stays is told so, be it attached before the end or after. */
  lemma {:induction false} PageHearsOfTheEnd(run: seq<Event>)
    requires PageStays(Fresh(), run)
    ensures var s := After(Fresh(), run);
      && (s.attached ==> s.outcome.Some?) && (s.attached && s.disposed <==> s.closes != [])
      && forall code | code in s.closes :: code == 1000 || code == 1011
    decreases |run|
  {
    if run != [] {
      PageHearsOfTheEnd(run[..|run| - 1]);
      RunKeeps(run[..|run| - 1]);
    }
  }

  /** The handshake is given up as late, which is what 504 says, exactly when the timer went off while it was waited for. */
  lemma {:induction false} LateWhenTimerFound(run: seq<Event>)
    ensures After(Fresh(), run).timedOut <==> exists i | 0 <= i < |run| :: run[i] == TimedOut && After(Fresh(), run[..i]).waiting
    decreases |run|
  {
    if run != [] {
      var before, last := run[..|run| - 1], |run| - 1;
      LateWhenTimerFound(before);
      OnlyLateTimer(After(Fresh(), before), run[last]);
      forall i | 0 <= i < last ensures before[i] == run[i] && before[..i] == run[..i] {
      }
      if After(Fresh(), before).timedOut {
        var i :| 0 <= i < |before| && before[i] == TimedOut && After(Fresh(), before[..i]).waiting;
        assert run[i] == TimedOut && After(Fresh(), run[..i]).waiting;
      } else if i :| 0 <= i < |run| && run[i] == TimedOut && After(Fresh(), run[..i]).waiting {
        assert i == last;
      }
    }
  }

  lemma OnlyLateTimer(s: State, e: Event)
    ensures Step(s, e).timedOut <==> s.timedOut || (e == TimedOut && s.waiting)
  {
  }

  /** The handshake succeeds exactly when the upstream opened while it was still waited for. */
  lemma {:induction false} OpensWhenWaitedFor(run: seq<Event>)
    ensures After(Fresh(), run).outcome == Some(true) <==>
      exists i | 0 <= i < |run| :: run[i] == Opened && After(Fresh(), run[..i]).waiting
    decreases |run|
  {
    if run != [] {
      var before, last := run[..|run| - 1], |run| - 1;
      OpensWhenWaitedFor(before);
      RunKeeps(before);
      OnlyOpening(After(Fresh(), before), run[last]);
      forall i | 0 <= i < last ensures before[i] == run[i] && before[..i] == run[..i] {
      }
      if After(Fresh(), before).outcome == Some(true) {
        var i :| 0 <= i < |before| && before[i] == Opened && After(Fresh(), before[..i]).waiting;
        assert run[i] == Opened && After(Fresh(), run[..i]).waiting;
      } else if i :| 0 <= i < |run| && run[i] == Opened && After(Fresh(), run[..i]).waiting {
        assert i == last;
      }
    }
  }

  lemma OnlyOpening(s: State, e: Event)
    requires Kept(s)
    ensures Step(s, e).outcome == Some(true) <==> s.outcome == Some(true) || (e == Opened && s.waiting)
  {
  }

  /** What ends the bridge: either end's going, a handshake given up or late, or more early frames than are held. */
  lemma EndsWhen(s: State, e: Event)
    requires Kept(s)
    ensures Step(s, e).disposed <==>
      match e
      case Opened => s.disposed
      case Attached => s.disposed
      case Aborted => s.disposed || s.waiting
      case TimedOut => s.disposed || s.waiting
      case Message(frame) => s.disposed || (!s.attached && (|s.pending| + 1 > MOST_FRAMES || s.pendingBytes + frame.size > MOST_BYTES))
      case _ => true
  {
  }

  /** What a page that is there is told of an end: 1000 when the upstream closed with that, 1011 of any other. */
  lemma PageIsToldWhy(s: State, e: Event)
    requires Kept(s)
    ensures Step(s, e).closes == s.closes +
      match e
      case Closed(code) => if s.disposed || !s.attached then [] else if code == 1000 then [1000] else [1011]
      case Failed => if s.disposed || !s.attached then [] else [1011]
      case Attached => if s.disposed then [1011] else []
      case _ => []
  {
  }

  /** A frame goes on to a page that is there, and is held for one that is not. */
  lemma FrameGoesOn(s: State, frame: Frame)
    requires Kept(s) && !s.disposed && !Step(s, Message(frame)).disposed
    ensures var t := Step(s, Message(frame));
      && t.received == s.received + [frame]
      && if s.attached then t.sent == s.sent + [frame] && t.pending == []
         else t.pending == s.pending + [frame] && t.sent == s.sent
  {
  }

  // ----- when waiting for a page ends it -----

  function Arriving(frames: seq<Frame>): (run: seq<Event>)
    ensures |run| == |frames|
  {
    if frames == [] then [] else Arriving(frames[..|frames| - 1]) + [Message(frames[|frames| - 1])]
  }

  /** Frames that arrive before any page are all held, until there are too many of them or of their bytes. */
  lemma {:induction false} HeldUntilTooMuch(frames: seq<Frame>)
    ensures var s := After(Fresh(), Arriving(frames));
      && (s.disposed <==> |frames| > MOST_FRAMES || Bytes(frames) > MOST_BYTES)
      && (!s.disposed ==> s.pending == frames) && !s.attached
    decreases |frames|
  {
    if frames != [] {
      var before, last := frames[..|frames| - 1], frames[|frames| - 1];
      HeldUntilTooMuch(before);
      RunKeeps(Arriving(before));
      assert Arriving(frames)[..|frames| - 1] == Arriving(before);
      assert After(Fresh(), Arriving(frames)) == Step(After(Fresh(), Arriving(before)), Message(last));
      assert frames == before + [last];
    }
  }

  // ----- the bridge itself -----

  class WebSocketBridge {
    var attached: bool
    var pending: seq<Frame>
    var pendingBytes: nat
    var disposed: bool
    var timedOut: bool
    /** The promise `opened`. */
    var outcome: Option<bool>
    /** Whether the timer, the `open` and the `abort` listener are still there; then the other three. */
    var waiting: bool
    var listening: bool
    /** What came from upstream, and what was done to the page's socket and to the upstream's. */
    ghost var received: seq<Frame>
    var sent: seq<Frame>
    var closes: seq<int>
    var terminations: nat

    ghost function View(): State
      reads this
    {
      State(attached, pending, pendingBytes, disposed, timedOut, outcome, waiting, listening, received, sent, closes, terminations)
    }

    /** An upstream whose request is already aborted is disposed of at once. */
    constructor (aborted: bool)
      ensures View() == if aborted then Disposal(Fresh()) else Fresh()
    {
      attached, pending, pendingBytes, disposed, timedOut, outcome := false, [], 0, false, false, None;
      waiting, listening, received, sent, closes, terminations := true, true, [], [], [], 0;
      new;
      if aborted { Dispose(); }
    }

    method FinishHandshake(success: bool)
      modifies this
      ensures View() == HandshakeOver(old(View()), success)
    {
      waiting := false;
      if outcome.None? { outcome := Some(success); }
    }

    method Dispose()
      modifies this
      ensures View() == Disposal(old(View()))
    {
      if disposed { return; }
      disposed := true;
      FinishHandshake(false);
      listening := false;
      pending := [];
      pendingBytes := 0;
      terminations := terminations + 1;
    }

    method OnOpen()
      modifies this
      ensures old(waiting) ==> View() == Step(old(View()), Opened)
    {
      FinishHandshake(true);
    }

    method OnError()
      modifies this
      ensures View() == Failure(old(View()))
    {
      if attached { closes := closes + [1011]; }
      Dispose();
    }

    method OnClose(code: int)
      modifies this
      ensures old(listening) ==> View() == Step(old(View()), Closed(code))
    {
      if attached { closes := closes + [if code == 1000 then 1000 else 1011]; }
      Dispose();
    }

    method OnMessage(frame: Frame)
      modifies this
      ensures old(listening) ==> View() == Step(old(View()), Message(frame))
    {
      received := received + [frame];
      if attached {
        sent := sent + [frame];
        return;
      }
      if |pending| >= MOST_FRAMES || pendingBytes + frame.size > MOST_BYTES {
        OnError();
        return;
      }
      pending := pending + [frame];
      pendingBytes := pendingBytes + frame.size;
    }

    method OnTimeout()
      modifies this
      ensures old(waiting) ==> View() == Step(old(View()), TimedOut)
    {
      timedOut := true;
      Dispose();
    }

    method Attach()
      modifies this
      ensures View() == Step(old(View()), Attached)
    {
      attached := true;
      if disposed {
        closes := closes + [1011];
        return;
      }
      ghost var before := sent;
      for k := 0 to |pending|
        invariant View() == old(View()).(attached := true, sent := sent)
        invariant sent == before + pending[..k]
      {
        sent := sent + [pending[k]];
        assert pending[..k] + [pending[k]] == pending[..k + 1];
      }
      assert pending[..|pending|] == pending;
      pending := [];
      pendingBytes := 0;
    }
  }
}
