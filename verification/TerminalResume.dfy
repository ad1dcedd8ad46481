/** A phone's view of one host terminal, across drops and reattaches.
  *
  * The host publishes a frame in two steps: it is added to the scrollback, then
  * handed to the subscribers. Attaching takes a replay and subscribes in one
  * step. The client keeps the cursor of the last byte it accepted and asks for
  * what follows it.
  */
module TerminalResume {
  import opened Basics
  import opened Scrollback
  import Seqs

  datatype Status = Connecting | Attached | Exited | Unavailable

  /** One call of the renderer: some output, and the offset said to be its own. */
  datatype Piece = Piece(data: seq<Byte>, at: nat)

  /** `start` and `screen`: where the renderer's output begins, and that output,
    * since it was last cleared. `shown`: all it was ever handed. */
  datatype Client = Client(
    cursor: Option<nat>,
    start: nat,
    screen: seq<Byte>,
    shown: seq<Piece>,
    status: Status,
    exitCode: Option<int>,
    title: string)

  const NEW_CLIENT: Client := Client(None, 0, [], [], Connecting, None, "")

  function Applied(c: Client, event: Event): Client {
    match event
    case Replay(cursor, reset) =>
      var cleared := if reset then c.(screen := []) else c;
      cleared.(cursor := Some(cursor), start := if reset || c.cursor.None? then cursor else c.start, status := Attached)
    case Live(Output(data)) =>
      var at := if c.cursor.Some? then c.cursor.value else 0;
      c.(screen := c.screen + data, shown := c.shown + [Piece(data, at)], cursor := Some(at + |data|), status := Attached)
    case Live(Title(title)) => c.(title := title)
    case Live(EchoMode(_)) => c
    case Live(Exit(code)) => c.(exitCode := code, status := Exited)
  }

  function AppliedAll(c: Client, events: seq<Event>): Client
    decreases |events|
  {
    if events == [] then c else AppliedAll(Applied(c, events[0]), events[1..])
  }

  // ----- the attach loop -----

  const RECONNECT_INITIAL_MS: nat := 500
  const RECONNECT_MAX_MS: nat := 10_000

  datatype Failure = Unauthorized | Gone | Retry(message: string)

  /** How one attachment went: what arrived, and how it ended. The screen can go
    * away at any event (`TornDown`); a stream that just ends was dropped. */
  datatype Ending = Ended | Failed(failure: Failure) | TornDown

  datatype Attempt = Attempt(events: seq<Event>, ending: Ending)

  predicate Final(ending: Ending) {
    ending.TornDown? || (ending.Failed? && !ending.failure.Retry?)
  }

  /** Every event of every attempt is applied; only the status forgets. */
  function Reattached(c: Client, script: seq<Attempt>): Client
    decreases |script|
  {
    if script == [] then c
    else
      var after := AppliedAll(c, script[0].events);
      if script[0].ending == Failed(Gone) then after.(status := Unavailable)
      else if Final(script[0].ending) then after
      else Reattached(after.(status := Connecting), script[1..])
  }

  lemma NoMoreAttempts(c: Client, script: seq<Attempt>)
    ensures Reattached(c, script[|script|..]) == c
  {
  }

  lemma ReattachedStep(c: Client, script: seq<Attempt>, i: nat)
    requires i < |script|
    ensures var after := AppliedAll(c, script[i].events);
      Reattached(c, script[i..]) ==
        if script[i].ending == Failed(Gone) then after.(status := Unavailable)
        else if Final(script[i].ending) then after
        else Reattached(after.(status := Connecting), script[i + 1..])
  {
    assert script[i..][1..] == script[i + 1..];
  }

  /** How many of the attempts `[..i + 1]`, counted back from the last, delivered nothing. */
  function SilentBefore(script: seq<Attempt>, i: nat): nat
    requires i < |script|
  {
    if script[i].events != [] then 0
    else if i == 0 then 1
    else 1 + SilentBefore(script, i - 1)
  }

  function Power2(n: nat): nat {
    if n == 0 then 1 else 2 * Power2(n - 1)
  }

  /** The pause after attempt `i`: 500 ms, doubled for each attempt in a row that
    * delivered nothing (the first such attempt has nothing to double), up to 10 s. */
  function Pause(script: seq<Attempt>, i: nat): nat
    requires i < |script|
  {
    var silent := SilentBefore(script, i);
    Seqs.Min(RECONNECT_INITIAL_MS * Power2(if silent == i + 1 then i else silent), RECONNECT_MAX_MS)
  }

  class Terminal {
    var cursor: Option<nat>
    var start: nat
    var screen: seq<Byte>
    var shown: seq<Piece>
    var status: Status
    var exitCode: Option<int>
    var title: string
    var error: Option<string>

    constructor ()
      ensures View() == NEW_CLIENT && error == None
    {
      cursor, start, screen, shown, status, exitCode, title, error := None, 0, [], [], Connecting, None, "", None;
    }

    function View(): Client
      reads this
    {
      Client(cursor, start, screen, shown, status, exitCode, title)
    }

    method OnReset()
      modifies this`screen
      ensures screen == []
    {
      screen := [];
    }

    method OnOutput(data: seq<Byte>, at: nat)
      modifies this`screen, this`shown
      ensures screen == old(screen) + data && shown == old(shown) + [Piece(data, at)]
    {
      screen, shown := screen + data, shown + [Piece(data, at)];
    }

    method Apply(event: Event)
      modifies this
      ensures View() == Applied(old(View()), event) && error == old(error)
    {
      match event
      case Replay(at, reset) =>
        if reset {
          OnReset();
        }
        // Where the output that follows will start on the screen.
        if reset || cursor.None? {
          start := at;
        }
        cursor := Some(at);
        status := Attached;
      case Live(Output(data)) =>
        var at := if cursor.Some? then cursor.value else 0;
        OnOutput(data, at);
        cursor := Some(at + |data|);
        status := Attached;
      case Live(Title(t)) =>
        title := t;
      case Live(Exit(code)) =>
        exitCode := code;
        status := Exited;
      case Live(EchoMode(_)) =>
    }

    /** Applies what one attachment delivers; anything at all resets the pause. */
    method Pump(events: seq<Event>, delay: nat) returns (next: nat)
      modifies this
      ensures View() == AppliedAll(old(View()), events) && error == old(error)
      ensures next == if events == [] then delay else RECONNECT_INITIAL_MS
    {
      next := delay;
      assert events[0..] == events;
      for i := 0 to |events|
        invariant AppliedAll(View(), events[i..]) == AppliedAll(old(View()), events) && error == old(error)
        invariant next == if i == 0 then delay else RECONNECT_INITIAL_MS
      {
        assert events[i..][1..] == events[i + 1..];
        next := RECONNECT_INITIAL_MS;
        Apply(events[i]);
      }
    }

    /** Whether to back off and attach again. */
    method HandleFailure(failure: Failure) returns (again: bool)
      modifies this
      ensures again == failure.Retry?
      ensures View() == if failure.Gone? then old(View()).(status := Unavailable) else old(View())
      ensures error == match failure
                       case Unauthorized => old(error)
                       case Gone => Some("This terminal is no longer running on the host.")
                       case Retry(message) => Some(message)
    {
      match failure
      case Unauthorized =>
        again := false;
      case Gone =>
        status, error, again := Unavailable, Some("This terminal is no longer running on the host."), false;
      case Retry(message) =>
        error, again := Some(message), true;
    }

    /** Attaches until the screen goes away or the host refuses for good; an exit
      * event does not end it. `script` is what the host will do. */
    method Run(script: seq<Attempt>) returns (attempts: nat, pauses: seq<nat>)
      modifies this
      ensures View() == Reattached(old(View()), script)
      ensures Paused(script, pauses)
      ensures attempts == |pauses| == |script| || (attempts == |pauses| + 1 <= |script| && Final(script[|pauses|].ending))
    {
      attempts, pauses := 0, [];
      var delay := RECONNECT_INITIAL_MS;
      assert script[0..] == script;
      hide Paused, Pause, Applied, AppliedAll, Reattached, Seqs.Min;
      NoPauses(script);
      while attempts < |script|
        invariant attempts == |pauses| <= |script| && Paused(script, pauses)
        invariant Reattached(View(), script[attempts..]) == Reattached(old(View()), script)
        invariant delay == NextDelay(script, attempts)
      {
        var attempt := script[attempts];
        ReattachedStep(View(), script, attempts);
        PauseStep(script, attempts);
        delay := Pump(attempt.events, delay);
        attempts := attempts + 1;
        if attempt.ending.TornDown? {
          return;
        }
        if attempt.ending.Failed? {
          var again := HandleFailure(attempt.ending.failure);
          if !again {
            return;
          }
        }
        status := Connecting;
        PausedMore(script, pauses);
        pauses := pauses + [delay];
        delay := Seqs.Min(delay * 2, RECONNECT_MAX_MS);
      }
      NoMoreAttempts(View(), script);
    }
  }

  /** Each pause made was after an attempt worth repeating, and as long as its place calls for. */
  ghost predicate Paused(script: seq<Attempt>, pauses: seq<nat>) {
    |pauses| <= |script| && forall i :: 0 <= i < |pauses| ==> !Final(script[i].ending) && pauses[i] == Pause(script, i)
  }

  lemma NoPauses(script: seq<Attempt>)
    ensures Paused(script, [])
  {
  }

  lemma PausedMore(script: seq<Attempt>, pauses: seq<nat>)
    requires Paused(script, pauses) && |pauses| < |script| && !Final(script[|pauses|].ending)
    ensures Paused(script, pauses + [Pause(script, |pauses|)])
  {
    hide Pause, Final;
  }

  /** The pause that attempt `i` will be followed by if it delivers nothing. */
  function NextDelay(script: seq<Attempt>, i: nat): nat
    requires i <= |script|
  {
    if i == 0 then RECONNECT_INITIAL_MS else Seqs.Min(Pause(script, i - 1) * 2, RECONNECT_MAX_MS)
  }

  lemma PowerPositive(n: nat)
    ensures Power2(n) >= 1
  {
  }

  lemma PauseStep(script: seq<Attempt>, i: nat)
    requires i < |script|
    ensures Pause(script, i) == if script[i].events != [] then RECONNECT_INITIAL_MS else NextDelay(script, i)
  {
    if script[i].events == [] && i > 0 {
      var n := if SilentBefore(script, i - 1) == i then i - 1 else SilentBefore(script, i - 1);
      assert Power2(n + 1) == 2 * Power2(n);
      PowerPositive(n);
    }
  }

  // ----- the client against its host -----

  /** `fanning`: a frame in the scrollback that the subscribers have yet to be
    * handed. `wire`: sent to the client and not yet received. */
  datatype Link = Link(wire: seq<Event>, subscribed: bool)

  datatype State = State(
    stream: seq<Byte>,
    frames: seq<Frame>,
    fanning: Option<Frame>,
    link: Option<Link>,
    client: Client)

  datatype Label = Push(frame: Frame) | FanOut(full: bool) | Attach | Deliver | Drop

  datatype Limits = Limits(frames: nat, bytes: nat)

  predicate Init(s: State) {
    s == State([], [], None, None, NEW_CLIENT)
  }

  predicate HostOk(s: State) {
    |Text(s.frames)| <= |s.stream| && s.stream[|s.stream| - |Text(s.frames)|..] == Text(s.frames)
  }

  predicate Enabled(s: State, l: Label) {
    match l
    case Push(_) => s.fanning.None?
    case FanOut(_) => s.fanning.Some?
    case Attach => s.link.None? && |Text(s.frames)| <= |s.stream|
    case Deliver => s.link.Some? && s.link.value.wire != []
    case Drop => s.link.Some?
  }

  function Next(s: State, l: Label, limits: Limits): State
    requires Enabled(s, l)
  {
    match l
    case Push(frame) =>
      s.(stream := s.stream + Data(frame), frames := Evicted(s.frames + [frame], limits.frames, limits.bytes),
         fanning := Some(frame))
    case FanOut(full) =>
      // A subscriber that cannot take the frame is disconnected.
      var link := if s.link.None? || !s.link.value.subscribed then s.link
                  else if full then Some(s.link.value.(subscribed := false))
                  else Some(s.link.value.(wire := s.link.value.wire + [Live(s.fanning.value)]));
      s.(fanning := None, link := link)
    case Attach => s.(link := Some(Link(Since(s.frames, |s.stream|, s.client.cursor), true)))
    case Deliver =>
      s.(client := Applied(s.client, s.link.value.wire[0]), link := Some(s.link.value.(wire := s.link.value.wire[1..])))
    case Drop => s.(link := None)
  }

  function Fanning(s: State): nat {
    if s.fanning.Some? then |Data(s.fanning.value)| else 0
  }

  /** What the renderer shows is one stretch of the stream, and the cursor is its end. */
  predicate InStep(c: Client, stream: seq<Byte>) {
    && (c.cursor.None? ==> c.screen == [])
    && (c.cursor.Some? ==> c.start <= c.cursor.value <= |stream| && c.screen == stream[c.start..c.cursor.value])
  }

  /** Where the first output on the wire belongs. */
  predicate WireStarts(c: Client, wire: seq<Event>, at: nat) {
    if wire != [] && wire[0].Replay? then
      wire[0].cursor == at && NoReplay(wire[1..])
      && (if c.cursor.Some? then wire[0].reset || c.cursor.value == at else !wire[0].reset)
    else c.cursor == Some(at) && NoReplay(wire)
  }

  predicate Carries(stream: seq<Byte>, at: nat, text: seq<Byte>) {
    at + |text| <= |stream| && stream[at..at + |text|] == text
  }

  predicate WireOk(s: State, at: nat)
    requires s.link.Some?
  {
    var link := s.link.value;
    && WireStarts(s.client, link.wire, at)
    && Carries(s.stream, at, EventText(link.wire))
    && (link.subscribed ==> at + |EventText(link.wire)| + Fanning(s) == |s.stream|)
  }

  predicate FanningOk(s: State) {
    Fanning(s) <= |s.stream| && (s.fanning.Some? ==> s.stream[|s.stream| - Fanning(s)..] == Data(s.fanning.value))
  }

  /** Every piece the renderer was handed was said to be where it is. */
  ghost predicate Placed(c: Client, stream: seq<Byte>) {
    forall p <- c.shown :: Carries(stream, p.at, p.data)
  }

  ghost predicate Inv(s: State) {
    && HostOk(s) && FanningOk(s) && InStep(s.client, s.stream) && Placed(s.client, s.stream)
    && (s.link.Some? ==> exists at: nat :: WireOk(s, at))
  }

  lemma EventTextSnoc(events: seq<Event>, frame: Frame)
    ensures EventText(events + [Live(frame)]) == EventText(events) + Data(frame)
  {
    var last := [Live(frame)];
    EventTextAppend(events, last);
    assert last[1..] == [] && EventText(last) == Data(frame) + EventText(last[1..]);
    assert Data(frame) + [] == Data(frame);
  }

  lemma EventTextTail(events: seq<Event>)
    requires events != []
    ensures EventText(events) == (if events[0].Live? then Data(events[0].frame) else []) + EventText(events[1..])
  {
  }

  lemma SuffixOfSuffix(s: seq<Byte>, t: seq<Byte>, u: seq<Byte>)
    requires |t| <= |s| && s[|s| - |t|..] == t && |u| <= |t| && t[|t| - |u|..] == u
    ensures s[|s| - |u|..] == u
  {
    assert s[|s| - |t|..][|t| - |u|..] == s[|s| - |u|..];
  }

  lemma PushKeepsHost(s: State, frame: Frame, limits: Limits)
    requires HostOk(s) && s.fanning.None?
    ensures HostOk(Next(s, Push(frame), limits)) && FanningOk(Next(s, Push(frame), limits))
  {
    var frames, stream := s.frames + [frame], s.stream + Data(frame);
    hide Text, Data, Evicted;
    TextSnoc(s.frames, frame);
    EvictionKeepsASuffix(frames, limits.frames, limits.bytes);
    Seqs.DropWithin(s.stream, Data(frame), |s.stream| - |Text(s.frames)|);
    SuffixOfSuffix(stream, Text(frames), Text(Evicted(frames, limits.frames, limits.bytes)));
  }

  lemma InStepGrows(c: Client, stream: seq<Byte>, more: seq<Byte>)
    requires InStep(c, stream)
    ensures InStep(c, stream + more)
  {
    if c.cursor.Some? {
      assert (stream + more)[c.start..c.cursor.value] == stream[c.start..c.cursor.value];
    }
  }

  lemma PlacedGrows(c: Client, stream: seq<Byte>, more: seq<Byte>)
    requires Placed(c, stream)
    ensures Placed(c, stream + more)
  {
    forall p | p in c.shown
      ensures Carries(stream + more, p.at, p.data)
    {
      CarriesGrows(stream, more, p.at, p.data);
    }
  }

  lemma PushKeeps(s: State, frame: Frame, limits: Limits)
    requires Inv(s) && s.fanning.None?
    ensures Inv(Next(s, Push(frame), limits))
  {
    var t := Next(s, Push(frame), limits);
    PushKeepsHost(s, frame, limits);
    InStepGrows(s.client, s.stream, Data(frame));
    PlacedGrows(s.client, s.stream, Data(frame));
    hide HostOk, InStep, Placed, EventText, Data, Text, Evicted, WireStarts, Carries;
    if s.link.Some? {
      var at: nat :| WireOk(s, at);
      CarriesGrows(s.stream, Data(frame), at, EventText(s.link.value.wire));
      assert WireOk(t, at);
    }
  }

  lemma CarriesGrows(stream: seq<Byte>, more: seq<Byte>, at: nat, text: seq<Byte>)
    requires Carries(stream, at, text)
    ensures Carries(stream + more, at, text)
  {
    assert (stream + more)[at..at + |text|] == stream[at..at + |text|];
  }

  lemma CarriesMore(stream: seq<Byte>, at: nat, text: seq<Byte>, last: seq<Byte>)
    requires Carries(stream, at, text) && at + |text| + |last| == |stream| && stream[at + |text|..] == last
    ensures Carries(stream, at, text + last)
  {
    Slices(stream, at, at + |text|, |stream|);
    assert stream[at + |text|..|stream|] == last;
  }

  lemma CarriesParts(stream: seq<Byte>, at: nat, head: seq<Byte>, tail: seq<Byte>)
    requires Carries(stream, at, head + tail)
    ensures Carries(stream, at, head) && Carries(stream, at + |head|, tail)
  {
    SlicePrefix(stream, at, at + |head + tail|, head, tail);
  }

  lemma CarriesRest(stream: seq<Byte>, at: nat)
    requires at <= |stream|
    ensures Carries(stream, at, stream[at..])
  {
  }

  lemma WireGrows(c: Client, wire: seq<Event>, at: nat, frame: Frame)
    requires WireStarts(c, wire, at)
    ensures WireStarts(c, wire + [Live(frame)], at)
  {
    var more := wire + [Live(frame)];
    if wire != [] {
      assert more[0] == wire[0] && more[1..] == wire[1..] + [Live(frame)];
    }
  }

  lemma WireShrinks(c: Client, wire: seq<Event>, at: nat)
    requires WireStarts(c, wire, at) && wire != []
    ensures WireStarts(Applied(c, wire[0]), wire[1..], if wire[0].Live? then at + |Data(wire[0].frame)| else at)
  {
    assert forall e <- wire[1..] :: e in wire;
    assert wire[1..] != [] ==> wire[1..][0] in wire[1..];
  }

  lemma FanOutKeepsWire(s: State, at: nat, limits: Limits)
    requires s.fanning.Some? && FanningOk(s) && s.link.Some? && s.link.value.subscribed && WireOk(s, at)
    ensures WireOk(Next(s, FanOut(false), limits), at)
  {
    var wire := s.link.value.wire;
    hide EventText, Data, WireStarts, Carries;
    EventTextSnoc(wire, s.fanning.value);
    WireGrows(s.client, wire, at, s.fanning.value);
    CarriesMore(s.stream, at, EventText(wire), Data(s.fanning.value));
  }

  lemma FanOutKeeps(s: State, full: bool, limits: Limits)
    requires Inv(s) && s.fanning.Some?
    ensures Inv(Next(s, FanOut(full), limits))
  {
    var t := Next(s, FanOut(full), limits);
    hide HostOk, InStep, Placed, EventText, Data, Text, Evicted, WireStarts, Carries;
    assert HostOk(t) by {
      SameFrames(s, t);
    }
    if s.link.Some? {
      var at: nat :| WireOk(s, at);
      if s.link.value.subscribed && !full {
        FanOutKeepsWire(s, at, limits);
      }
      assert WireOk(t, at);
    }
  }

  lemma AttachWireOk(s: State, limits: Limits)
    requires HostOk(s) && Enabled(s, Attach) && Fanning(s) == 0
    ensures WireOk(Next(s, Attach, limits), ReplayStart(s.stream, s.frames, s.client.cursor))
  {
    var wire := Next(s, Attach, limits).link.value.wire;
    var at := ReplayStart(s.stream, s.frames, s.client.cursor);
    ReplayIsTheRest(s.stream, s.frames, s.client.cursor);
    hide Text, EventText, Since, ReplayStart, HostOk, NoReplay;
    EventTextTail(wire);
    assert [] + EventText(wire[1..]) == EventText(wire[1..]);
    CarriesRest(s.stream, at);
  }

  lemma AttachKeeps(s: State, limits: Limits)
    requires Inv(s) && Enabled(s, Attach) && Fanning(s) == 0
    ensures Inv(Next(s, Attach, limits))
  {
    var t := Next(s, Attach, limits);
    AttachWireOk(s, limits);
    SameHost(s, t);
    hide HostOk, FanningOk, InStep, Placed, WireOk, Since, Text;
  }

  lemma Slices(s: seq<Byte>, a: nat, b: nat, c: nat)
    requires a <= b <= c <= |s|
    ensures s[a..b] + s[b..c] == s[a..c]
  {
  }

  lemma SlicePrefix(s: seq<Byte>, a: nat, c: nat, x: seq<Byte>, y: seq<Byte>)
    requires a <= c <= |s| && s[a..c] == x + y
    ensures a + |x| <= c && s[a..a + |x|] == x && s[a + |x|..c] == y
  {
    assert |s[a..c]| == c - a;
    assert (x + y)[..|x|] == x && (x + y)[|x|..] == y;
    assert s[a..c][..|x|] == s[a..a + |x|] && s[a..c][|x|..] == s[a + |x|..c];
  }

  lemma DeliverKeepsScreen(c: Client, stream: seq<Byte>, event: Event, at: nat)
    requires InStep(c, stream) && Carries(stream, at, if event.Live? then Data(event.frame) else [])
    requires event.Replay? ==> event.cursor == at && (c.cursor.None? || event.reset || c.cursor.value == at)
    requires event.Live? ==> c.cursor == Some(at)
    ensures InStep(Applied(c, event), stream)
  {
    if event.Live? {
      Slices(stream, c.start, at, at + |Data(event.frame)|);
    }
  }

  lemma DeliverKeepsPlaces(c: Client, stream: seq<Byte>, event: Event, at: nat)
    requires Placed(c, stream) && Carries(stream, at, if event.Live? then Data(event.frame) else [])
    requires event.Live? ==> c.cursor == Some(at)
    ensures Placed(Applied(c, event), stream)
  {
    hide Carries;
  }

  lemma DeliverKeepsAt(s: State, at: nat, limits: Limits) returns (later: nat)
    requires s.link.Some? && WireOk(s, at) && InStep(s.client, s.stream) && Placed(s.client, s.stream) && Enabled(s, Deliver)
    ensures WireOk(Next(s, Deliver, limits), later) && InStep(Next(s, Deliver, limits).client, s.stream)
    ensures Placed(Next(s, Deliver, limits).client, s.stream)
  {
    var wire := s.link.value.wire;
    var head := if wire[0].Live? then Data(wire[0].frame) else [];
    EventTextTail(wire);
    hide EventText, InStep, Placed, Applied, Carries, Data;
    CarriesParts(s.stream, at, head, EventText(wire[1..]));
    later := at + |head|;
    WireShrinks(s.client, wire, at);
    DeliverKeepsScreen(s.client, s.stream, wire[0], at);
    DeliverKeepsPlaces(s.client, s.stream, wire[0], at);
    hide WireStarts, NoReplay;
  }

  lemma DeliverKeeps(s: State, limits: Limits)
    requires Inv(s) && Enabled(s, Deliver)
    ensures Inv(Next(s, Deliver, limits))
  {
    var at: nat :| WireOk(s, at);
    hide WireOk, InStep, Placed, HostOk, FanningOk, Applied;
    var later := DeliverKeepsAt(s, at, limits);
    var t := Next(s, Deliver, limits);
    assert HostOk(t) && FanningOk(t) by {
      SameHost(s, t);
    }
  }

  lemma SameFrames(s: State, t: State)
    requires HostOk(s) && t.stream == s.stream && t.frames == s.frames
    ensures HostOk(t)
  {
  }

  lemma SameHost(s: State, t: State)
    requires HostOk(s) && FanningOk(s)
    requires t.stream == s.stream && t.frames == s.frames && t.fanning == s.fanning
    ensures HostOk(t) && FanningOk(t)
  {
  }

  // ----- runs -----

  ghost predicate Run(states: seq<State>, labels: seq<Label>, limits: Limits) {
    && |states| == |labels| + 1
    && forall i :: 0 <= i < |labels| ==> Enabled(states[i], labels[i]) && states[i + 1] == Next(states[i], labels[i], limits)
  }

  /** No attachment is taken while output that is already in the scrollback has
    * still to be handed to the subscribers. */
  ghost predicate AttachesBetweenBroadcasts(states: seq<State>, labels: seq<Label>)
    requires |states| == |labels| + 1
  {
    forall i :: 0 <= i < |labels| && labels[i].Attach? ==> Fanning(states[i]) == 0
  }

  function Last(states: seq<State>): State
    requires states != []
  {
    states[|states| - 1]
  }

  lemma StepKeepsInv(s: State, l: Label, limits: Limits)
    requires Inv(s) && Enabled(s, l) && (l.Attach? ==> Fanning(s) == 0)
    ensures Inv(Next(s, l, limits))
  {
    match l
    case Push(frame) => PushKeeps(s, frame, limits);
    case FanOut(full) => FanOutKeeps(s, full, limits);
    case Attach => AttachKeeps(s, limits);
    case Deliver => DeliverKeeps(s, limits);
    case Drop =>
  }

  lemma InitInv(s: State)
    requires Init(s)
    ensures Inv(s)
  {
  }

  lemma {:induction false} RunKeepsInv(states: seq<State>, labels: seq<Label>, limits: Limits)
    requires Run(states, labels, limits) && Init(states[0]) && AttachesBetweenBroadcasts(states, labels)
    ensures Inv(Last(states))
    decreases |labels|
  {
    if labels == [] {
      InitInv(states[0]);
    } else {
      RunPrefix(states, labels, limits);
      hide Run, AttachesBetweenBroadcasts, Inv, Enabled, Next, Init, Fanning;
      var n := |labels| - 1;
      RunKeepsInv(states[..n + 1], labels[..n], limits);
      StepKeepsInv(states[n], labels[n], limits);
    }
  }

  lemma RunPrefix(states: seq<State>, labels: seq<Label>, limits: Limits)
    requires Run(states, labels, limits) && AttachesBetweenBroadcasts(states, labels) && labels != []
    ensures var n := |labels| - 1;
      && |states| == n + 2 && Run(states[..n + 1], labels[..n], limits)
      && AttachesBetweenBroadcasts(states[..n + 1], labels[..n])
      && Enabled(states[n], labels[n]) && states[n + 1] == Next(states[n], labels[n], limits)
      && (labels[n].Attach? ==> Fanning(states[n]) == 0)
  {
    hide Enabled, Next, Fanning;
  }

  /** Over any drops and reattaches, and whatever the host has forgotten: what the
    * renderer has been given since it was last cleared is one stretch of the
    * terminal's output, ending at the cursor; each piece of it came with its own
    * offset; and once nothing is on its way the client has everything. */
  lemma ResumeHasNoGapOrRepeat(states: seq<State>, labels: seq<Label>, limits: Limits)
    requires Run(states, labels, limits) && Init(states[0]) && AttachesBetweenBroadcasts(states, labels)
    ensures var s := Last(states);
      && InStep(s.client, s.stream)
      && (forall p <- s.client.shown :: Carries(s.stream, p.at, p.data))
      && (s.link.Some? && s.link.value == Link([], true) && s.fanning.None? ==> s.client.cursor == Some(|s.stream|))
  {
    RunKeepsInv(states, labels, limits);
    var s := Last(states);
    if s.link.Some? && s.link.value == Link([], true) && s.fanning.None? {
      var at: nat :| WireOk(s, at);
    }
  }

  // ----- an attachment taken in the middle of a broadcast -----

  /** The client once an attachment taken now, and a broadcast under way, have
    * both reached it. */
  function Settled(s: State, limits: Limits): Client
    requires Enabled(s, Attach)
  {
    var attached := Next(s, Attach, limits);
    var t := if attached.fanning.Some? then Next(attached, FanOut(false), limits) else attached;
    AppliedAll(t.client, t.link.value.wire)
  }

  lemma {:induction false} AppliedAllCursor(c: Client, events: seq<Event>)
    requires NoReplay(events) && c.cursor.Some?
    ensures AppliedAll(c, events).cursor == Some(c.cursor.value + |EventText(events)|)
    ensures AppliedAll(c, events).screen == c.screen + EventText(events)
    ensures AppliedAll(c, events).start == c.start
    decreases |events|
  {
    if events != [] {
      var data := Data(events[0].frame);
      var next := Applied(c, events[0]);
      AppliedAllCursor(next, events[1..]);
      EventTextTail(events);
      assert next.cursor == Some(c.cursor.value + |data|) && next.screen == c.screen + data && next.start == c.start;
      assert AppliedAll(c, events) == AppliedAll(next, events[1..]);
      hide AppliedAll, Applied, EventText, Data;
      Seqs.Assoc(c.screen, data, EventText(events[1..]));
    }
  }

  lemma ReplayThenCursor(c: Client, events: seq<Event>)
    requires events != [] && events[0].Replay? && NoReplay(events[1..])
    ensures AppliedAll(c, events).cursor == Some(events[0].cursor + |EventText(events[1..])|)
    ensures AppliedAll(c, events).screen == Applied(c, events[0]).screen + EventText(events[1..])
    ensures AppliedAll(c, events).start == Applied(c, events[0]).start
  {
    AppliedAllCursor(Applied(c, events[0]), events[1..]);
  }

  lemma SettledWire(s: State, limits: Limits) returns (wire: seq<Event>, at: nat)
    requires HostOk(s) && Enabled(s, Attach)
    ensures Settled(s, limits) == AppliedAll(s.client, wire)
    ensures wire != [] && at <= |s.stream| && NoReplay(wire[1..])
    ensures wire[0] == Replay(at, s.client.cursor.Some? && s.client.cursor.value != at)
    ensures EventText(wire[1..]) == s.stream[at..] + (if s.fanning.Some? then Data(s.fanning.value) else [])
  {
    var replay := Since(s.frames, |s.stream|, s.client.cursor);
    at := ReplayStart(s.stream, s.frames, s.client.cursor);
    ReplayIsTheRest(s.stream, s.frames, s.client.cursor);
    wire := if s.fanning.Some? then replay + [Live(s.fanning.value)] else replay;
    hide Text, Since, ReplayStart, HostOk, EventText, AppliedAll;
    if s.fanning.Some? {
      assert wire[1..] == replay[1..] + [Live(s.fanning.value)];
      EventTextSnoc(replay[1..], s.fanning.value);
    } else {
      assert s.stream[at..] + [] == s.stream[at..];
    }
  }

  /** An attachment keeps the client in step if and only if no output was half
    * published when it was taken: otherwise that output reaches it twice and its
    * cursor runs ahead of the stream. */
  lemma AttachIsExactlyInStepBetweenBroadcasts(s: State, limits: Limits)
    requires Inv(s) && Enabled(s, Attach)
    ensures InStep(Settled(s, limits), s.stream) <==> Fanning(s) == 0
    ensures Settled(s, limits).cursor == Some(|s.stream| + Fanning(s))
  {
    var wire, at := SettledWire(s, limits);
    ReplayThenCursor(s.client, wire);
    hide AppliedAll, Applied, EventText, NoReplay, Settled, Enabled, HostOk, FanningOk, WireOk, Data;
    if Fanning(s) == 0 {
      assert s.stream[at..] + (if s.fanning.Some? then Data(s.fanning.value) else []) == s.stream[at..];
      SettledScreen(s, wire, at);
    }
  }

  lemma SettledScreen(s: State, wire: seq<Event>, at: nat)
    requires InStep(s.client, s.stream) && wire != [] && at <= |s.stream| && NoReplay(wire[1..])
    requires wire[0] == Replay(at, s.client.cursor.Some? && s.client.cursor.value != at)
    requires EventText(wire[1..]) == s.stream[at..]
    ensures InStep(AppliedAll(s.client, wire), s.stream)
  {
    ReplayThenCursor(s.client, wire);
    var first := Applied(s.client, wire[0]);
    assert first.screen == s.stream[first.start..at];
    hide AppliedAll, EventText, Applied, NoReplay;
    Slices(s.stream, first.start, at, |s.stream|);
    assert s.stream[at..] == s.stream[at..|s.stream|];
  }

  // ----- a cursor carried to another session -----

  /** The hook keeps its cursor when it is given another session. That session's
    * host answers a cursor it covers with what follows it, so what the screen had
    * stays; otherwise it has the screen cleared. The result is in step with the new
    * session if and only if the cursor was not covered, or the screen already
    * showed that stretch of the new session's own output. */
  lemma CarriedCursorIsInStepExactlyIf(c: Client, s: State)
    requires HostOk(s) && c.cursor.Some?
    ensures var start := |s.stream| - |Text(s.frames)|;
      var covered := CanResume(c.cursor, start, |s.stream|);
      var after := AppliedAll(c, Since(s.frames, |s.stream|, c.cursor));
      && after.cursor == Some(|s.stream|)
      && after.screen == (if covered then c.screen + s.stream[c.cursor.value..] else s.stream[start..])
      && (InStep(after, s.stream) <==> !covered || InStep(c, s.stream))
  {
    ReplayIsTheRest(s.stream, s.frames, c.cursor);
    SinceIs(s.frames, |s.stream|, c.cursor);
    hide AppliedAll, EventText, Since, Text, NoReplay, After, InStep;
    CarriedReplay(c, s.stream, |s.stream| - |Text(s.frames)|, Since(s.frames, |s.stream|, c.cursor));
  }

  lemma CarriedReplay(c: Client, stream: seq<Byte>, start: nat, replay: seq<Event>)
    requires c.cursor.Some? && start <= |stream| && replay != [] && NoReplay(replay[1..])
    requires var covered := CanResume(c.cursor, start, |stream|);
      var from := if covered then c.cursor.value else start;
      replay[0] == Replay(from, !covered) && EventText(replay[1..]) == stream[from..]
    ensures var covered, after := CanResume(c.cursor, start, |stream|), AppliedAll(c, replay);
      && after.cursor == Some(|stream|)
      && after.screen == (if covered then c.screen + stream[c.cursor.value..] else stream[start..])
      && (InStep(after, stream) <==> !covered || InStep(c, stream))
  {
    ReplayThenCursor(c, replay);
    var after := AppliedAll(c, replay);
    hide AppliedAll, EventText, NoReplay, InStep;
    if CanResume(c.cursor, start, |stream|) {
      CarriedScreen(c, after, stream);
    } else {
      assert [] + stream[start..] == stream[start..];
      RebuiltScreen(after, stream, start);
    }
  }

  lemma RebuiltScreen(after: Client, stream: seq<Byte>, start: nat)
    requires start <= |stream| && after.cursor == Some(|stream|) && after.start == start && after.screen == stream[start..]
    ensures InStep(after, stream)
  {
    assert stream[start..] == stream[start..|stream|];
  }

  lemma CarriedScreen(c: Client, after: Client, stream: seq<Byte>)
    requires c.cursor.Some? && c.cursor.value <= |stream|
    requires after.cursor == Some(|stream|) && after.start == c.start
    requires after.screen == c.screen + stream[c.cursor.value..]
    ensures InStep(after, stream) <==> InStep(c, stream)
  {
    var at, end := c.cursor.value, |stream|;
    assert stream[at..] == stream[at..end];
    if InStep(after, stream) {
      SlicePrefix(stream, c.start, end, c.screen, stream[at..]);
      assert c.start + |c.screen| == at;
    } else if InStep(c, stream) {
      Slices(stream, c.start, at, end);
    }
  }

  // ----- and what can follow it -----

  const LIMITS: Limits := Limits(SCROLLBACK_LIMIT, SCROLLBACK_MAX_BYTES)

  /** Some run makes the steps `labels` and ends in `t`. */
  ghost predicate Leads(labels: seq<Label>, t: State) {
    exists states :: Run(states, labels, LIMITS) && states != [] && Init(states[0]) && Last(states) == t
  }

  lemma Step(labels: seq<Label>, s: State, l: Label, t: State)
    requires Leads(labels, s) && Enabled(s, l) && Next(s, l, LIMITS) == t
    ensures Leads(labels + [l], t)
  {
    hide Enabled, Next, Init;
    var states :| Run(states, labels, LIMITS) && states != [] && Init(states[0]) && Last(states) == s;
    assert Run(states + [t], labels + [l], LIMITS) && Last(states + [t]) == t;
  }

  const AB: Frame := Output([97, 98])
  const CD: Frame := Output([99, 100])

  const PUSHED: State := State([97, 98], [AB], Some(AB), None, NEW_CLIENT)

  lemma PushedOnce()
    ensures Leads([Push(AB)], PUSHED)
  {
    var s := State([], [], None, None, NEW_CLIENT);
    assert Run([s], [], LIMITS) && Last([s]) == s;
    assert Leads([], s);
    OneFrameFits();
    hide Leads, Text, Evicted, Since;
    assert [] + [AB] == [AB] && [] + AB.data == AB.data;
    Step([], s, Push(AB), PUSHED);
    assert [] + [Push(AB)] == [Push(AB)];
  }

  lemma AttachedMidBroadcast()
    ensures Leads([Push(AB), Attach, FanOut(false)],
                  State([97, 98], [AB], None, Some(Link([Replay(0, false), Live(AB), Live(AB)], true)), NEW_CLIENT))
  {
    PushedOnce();
    OneFrameFits();
    hide Leads, Text, Evicted, Since;
    var attached := PUSHED.(link := Some(Link([Replay(0, false), Live(AB)], true)));
    Step([Push(AB)], PUSHED, Attach, attached);
    var twice := [Replay(0, false), Live(AB), Live(AB)];
    assert [Replay(0, false), Live(AB)] + [Live(AB)] == twice;
    assert [Push(AB)] + [Attach] == [Push(AB), Attach];
    Step([Push(AB), Attach], attached, FanOut(false), attached.(link := Some(Link(twice, true)), fanning := None));
    assert [Push(AB), Attach] + [FanOut(false)] == [Push(AB), Attach, FanOut(false)];
  }

  lemma OneFrameFits()
    ensures Text([]) == [] && Text([AB]) == [97, 98] && Evicted([AB], LIMITS.frames, LIMITS.bytes) == [AB]
    ensures Since([AB], 2, None) == [Replay(0, false), Live(AB)]
  {
    assert [AB][1..] == [] && AB.data[0..] == AB.data;
    assert After([AB], 0, 0) == [Live(AB)];
  }

  const TWICE: Client :=
    NEW_CLIENT.(cursor := Some(4), screen := [97, 98, 97, 98], shown := [Piece([97, 98], 0), Piece([97, 98], 2)],
                status := Attached)

  const REPEAT: seq<Label> := [Push(AB), Attach, FanOut(false), Deliver, Deliver, Deliver, Drop]

  lemma ShownTwice()
    ensures Leads(REPEAT, State([97, 98], [AB], None, None, TWICE))
  {
    AttachedMidBroadcast();
    hide Leads;
    var start := State([97, 98], [AB], None, Some(Link([Replay(0, false), Live(AB), Live(AB)], true)), NEW_CLIENT);
    var c := NEW_CLIENT.(cursor := Some(0), status := Attached);
    var s := State([97, 98], [AB], None, Some(Link([Live(AB), Live(AB)], true)), c);
    assert REPEAT[..3] == [Push(AB), Attach, FanOut(false)];
    Step(REPEAT[..3], start, Deliver, s);
    var once := s.(client := c.(cursor := Some(2), screen := [97, 98], shown := [Piece([97, 98], 0)]),
                   link := Some(Link([Live(AB)], true)));
    assert REPEAT[..3] + [Deliver] == REPEAT[..4];
    Step(REPEAT[..4], s, Deliver, once);
    var twice := s.(client := TWICE, link := Some(Link([], true)));
    assert REPEAT[..4] + [Deliver] == REPEAT[..5];
    Step(REPEAT[..5], once, Deliver, twice);
    assert REPEAT[..5] + [Deliver] == REPEAT[..6];
    Step(REPEAT[..6], twice, Drop, twice.(link := None));
    assert REPEAT[..6] + [Drop] == REPEAT;
  }

  /** After such an attachment the client, its cursor two bytes ahead, can skip two
    * bytes on its next one: it is attached, nothing is on its way, and the second
    * frame will never be shown. */
  lemma ARepeatCanTurnIntoAGap()
    ensures Leads(REPEAT + [Push(CD), FanOut(false), Attach, Deliver],
                  State([97, 98, 99, 100], [AB, CD], None, Some(Link([], true)), TWICE))
  {
    ShownTwice();
    TwoFramesFit();
    hide Leads, Text, Evicted, Since;
    var s := State([97, 98, 99, 100], [AB, CD], Some(CD), None, TWICE);
    Step(REPEAT, State([97, 98], [AB], None, None, TWICE), Push(CD), s);
    var idle := s.(fanning := None);
    Step(REPEAT + [Push(CD)], s, FanOut(false), idle);
    assert REPEAT + [Push(CD)] + [FanOut(false)] == REPEAT + [Push(CD), FanOut(false)];
    var attached := idle.(link := Some(Link([Replay(4, false)], true)));
    Step(REPEAT + [Push(CD), FanOut(false)], idle, Attach, attached);
    assert REPEAT + [Push(CD), FanOut(false)] + [Attach] == REPEAT + [Push(CD), FanOut(false), Attach];
    assert [Replay(4, false)][1..] == [];
    Step(REPEAT + [Push(CD), FanOut(false), Attach], attached, Deliver, idle.(link := Some(Link([], true))));
    assert REPEAT + [Push(CD), FanOut(false), Attach] + [Deliver] == REPEAT + [Push(CD), FanOut(false), Attach, Deliver];
  }

  lemma TwoFramesFit()
    ensures Text([AB, CD]) == [97, 98, 99, 100] && Evicted([AB] + [CD], LIMITS.frames, LIMITS.bytes) == [AB, CD]
    ensures Since([AB, CD], 4, Some(4)) == [Replay(4, false)]
  {
    assert [AB, CD][1..] == [CD] && [CD][1..] == [];
    assert Text([CD]) == [99, 100];
    assert Text([AB, CD]) == [97, 98, 99, 100];
    assert After([CD], 2, 4) == [];
  }
}
