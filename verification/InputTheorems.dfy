/** What holds of every run of the input system. */
module InputTheorems {
  import opened InputQueue
  import opened InputSystem
  import opened Seqs

  ghost predicate Run(states: seq<State>, labels: seq<Label>) {
    && |states| == |labels| + 1
    && forall i :: 0 <= i < |labels| ==> Enabled(states[i], labels[i]) && states[i + 1] == Next(states[i], labels[i])
  }

  function Last(states: seq<State>): State
    requires states != []
  {
    states[|states| - 1]
  }

  lemma RunPrefix(states: seq<State>, labels: seq<Label>)
    requires Run(states, labels) && labels != []
    ensures Run(states[..|labels|], labels[..|labels| - 1])
    ensures Last(states) == Next(Last(states[..|labels|]), labels[|labels| - 1])
    ensures Enabled(Last(states[..|labels|]), labels[|labels| - 1])
  {
  }

  lemma {:induction false} RunKeepsInv(states: seq<State>, labels: seq<Label>)
    requires Run(states, labels) && Inv(states[0])
    ensures Inv(Last(states))
    decreases |labels|
  {
    hide Inv, Enabled, Next, Run;
    RunLength(states, labels);
    if labels != [] {
      RunPrefix(states, labels);
      RunKeepsInv(states[..|labels|], labels[..|labels| - 1]);
      StepKeepsInv(Last(states[..|labels|]), labels[|labels| - 1]);
    }
  }

  lemma RunLength(states: seq<State>, labels: seq<Label>)
    requires Run(states, labels)
    ensures |states| == |labels| + 1
  {
  }

  /** In-order exactly-once input. At the end of every run, whatever writes
    * failed, each session was sent a prefix of what it was admitted, and what
    * is owed in its deque and then in the channel is exactly the remainder;
    * and no attempt ever followed a failed one except the same frame. */
  lemma InputIsInOrderExactlyOnce(states: seq<State>, labels: seq<Label>)
    requires Run(states, labels) && Init(states[0])
    ensures var s := Last(states);
      && Disciplined(s.attempts)
      && forall t :: Delivered(s.attempts, t) + Owed(s.pending, t) + Said(s.channel, t) == Said(s.admitted, t)
  {
    hide Init, Enabled, Next, ReadyOk, CountersOk, EndsOk, Disciplined, Said, Delivered, Owed;
    InitInv(states[0]);
    RunKeepsInv(states, labels);
  }

  /** Reservation conservation. In every reachable state the counters are what
    * is queued plus what is reserved plus what is sent but unreleased; they
    * stay within their bounds, the writer never subtracts more than is there,
    * and a push with both reservations in hand finds room and a receiver. */
  lemma ReservationsAreConserved(states: seq<State>, labels: seq<Label>)
    requires Run(states, labels) && Init(states[0])
    ensures var s := Last(states);
      && (forall t <- Held(s) :: t in s.pending)
      && s.queued == |s.channel| + Total(Items, s.pending, Held(s)) + Sum(ItemOf, s.producers)
                     + (if s.writer.ReleasingItems? then s.writer.completed else 0)
      && s.queuedBytes == Length(s.channel) + Total(ByteLen, s.pending, Held(s)) + Sum(BytesOf, s.producers)
                          + (if s.writer.ReleasingItems? || s.writer.ReleasingBytes? then s.writer.sent else 0)
      && 0 <= s.queued <= INPUT_QUEUE_CAPACITY
      && 0 <= s.queuedBytes <= INPUT_QUEUE_MAX_BYTES
      && (s.writer.ReleasingItems? ==> 0 <= s.writer.completed <= s.queued)
      && (s.writer.ReleasingBytes? ==> s.writer.sent <= s.queuedBytes)
      && (forall p <- s.producers :: !p.Rejected? && !p.Returning?)
      && (forall p <- s.producers :: p.Reserved? ==> |s.channel| < INPUT_QUEUE_CAPACITY && !s.writer.Stopped?)
  {
    hide Init, Enabled, Next, OrderOk, AttemptsOk, Sum, Total, Lists;
    InitInv(states[0]);
    RunKeepsInv(states, labels);
    var s := Last(states);
    ListsHeld(s);
    forall p <- s.producers ensures p.Reserved? ==> |s.channel| < INPUT_QUEUE_CAPACITY && !s.writer.Stopped? {
      var i :| 0 <= i < |s.producers| && s.producers[i] == p;
      if p.Reserved? {
        PushNeverFails(s, i);
      }
    }
  }

  lemma ListsHeld(s: State)
    requires ReadyOk(s)
    ensures NoDuplicates(Held(s)) && forall t :: t in Held(s) <==> t in s.pending
  {
  }

  /** At the loop head a session is waiting in `ready`, once, exactly when it
    * has input pending; so `ready session present` and `ready session has
    * pending input` cannot fail when the writer comes to serve. */
  lemma ReadyListsThePending(states: seq<State>, labels: seq<Label>)
    requires Run(states, labels) && Init(states[0])
    ensures var s := Last(states);
      && (s.writer.Top? || s.writer.Draining? || s.writer.Serving? ==>
            NoDuplicates(s.ready) && forall t :: t in s.ready <==> t in s.pending && Bytes(s.pending[t]) != [])
      && (s.writer.Serving? ==> Enabled(s, Serve))
      && (s.writer.Writing? ==> Enabled(s, WriteOk))
  {
    hide Init, Inv;
    InitInv(states[0]);
    RunKeepsInv(states, labels);
    ReadyFacts(Last(states));
  }

  lemma ReadyFacts(s: State)
    requires Inv(s)
    ensures s.writer.Top? || s.writer.Draining? || s.writer.Serving? ==>
      NoDuplicates(s.ready) && forall t :: t in s.ready <==> t in s.pending && Bytes(s.pending[t]) != []
    ensures s.writer.Serving? ==> Enabled(s, Serve)
    ensures s.writer.Writing? ==> Enabled(s, WriteOk)
  {
    hide CountersOk, OrderOk, AttemptsOk, EndsOk, Bytes, Lists;
    ListsHeld(s);
    ListsHeldEnabled(s);
    if s.writer.Writing? {
      FrameNonEmpty(s);
    }
    forall t | t in s.pending ensures Bytes(s.pending[t]) != [] <==> s.pending[t] != [] {
      PendingIsLive(s, t);
      LiveOwesBytes(s.pending[t]);
    }
  }

  lemma PendingIsLive(s: State, t: Session)
    requires ReadyOk(s) && t in s.pending
    ensures Live(s.pending[t])
  {
  }

  // ----- progress -----

  function Rank(w: Writer): nat {
    match w
    case Top => 5
    case Draining => 4
    case Serving => 3
    case Writing(_, _, _) => 2
    case ReleasingItems(_, _, _) => 7
    case ReleasingBytes(_, _) => 6
    case Stopped => 0
  }

  /** A total over the deques of all sessions. */
  ghost function HeldTotal(f: Deque -> nat, s: State): nat
    requires ReadyOk(s)
  {
    Total(f, s.pending, Held(s))
  }

  /** Bytes still to be written weigh most, then messages still to be received. */
  ghost function Work(s: State): nat
    requires ReadyOk(s)
  {
    8 * (HeldTotal(ByteLen, s) + Length(s.channel)) + |s.channel| + Rank(s.writer)
  }

  /** A step of the writer other than a failed write. */
  predicate Advances(l: Label) {
    l.Recv? || l.Return? || l.Skip? || l.TryRecv? || l.Serve? || l.WriteOk? || l.ReleaseItems? || l.ReleaseBytes?
  }

  function Advancing(labels: seq<Label>): nat {
    if labels == [] then 0
    else Advancing(labels[..|labels| - 1]) + (if Advances(labels[|labels| - 1]) then 1 else 0)
  }

  function Successes(labels: seq<Label>): nat {
    if labels == [] then 0
    else Successes(labels[..|labels| - 1]) + (if labels[|labels| - 1].WriteOk? then 1 else 0)
  }

  /** How a successful write moves a total over the sessions' deques. */
  lemma WriteOkTotal(f: Deque -> nat, s: State, t: State)
    requires Inv(s) && ReadyOk(t) && Enabled(s, WriteOk) && t == Next(s, WriteOk)
    ensures s.writer.Writing? && s.writer.session in s.pending && s.writer.session in t.pending
    ensures HeldTotal(f, t) + f(s.pending[s.writer.session]) == HeldTotal(f, s) + f(t.pending[s.writer.session])
  {
    WriteOkLeaves(s);
    HeldWhileWriting(s);
    hide Inv, ReadyOk, Enabled, Next, Total;
    TotalUpdate(f, s.pending, Held(s), s.writer.session, t.pending[s.writer.session]);
  }

  /** What a successful write does to the deques. */
  lemma WriteOkLeaves(s: State)
    requires Enabled(s, WriteOk)
    ensures s.writer.Writing? && s.writer.session in s.pending
    ensures |s.writer.frame| <= |Bytes(s.pending[s.writer.session])|
    ensures var t, session := Next(s, WriteOk), s.writer.session;
      && t.pending == s.pending[session := Consume(s.pending[session], |s.writer.frame|)]
      && Held(t) == Held(s)
  {
    hide Bytes, Consume;
  }

  /** Producers leave the writer and its collections alone. */
  lemma ProducerLeaves(s: State, l: Label)
    requires Enabled(s, l) && IsProducer(l)
    ensures var t := Next(s, l);
      t.writer == s.writer && t.pending == s.pending && t.ready == s.ready && t.attempts == s.attempts && t.served == s.served
  {
    assert ProducerEnabled(s, l) && Next(s, l) == ProducerNext(s, l);
    hide Enabled, Next, WriterEnabled, WriterNext;
  }

  /** No other step moves it, receiving apart. */
  lemma OtherTotal(f: Deque -> nat, s: State, l: Label)
    requires Inv(s) && Enabled(s, l) && ReadyOk(Next(s, l)) && f([]) == 0
    requires !IsReceive(s, l) && !l.WriteOk?
    ensures HeldTotal(f, Next(s, l)) == HeldTotal(f, s)
  {
    if IsProducer(l) {
      ProducerLeaves(s, l);
      hide Inv, ReadyOk, Enabled, Next, Total;
    } else if l.ReleaseBytes? {
      ReleaseBytesTotal(f, s);
    } else {
      ControlHolds(s, l);
      hide Inv, ReadyOk, Enabled, Next, Total, Held;
    }
  }

  lemma ReleaseBytesTotal(f: Deque -> nat, s: State)
    requires Inv(s) && Enabled(s, ReleaseBytes) && ReadyOk(Next(s, ReleaseBytes)) && f([]) == 0
    ensures HeldTotal(f, Next(s, ReleaseBytes)) == HeldTotal(f, s)
  {
    hide Lists, CountersOk, OrderOk, AttemptsOk, EndsOk, Total, Frame;
    HeldOnce(s);
    ReleaseTotal(f, s.pending, s.writer.session, s.ready);
  }

  /** The writer's steps in between hold the same deques in the same order. */
  lemma ControlHolds(s: State, l: Label)
    requires Enabled(s, l) && !IsProducer(l) && !IsReceive(s, l) && !l.WriteOk? && !l.ReleaseBytes?
    ensures Next(s, l).pending == s.pending && Held(Next(s, l)) == Held(s)
  {
    hide Frame, Bytes, Consume, ProducerNext, ProducerEnabled, Receive;
    if l.Serve? {
      assert [s.ready[0]] + s.ready[1..] == s.ready;
    }
  }

  lemma StepWork(s: State, l: Label)
    requires Inv(s) && Enabled(s, l) && Inv(Next(s, l))
    ensures Work(Next(s, l)) + (if Advances(l) then 1 else 0)
         <= Work(s) + 8 * (Length(Next(s, l).admitted) - Length(s.admitted)) + |Next(s, l).admitted| - |s.admitted|
  {
    if IsReceive(s, l) {
      ReceiveWork(s, l);
    } else {
      OtherWork(s, l);
    }
  }

  lemma ReceiveWork(s: State, l: Label)
    requires Inv(s) && Enabled(s, l) && IsReceive(s, l) && Inv(Next(s, l))
    ensures Work(Next(s, l)) + 1 <= Work(s) && Next(s, l).admitted == s.admitted
  {
    ReceiveShape(s, l);
    ReceiveTotal(s, l);
    hide Inv, ReadyOk, Enabled, Next, HeldTotal, Length, Rank, IsReceive;
  }

  lemma ReceiveShape(s: State, l: Label)
    requires Enabled(s, l) && IsReceive(s, l)
    ensures var t := Next(s, l);
      && s.channel != [] && t.admitted == s.admitted && Rank(t.writer) <= Rank(s.writer)
      && |t.channel| + 1 == |s.channel| && Length(t.channel) + |s.channel[0].data| == Length(s.channel)
  {
    assert Next(s, l) == Receive(s);
    hide Enabled, Next, Enqueue, Length;
    assert [s.channel[0]] + s.channel[1..] == s.channel;
    LengthFirst(s.channel[0], s.channel[1..]);
  }

  lemma OtherWork(s: State, l: Label)
    requires Inv(s) && Enabled(s, l) && !IsReceive(s, l) && Inv(Next(s, l))
    ensures Work(Next(s, l)) + (if Advances(l) then 1 else 0)
         <= Work(s) + 8 * (Length(Next(s, l).admitted) - Length(s.admitted)) + |Next(s, l).admitted| - |s.admitted|
  {
    if l.WriteOk? {
      WriteOkWork(s);
    } else {
      EmptyCosts();
      OtherTotal(ByteLen, s, l);
      hide ReadyOk, CountersOk, OrderOk, AttemptsOk, EndsOk, HeldTotal, Frame, Length;
      OtherWeights(s, l);
    }
  }

  /** What else weighs: the channel, and the phase of the writer. */
  lemma OtherWeights(s: State, l: Label)
    requires Enabled(s, l) && !IsReceive(s, l) && !l.WriteOk?
    ensures var t := Next(s, l);
      8 * Length(t.channel) + |t.channel| + Rank(t.writer) + (if Advances(l) then 1 else 0)
      <= 8 * Length(s.channel) + |s.channel| + Rank(s.writer)
         + 8 * (Length(t.admitted) - Length(s.admitted)) + |t.admitted| - |s.admitted|
  {
    hide Length, Frame, Bytes, Release;
    if l.Push? {
      LengthOne(s.channel, s.producers[l.i].msg);
      LengthOne(s.admitted, s.producers[l.i].msg);
    }
  }

  lemma WriteOkWork(s: State)
    requires Inv(s) && Enabled(s, WriteOk) && Inv(Next(s, WriteOk))
    ensures Work(Next(s, WriteOk)) + 1 <= Work(s) && Next(s, WriteOk).admitted == s.admitted
  {
    WriteOkShape(s);
    WriteOkLess(s);
    hide Inv, ReadyOk, Enabled, Next, HeldTotal, Length, Rank;
  }

  lemma WriteOkShape(s: State)
    requires Enabled(s, WriteOk)
    ensures Rank(s.writer) == 2 && Rank(Next(s, WriteOk).writer) == 7
    ensures Next(s, WriteOk).channel == s.channel && Next(s, WriteOk).admitted == s.admitted
  {
    hide Bytes, Consume;
  }

  lemma WriteOkLess(s: State)
    requires Inv(s) && Enabled(s, WriteOk) && Inv(Next(s, WriteOk))
    ensures HeldTotal(ByteLen, Next(s, WriteOk)) < HeldTotal(ByteLen, s)
  {
    WriteOkTotal(ByteLen, s, Next(s, WriteOk));
    WriteOkLeaves(s);
    WriteOkBytes(s);
    hide Inv, ReadyOk, Next, HeldTotal, Bytes, Consume;
  }

  lemma WriteOkBytes(s: State)
    requires Inv(s) && Enabled(s, WriteOk)
    ensures var q := s.pending[s.writer.session];
      ByteLen(Consume(q, |s.writer.frame|)) < ByteLen(q)
  {
    FrameNonEmpty(s);
    hide Inv, ReadyOk, Consume, Bytes;
    ConsumeKeepsTheRest(s.pending[s.writer.session], |s.writer.frame|);
  }

  lemma EmptyCosts()
    ensures ByteLen([]) == 0 && Frames([]) == 0 && Items([]) == 0
  {
  }

  lemma ReceiveTotal(s: State, l: Label)
    requires Inv(s) && Enabled(s, l) && IsReceive(s, l) && Inv(Next(s, l))
    ensures HeldTotal(ByteLen, Next(s, l)) == HeldTotal(ByteLen, s) + |s.channel[0].data|
  {
    hide Total;
    EnqueueCosts(Queues(s.pending, s.ready), s.channel[0]);
  }

  /** No livelock: from any reachable state on, the writer takes at most a
    * number of steps (failed writes aside) bounded by the work at hand and the
    * input admitted meanwhile. */
  lemma {:induction false} WriterStepsAreBounded(states: seq<State>, labels: seq<Label>)
    requires Run(states, labels) && Inv(states[0])
    ensures Inv(Last(states))
    ensures Work(Last(states)) + Advancing(labels)
         <= Work(states[0]) + 8 * (Length(Last(states).admitted) - Length(states[0].admitted))
            + |Last(states).admitted| - |states[0].admitted|
    decreases |labels|
  {
    hide Run, Inv, Work, Next, Enabled, Advances, Length;
    RunLength(states, labels);
    RunKeepsInv(states, labels);
    if labels != [] {
      var before, l := Last(states[..|labels|]), labels[|labels| - 1];
      RunPrefix(states, labels);
      RunKeepsInv(states[..|labels|], labels[..|labels| - 1]);
      WriterStepsAreBounded(states[..|labels|], labels[..|labels| - 1]);
      StepWork(before, l);
    }
  }

  /** No deadlock: a writer that can take no step either has returned or waits
    * on an empty channel that can still be written to; and then everything
    * admitted has been delivered, and only producers hold reservations. */
  lemma StuckMeansDrained(s: State)
    requires Inv(s)
    requires forall l :: Advances(l) ==> !Enabled(s, l)
    ensures s.writer.Stopped? || (s.writer.Top? && !s.sendersGone)
    ensures s.channel == [] && s.pending == map[] && s.ready == []
    ensures forall t :: Delivered(s.attempts, t) == Said(s.admitted, t)
    ensures s.queued == Sum(ItemOf, s.producers) && s.queuedBytes == Sum(BytesOf, s.producers)
    ensures s.writer.Stopped? ==> s.queued == 0 && s.queuedBytes == 0
  {
    assert !Enabled(s, Recv) && !Enabled(s, Return) && !Enabled(s, Skip) && !Enabled(s, TryRecv);
    assert !Enabled(s, Serve) && !Enabled(s, WriteOk) && !Enabled(s, ReleaseItems) && !Enabled(s, ReleaseBytes);
    hide OrderOk, AttemptsOk, CountersOk, Lists;
    if !s.writer.Stopped? && !s.writer.Top? {
      NeverStuckAtWork(s);
    }
    assert Held(s) == [];
    DrainedFacts(s);
  }

  lemma NeverStuckAtWork(s: State)
    requires Inv(s) && !s.writer.Stopped? && !s.writer.Top?
    ensures Enabled(s, TryRecv) || Enabled(s, Serve) || Enabled(s, WriteOk) || Enabled(s, ReleaseItems)
         || Enabled(s, ReleaseBytes)
  {
    hide CountersOk, OrderOk, AttemptsOk, EndsOk, Lists;
    ListsHeldEnabled(s);
    if s.writer.Writing? {
      FrameNonEmpty(s);
    }
  }

  lemma ListsHeldEnabled(s: State)
    requires ReadyOk(s)
    ensures s.ready != [] ==> s.ready[0] in s.pending
    ensures s.writer.ReleasingBytes? ==> s.writer.session in s.pending
  {
    if s.ready != [] {
      assert s.ready[0] in Held(s);
    }
    if s.writer.ReleasingBytes? {
      assert s.writer.session in Held(s);
    }
  }

  lemma DrainedFacts(s: State)
    requires Inv(s) && s.channel == [] && Held(s) == [] && (s.writer.Top? || s.writer.Stopped?)
    ensures s.pending == map[]
    ensures forall t :: Delivered(s.attempts, t) == Said(s.admitted, t)
    ensures s.queued == Sum(ItemOf, s.producers) && s.queuedBytes == Sum(BytesOf, s.producers)
    ensures s.writer.Stopped? ==> s.queued == 0 && s.queuedBytes == 0
  {
    hide Delivered, Sum;
    assert forall t <- s.pending :: t in Held(s);
    forall t ensures Delivered(s.attempts, t) == Said(s.admitted, t) {
      assert Owed(s.pending, t) == [] && Said(s.channel, t) == [];
    }
    if s.writer.Stopped? {
      SumIdle(ItemOf, s.producers);
      SumIdle(BytesOf, s.producers);
    }
  }

  // ----- termination, counted in frames -----

  ghost function FramesLeft(s: State): nat
    requires ReadyOk(s)
  {
    HeldTotal(Frames, s)
  }

  lemma StepFrames(s: State, l: Label)
    requires Inv(s) && Enabled(s, l) && Inv(Next(s, l)) && s.sendersGone && s.channel == []
    ensures FramesLeft(Next(s, l)) + (if l.WriteOk? then 1 else 0) == FramesLeft(s)
    ensures Next(s, l).sendersGone && Next(s, l).channel == [] && Next(s, l).admitted == s.admitted
  {
    hide Lists, CountersOk, OrderOk, AttemptsOk, HeldTotal, Bytes, Consume, Disciplined, Sum;
    forall i | 0 <= i < |s.producers| ensures s.producers[i].Idle? {
      assert s.producers[i] in s.producers;
    }
    if l.WriteOk? {
      WriteOkTotal(Frames, s, Next(s, l));
      WriteOkLeaves(s);
      FrameNonEmpty(s);
      FrameSaved(s.pending[s.writer.session]);
    } else {
      EmptyCosts();
      OtherTotal(Frames, s, l);
    }
  }

  /** Once the senders are gone and the channel is empty, the writer performs
    * exactly one more successful write per 64 KiB (or part) each session still
    * owes, then returns with both counters at zero and everything delivered. */
  lemma {:induction false} ShutdownWritesExactlyWhatIsOwed(states: seq<State>, labels: seq<Label>)
    requires Run(states, labels) && Inv(states[0])
    requires states[0].sendersGone && states[0].channel == []
    ensures Inv(Last(states))
    ensures FramesLeft(states[0]) == Successes(labels) + FramesLeft(Last(states))
    ensures Last(states).sendersGone && Last(states).channel == [] && Last(states).admitted == states[0].admitted
    ensures Last(states).writer.Stopped? ==>
      && Successes(labels) == FramesLeft(states[0])
      && Last(states).queued == 0 && Last(states).queuedBytes == 0
      && forall t :: Delivered(Last(states).attempts, t) == Said(states[0].admitted, t)
    decreases |labels|
  {
    hide Run, Inv, FramesLeft, Next, Enabled, Said, Delivered;
    RunLength(states, labels);
    RunKeepsInv(states, labels);
    if labels != [] {
      RunPrefix(states, labels);
      RunKeepsInv(states[..|labels|], labels[..|labels| - 1]);
      ShutdownWritesExactlyWhatIsOwed(states[..|labels|], labels[..|labels| - 1]);
      StepFrames(Last(states[..|labels|]), labels[|labels| - 1]);
    }
    if Last(states).writer.Stopped? {
      StoppedFacts(Last(states));
      DrainedFacts(Last(states));
    }
  }

  lemma StoppedFacts(s: State)
    requires Inv(s) && s.writer.Stopped?
    ensures Held(s) == [] && s.channel == [] && FramesLeft(s) == 0
  {
  }

  // ----- fairness -----

  /** Everyone served so far, then everyone waiting, in order. */
  function Line(s: State): seq<Session> {
    s.served + s.ready
  }

  /** The line only ever grows at its end: nobody overtakes. */
  lemma StepLine(s: State, l: Label)
    requires Enabled(s, l)
    ensures Line(s) <= Line(Next(s, l))
    ensures s.served <= Next(s, l).served
  {
    hide Bytes, Frame, Consume, Receive, Release;
    if l.Serve? {
      Assoc(s.served, [s.ready[0]], s.ready[1..]);
      assert [s.ready[0]] + s.ready[1..] == s.ready;
    } else {
      ReadyGrows(s, l);
    }
  }

  lemma ReadyGrows(s: State, l: Label)
    requires Enabled(s, l) && !l.Serve?
    ensures s.ready <= Next(s, l).ready && s.served == Next(s, l).served
  {
    hide Bytes, Frame, Consume;
  }

  /** `x` has just been taken with `waiting` behind it, and its turn is not over. */
  ghost predicate InTurn(s: State, served: seq<Session>, x: Session, waiting: seq<Session>) {
    && s.served == served + [x]
    && s.ready == waiting
    && (s.writer.Writing? || s.writer.ReleasingItems? || s.writer.ReleasingBytes?)
    && s.writer.session == x
    && x in s.pending
    && (if s.writer.Writing? then |Bytes(s.pending[x])| > INPUT_FRAME_DATA_MAX else s.pending[x] != [])
  }

  lemma StepInTurn(s: State, l: Label, served: seq<Session>, x: Session, waiting: seq<Session>)
    requires Inv(s) && Enabled(s, l) && InTurn(s, served, x, waiting)
    ensures InTurn(Next(s, l), served, x, waiting) || Line(Next(s, l)) == served + [x] + waiting + [x]
  {
    hide Lists, CountersOk, OrderOk, AttemptsOk, EndsOk, Bytes, Consume;
    if l.WriteOk? {
      FrameNonEmpty(s);
      ConsumeStaysLive(s.pending[x], |s.writer.frame|);
    } else if l.ReleaseBytes? {
      Assoc(served + [x], waiting, [x]);
    }
  }

  lemma {:induction false} TurnEnds(
      states: seq<State>, labels: seq<Label>, served: seq<Session>, x: Session, waiting: seq<Session>)
    requires Run(states, labels) && Inv(states[0]) && InTurn(states[0], served, x, waiting)
    ensures InTurn(Last(states), served, x, waiting) || served + [x] + waiting + [x] <= Line(Last(states))
    decreases |labels|
  {
    hide Run, Inv, InTurn, Next, Enabled, Line;
    RunLength(states, labels);
    if labels != [] {
      var before, l := Last(states[..|labels|]), labels[|labels| - 1];
      RunPrefix(states, labels);
      RunKeepsInv(states[..|labels|], labels[..|labels| - 1]);
      TurnEnds(states[..|labels|], labels[..|labels| - 1], served, x, waiting);
      StepLine(before, l);
      if InTurn(before, served, x, waiting) {
        StepInTurn(before, l, served, x, waiting);
      }
    }
  }

  /** Exact round robin. A session that owes more than one frame when it is
    * taken is served again after exactly the sessions that were waiting behind
    * it, once each and in that order: from that moment on the sequence of
    * sessions served is `x`, those waiting, `x`, as far as the run goes. */
  lemma RoundRobinIsExact(states: seq<State>, labels: seq<Label>, x: Session, waiting: seq<Session>)
    requires Run(states, labels) && Inv(states[0]) && labels != [] && labels[0].Serve?
    requires states[0].ready == [x] + waiting
    requires x in states[0].pending && |Bytes(states[0].pending[x])| > INPUT_FRAME_DATA_MAX
    ensures states[0].served <= Last(states).served
    ensures var turns := Last(states).served[|states[0].served|..];
      turns <= [x] + waiting + [x] || [x] + waiting + [x] <= turns
  {
    hide Inv, Enabled, Bytes, Frame;
    var served := states[0].served;
    assert states[1] == Next(states[0], Serve);
    assert InTurn(states[1], served, x, waiting);
    assert Run(states[1..], labels[1..]);
    StepKeepsInv(states[0], Serve);
    TurnEnds(states[1..], labels[1..], served, x, waiting);
    assert Last(states[1..]) == Last(states);
    ServedGrows(states, labels);
    LineComparable(served, [x] + waiting + [x], Last(states), x, waiting);
  }

  lemma LineComparable(served: seq<Session>, expected: seq<Session>, s: State, x: Session, waiting: seq<Session>)
    requires expected == [x] + waiting + [x] && served <= s.served
    requires InTurn(s, served, x, waiting) || served + [x] + waiting + [x] <= Line(s)
    ensures var turns := s.served[|served|..]; turns <= expected || expected <= turns
  {
    hide Bytes;
    if InTurn(s, served, x, waiting) {
      assert s.served[|served|..] == [x];
    } else {
      var line := Line(s)[|served|..];
      assert s.served[|served|..] + s.ready == line;
      assert served + [x] + waiting + [x] == served + expected;
      assert expected <= line;
    }
  }

  lemma {:induction false} ServedGrows(states: seq<State>, labels: seq<Label>)
    requires Run(states, labels) && Inv(states[0])
    ensures states[0].served <= Last(states).served
    decreases |labels|
  {
    hide Run, Inv, Next, Enabled, Line;
    RunLength(states, labels);
    if labels != [] {
      RunPrefix(states, labels);
      RunKeepsInv(states[..|labels|], labels[..|labels| - 1]);
      ServedGrows(states[..|labels|], labels[..|labels| - 1]);
      StepLine(Last(states[..|labels|]), labels[|labels| - 1]);
    }
  }

  /** The sessions of the successful attempts, in order. */
  function Answered(attempts: seq<Attempt>): seq<Session> {
    if attempts == [] then []
    else
      var last := attempts[|attempts| - 1];
      Answered(attempts[..|attempts| - 1]) + (if last.ok then [last.session] else [])
  }

  /** `served` is the order frames were written in, but for the one being written. */
  ghost predicate TurnsOk(s: State) {
    s.served == Answered(s.attempts) + (if s.writer.Writing? then [s.writer.session] else [])
  }

  /** A turn is one successful frame. */
  lemma {:induction false} TurnsAreFrames(states: seq<State>, labels: seq<Label>)
    requires Run(states, labels) && Init(states[0])
    ensures TurnsOk(Last(states))
    decreases |labels|
  {
    hide Enabled, Next;
    if labels != [] {
      RunPrefix(states, labels);
      TurnsAreFrames(states[..|labels|], labels[..|labels| - 1]);
      hide TurnsOk;
      StepAnswers(Last(states[..|labels|]), labels[|labels| - 1]);
    }
  }

  lemma StepAnswers(s: State, l: Label)
    requires Enabled(s, l) && TurnsOk(s)
    ensures TurnsOk(Next(s, l))
  {
    hide Enabled, Next, TurnsOk;
    if IsProducer(l) {
      ProducerAnswers(s, l);
    } else if l.WriteOk? || l.WriteFails? {
      AttemptAnswers(s, l);
    } else {
      ControlAnswers(s, l);
    }
  }

  lemma ProducerAnswers(s: State, l: Label)
    requires Enabled(s, l) && TurnsOk(s) && IsProducer(l)
    ensures TurnsOk(Next(s, l))
  {
    ProducerLeaves(s, l);
    hide Answered, Next, Enabled;
  }

  lemma ControlAnswers(s: State, l: Label)
    requires Enabled(s, l) && TurnsOk(s) && !IsProducer(l) && !l.WriteOk? && !l.WriteFails?
    ensures TurnsOk(Next(s, l))
  {
    assert Next(s, l) == WriterNext(s, l);
    hide Answered, Next, Bytes, Frame, Enqueue, Release, ProducerNext, ProducerEnabled;
  }

  lemma AttemptAnswers(s: State, l: Label)
    requires Enabled(s, l) && TurnsOk(s) && (l.WriteOk? || l.WriteFails?)
    ensures TurnsOk(Next(s, l))
  {
    hide Answered, Enabled, Next;
    AttemptIsWriting(s, l);
    var a := Attempt(s.writer.session, s.writer.frame, l.WriteOk?, s.writer.backoff);
    AttemptShape(s, l, a);
    AnsweredOne(s.attempts, a);
    assert Answered(s.attempts) + [] == Answered(s.attempts);
    assert s.served + [] == s.served;
  }

  lemma AttemptIsWriting(s: State, l: Label)
    requires Enabled(s, l) && (l.WriteOk? || l.WriteFails?)
    ensures s.writer.Writing? && WriterEnabled(s, l) && Next(s, l) == WriterNext(s, l)
  {
    hide Bytes, Consume, WriterNext, ProducerEnabled, ProducerNext;
  }

  lemma AttemptShape(s: State, l: Label, a: Attempt)
    requires Enabled(s, l) && (l.WriteOk? || l.WriteFails?) && s.writer.Writing?
    requires a == Attempt(s.writer.session, s.writer.frame, l.WriteOk?, s.writer.backoff)
    ensures var t := Next(s, l);
      && t.served == s.served && t.attempts == s.attempts + [a]
      && (if a.ok then !t.writer.Writing? else t.writer.Writing? && t.writer.session == s.writer.session)
  {
    AttemptIsWriting(s, l);
    hide Enabled, Next, Bytes, Consume, Min, Frame, Enqueue, Release, Receive;
  }

  lemma AnsweredOne(attempts: seq<Attempt>, a: Attempt)
    ensures Answered(attempts + [a]) == Answered(attempts) + (if a.ok then [a.session] else [])
  {
    assert (attempts + [a])[..|attempts|] == attempts;
  }
}
