/** Producers and the writer thread, interleaved one atomic operation at a time.
  *
  * `InputSender::try_send` is four atomic operations (reserve an item, reserve
  * its bytes, push, or take reservations back), so any number of producers can
  * be anywhere inside it while the writer receives, writes and releases.
  */
module InputSystem {
  import opened Basics
  import opened InputQueue
  import opened Seqs

  datatype Producer =
    | Idle
    | Slot(msg: Msg)      // holds an item, about to reserve its bytes
    | Refused(msg: Msg)   // bytes did not fit; the item is to be given back
    | Reserved(msg: Msg)  // holds item and bytes, about to push
    | Rejected(msg: Msg)  // the channel took nothing; both are to be given back
    | Returning(msg: Msg) // item given back, bytes not yet

  datatype Writer =
    | Top
    | Draining
    | Serving
    | Writing(session: Session, frame: seq<Byte>, backoff: nat)
    | ReleasingItems(session: Session, completed: int, sent: nat)
    | ReleasingBytes(session: Session, sent: nat)
    | Stopped

  datatype State = State(
    queued: int,
    queuedBytes: int,
    producers: seq<Producer>,
    sendersGone: bool,
    channel: seq<Msg>,
    writer: Writer,
    disconnected: bool,
    pending: map<Session, Deque>,
    ready: seq<Session>,
    // what has happened so far
    admitted: seq<Msg>,
    attempts: seq<Attempt>,
    served: seq<Session>)

  datatype Label =
    | Begin(i: nat, msg: Msg)
    | ReserveBytes(i: nat)
    | UndoSlot(i: nat)
    | Push(i: nat)
    | UndoItem(i: nat)
    | UndoBytes(i: nat)
    | DropSenders
    | Recv
    | Return
    | Skip
    | TryRecv
    | Serve
    | WriteFails
    | WriteOk
    | ReleaseItems
    | ReleaseBytes

  predicate Init(s: State) {
    && s.queued == 0 && s.queuedBytes == 0 && (forall p <- s.producers :: p == Idle)
    && !s.sendersGone && s.channel == [] && s.writer == Top && !s.disconnected
    && s.pending == map[] && s.ready == [] && s.admitted == [] && s.attempts == [] && s.served == []
  }

  predicate IsProducer(l: Label) {
    l.Begin? || l.ReserveBytes? || l.UndoSlot? || l.Push? || l.UndoItem? || l.UndoBytes? || l.DropSenders?
  }

  predicate Enabled(s: State, l: Label) {
    if IsProducer(l) then ProducerEnabled(s, l) else WriterEnabled(s, l)
  }

  predicate ProducerEnabled(s: State, l: Label)
    requires IsProducer(l)
  {
    match l
    case Begin(i, msg) => i < |s.producers| && s.producers[i].Idle? && !s.sendersGone && msg.data != []
    case ReserveBytes(i) => i < |s.producers| && s.producers[i].Slot?
    case UndoSlot(i) => i < |s.producers| && s.producers[i].Refused?
    case Push(i) => i < |s.producers| && s.producers[i].Reserved?
    case UndoItem(i) => i < |s.producers| && s.producers[i].Rejected?
    case UndoBytes(i) => i < |s.producers| && s.producers[i].Returning?
    case DropSenders => !s.sendersGone && forall p <- s.producers :: p.Idle?
  }

  predicate WriterEnabled(s: State, l: Label)
    requires !IsProducer(l)
  {
    match l
    case Recv => s.writer.Top? && s.ready == [] && !s.disconnected && s.channel != []
    case Return => s.writer.Top? && s.ready == [] && (s.disconnected || (s.channel == [] && s.sendersGone))
    case Skip => s.writer.Top? && s.ready != []
    case TryRecv => s.writer.Draining?
    case Serve => s.writer.Serving? && s.ready != [] && s.ready[0] in s.pending
    case WriteFails => s.writer.Writing?
    case WriteOk => s.writer.Writing? && s.writer.session in s.pending
                    && |s.writer.frame| <= |Bytes(s.pending[s.writer.session])|
    case ReleaseItems => s.writer.ReleasingItems?
    case ReleaseBytes => s.writer.ReleasingBytes? && s.writer.session in s.pending
  }

  function Receive(s: State): State
    requires s.channel != []
  {
    var q := Enqueue(Queues(s.pending, s.ready), s.channel[0]);
    s.(channel := s.channel[1..], pending := q.pending, ready := q.ready, writer := Draining)
  }

  function Next(s: State, l: Label): State
    requires Enabled(s, l)
  {
    if IsProducer(l) then ProducerNext(s, l) else WriterNext(s, l)
  }

  function ProducerNext(s: State, l: Label): State
    requires IsProducer(l) && ProducerEnabled(s, l)
  {
    match l
    case Begin(i, msg) =>
      if s.queued < INPUT_QUEUE_CAPACITY
      then s.(queued := s.queued + 1, producers := s.producers[i := Slot(msg)])
      else s
    case ReserveBytes(i) =>
      var msg := s.producers[i].msg;
      if s.queuedBytes + |msg.data| <= INPUT_QUEUE_MAX_BYTES
      then s.(queuedBytes := s.queuedBytes + |msg.data|, producers := s.producers[i := Reserved(msg)])
      else s.(producers := s.producers[i := Refused(msg)])
    case UndoSlot(i) => s.(queued := s.queued - 1, producers := s.producers[i := Idle])
    case Push(i) =>
      var msg := s.producers[i].msg;
      if |s.channel| < INPUT_QUEUE_CAPACITY && !s.writer.Stopped?
      then s.(channel := s.channel + [msg], admitted := s.admitted + [msg], producers := s.producers[i := Idle])
      else s.(producers := s.producers[i := Rejected(msg)])
    case UndoItem(i) => s.(queued := s.queued - 1, producers := s.producers[i := Returning(s.producers[i].msg)])
    case UndoBytes(i) =>
      s.(queuedBytes := s.queuedBytes - |s.producers[i].msg.data|, producers := s.producers[i := Idle])
    case DropSenders => s.(sendersGone := true)
  }

  function WriterNext(s: State, l: Label): State
    requires !IsProducer(l) && WriterEnabled(s, l)
  {
    match l
    case Recv => Receive(s)
    case Return => s.(writer := Stopped)
    case Skip => s.(writer := if s.disconnected then Serving else Draining)
    case TryRecv =>
      if s.disconnected then s.(writer := Serving)
      else if s.channel != [] then Receive(s)
      else s.(disconnected := s.sendersGone, writer := Serving)
    case Serve =>
      s.(ready := s.ready[1..], served := s.served + [s.ready[0]],
         writer := Writing(s.ready[0], Frame(s.pending[s.ready[0]]), INPUT_RETRY_INITIAL_BACKOFF))
    case WriteFails =>
      var w := s.writer;
      s.(attempts := s.attempts + [Attempt(w.session, w.frame, false, w.backoff)],
         writer := w.(backoff := Min(w.backoff * 2, INPUT_RETRY_MAX_BACKOFF)))
    case WriteOk =>
      var w := s.writer;
      var left := Consume(s.pending[w.session], |w.frame|);
      s.(attempts := s.attempts + [Attempt(w.session, w.frame, true, w.backoff)],
         pending := s.pending[w.session := left],
         writer := ReleasingItems(w.session, |s.pending[w.session]| - |left|, |w.frame|))
    case ReleaseItems =>
      var w := s.writer;
      s.(queued := s.queued - w.completed, writer := ReleasingBytes(w.session, w.sent))
    case ReleaseBytes =>
      var w := s.writer;
      var q := Release(s.pending, w.session, s.ready);
      s.(queuedBytes := s.queuedBytes - w.sent, pending := q.pending, ready := q.ready, writer := Top)
  }

  // ----- sums over producers -----

  function Sum(f: Producer -> nat, ps: seq<Producer>): nat {
    if ps == [] then 0 else f(ps[0]) + Sum(f, ps[1..])
  }

  lemma {:induction false} SumUpdate(f: Producer -> nat, ps: seq<Producer>, i: nat, p: Producer)
    requires i < |ps|
    ensures Sum(f, ps[i := p]) + f(ps[i]) == Sum(f, ps) + f(p)
  {
    if i > 0 {
      SumUpdate(f, ps[1..], i - 1, p);
      assert ps[i := p][1..] == ps[1..][i - 1 := p];
    } else {
      assert ps[i := p][1..] == ps[1..];
    }
  }

  lemma {:induction false} SumAtLeast(f: Producer -> nat, ps: seq<Producer>, i: nat)
    requires i < |ps|
    ensures f(ps[i]) <= Sum(f, ps)
  {
    if i > 0 {
      SumAtLeast(f, ps[1..], i - 1);
    }
  }

  lemma {:induction false} SumIdle(f: Producer -> nat, ps: seq<Producer>)
    requires f(Idle) == 0 && forall p <- ps :: p == Idle
    ensures Sum(f, ps) == 0
  {
    if ps != [] {
      assert ps[0] in ps && forall p <- ps[1..] :: p in ps;
      SumIdle(f, ps[1..]);
    }
  }

  function ItemOf(p: Producer): nat {
    if p.Idle? || p.Returning? then 0 else 1
  }

  function BytesOf(p: Producer): nat {
    if p.Reserved? || p.Rejected? || p.Returning? then |p.msg.data| else 0
  }

  // ----- the invariant -----

  /** Every session with a deque: those waiting and the one being served. */
  function Held(s: State): seq<Session> {
    match s.writer
    case Writing(session, _, _) => [session] + s.ready
    case ReleasingItems(session, _, _) => [session] + s.ready
    case ReleasingBytes(session, _) => [session] + s.ready
    case _ => s.ready
  }

  /** Each session with pending input waits in `ready` exactly once, or is the
    * one being served; so neither `expect` of the loop can fail. */
  ghost predicate ReadyOk(s: State) {
    && Lists(s.pending, Held(s))
    && (forall t <- s.ready :: s.pending[t] != [])
    && (s.writer.Draining? || s.writer.Serving? ==> s.ready != [])
    && (s.writer.Writing? ==>
          && s.pending[s.writer.session] != []
          && s.writer.frame == Frame(s.pending[s.writer.session]))
  }

  /** The counters equal what is queued, plus what producers have reserved and
    * not yet pushed, plus what has been sent and not yet released. */
  ghost predicate CountersOk(s: State)
    requires ReadyOk(s)
  {
    && s.queued == |s.channel| + Total(Items, s.pending, Held(s)) + Sum(ItemOf, s.producers)
                 + (if s.writer.ReleasingItems? then s.writer.completed else 0)
    && s.queuedBytes == Length(s.channel) + Total(ByteLen, s.pending, Held(s)) + Sum(BytesOf, s.producers)
                      + (if s.writer.ReleasingItems? || s.writer.ReleasingBytes? then s.writer.sent else 0)
    && (s.writer.ReleasingItems? ==> s.writer.completed >= 0)
    && s.queued <= INPUT_QUEUE_CAPACITY
    && s.queuedBytes <= INPUT_QUEUE_MAX_BYTES
  }

  /** Nothing is lost, duplicated or reordered within a session. */
  ghost predicate OrderOk(s: State) {
    forall t :: Delivered(s.attempts, t) + Owed(s.pending, t) + Said(s.channel, t) == Said(s.admitted, t)
  }

  ghost predicate AttemptsOk(s: State) {
    && Disciplined(s.attempts)
    && (s.writer.Writing? ==>
          && Committed(s.attempts, s.writer.session, s.writer.frame)
          && s.writer.backoff == Backoff(FailuresInARow(s.attempts)))
    && (!s.writer.Writing? ==> FailuresInARow(s.attempts) == 0)
  }

  /** Empty messages never get in, a receiver that has seen the end of the
    * channel saw it truly, and no push was ever turned away. */
  ghost predicate EndsOk(s: State) {
    && (forall m <- s.channel :: m.data != [])
    && (forall p <- s.producers :: !p.Idle? ==> p.msg.data != [])
    && (forall p <- s.producers :: !p.Rejected? && !p.Returning?)
    && (s.disconnected ==> s.sendersGone && s.channel == [])
    && (s.sendersGone ==> forall p <- s.producers :: p == Idle)
    && (s.writer.Stopped? ==> s.sendersGone && s.channel == [] && s.ready == [])
  }

  ghost predicate Inv(s: State) {
    ReadyOk(s) && CountersOk(s) && OrderOk(s) && AttemptsOk(s) && EndsOk(s)
  }

  lemma InitInv(s: State)
    requires Init(s)
    ensures Inv(s)
  {
    SumIdle(ItemOf, s.producers);
    SumIdle(BytesOf, s.producers);
  }

  /** A producer that has reserved its item and its bytes finds room in the
    * channel and a writer behind it: `try_send` on the channel cannot fail. */
  lemma PushNeverFails(s: State, i: nat)
    requires Inv(s) && i < |s.producers| && s.producers[i].Reserved?
    ensures |s.channel| < INPUT_QUEUE_CAPACITY && !s.writer.Stopped?
  {
    hide Total, OrderOk, AttemptsOk, ReadyOk;
    SumAtLeast(ItemOf, s.producers, i);
    assert s.producers[i] in s.producers;
  }

  lemma ReadyFrame(s: State, t: State)
    requires ReadyOk(s) && t.pending == s.pending && t.ready == s.ready && t.writer == s.writer
    ensures ReadyOk(t) && Held(t) == Held(s)
  {
  }

  lemma ProducerKeepsCounters(s: State, l: Label)
    requires Inv(s) && Enabled(s, l) && IsProducer(l)
    ensures ReadyOk(Next(s, l)) && CountersOk(Next(s, l))
  {
    if l.Push? {
      PushKeepsCounters(s, l.i);
    } else if l.DropSenders? {
      hide Total, OrderOk, AttemptsOk, EndsOk, Sum, Length, ReadyOk, Held;
      ReadyFrame(s, Next(s, l));
    } else {
      ReservingKeepsCounters(s, l);
    }
  }

  lemma ProducersSum(s: State, i: nat, p: Producer)
    requires i < |s.producers|
    ensures Sum(ItemOf, s.producers[i := p]) + ItemOf(s.producers[i]) == Sum(ItemOf, s.producers) + ItemOf(p)
    ensures Sum(BytesOf, s.producers[i := p]) + BytesOf(s.producers[i]) == Sum(BytesOf, s.producers) + BytesOf(p)
  {
    SumUpdate(ItemOf, s.producers, i, p);
    SumUpdate(BytesOf, s.producers, i, p);
  }

  /** A producer's step other than a push moves both counters with the producer. */
  lemma ReservingMoves(s: State, l: Label)
    requires Enabled(s, l) && IsProducer(l) && !l.Push? && !l.DropSenders?
    requires s.queued <= INPUT_QUEUE_CAPACITY && s.queuedBytes <= INPUT_QUEUE_MAX_BYTES
    ensures var t, p := Next(s, l), s.producers[l.i];
      && |t.producers| == |s.producers|
      && t == s.(producers := s.producers[l.i := t.producers[l.i]], queued := t.queued, queuedBytes := t.queuedBytes)
      && t.queued + ItemOf(p) == s.queued + ItemOf(t.producers[l.i])
      && t.queuedBytes + BytesOf(p) == s.queuedBytes + BytesOf(t.producers[l.i])
      && t.queued <= INPUT_QUEUE_CAPACITY && t.queuedBytes <= INPUT_QUEUE_MAX_BYTES
  {
    assert ProducerEnabled(s, l) && Next(s, l) == ProducerNext(s, l);
    hide Enabled, Next, WriterEnabled, WriterNext;
  }

  lemma ReservingKeepsCounters(s: State, l: Label)
    requires Inv(s) && Enabled(s, l) && IsProducer(l) && !l.Push? && !l.DropSenders?
    ensures ReadyOk(Next(s, l)) && CountersOk(Next(s, l))
  {
    assert ProducerEnabled(s, l);
    ReservingMoves(s, l);
    hide Enabled, ProducerEnabled, Next, OrderOk, AttemptsOk, EndsOk, ReadyOk, CountersOk;
    ReservingFrame(s, Next(s, l), l.i);
  }

  lemma ReservingFrame(s: State, t: State, i: nat)
    requires ReadyOk(s) && CountersOk(s) && i < |s.producers| && |t.producers| == |s.producers|
    requires t == s.(producers := s.producers[i := t.producers[i]], queued := t.queued, queuedBytes := t.queuedBytes)
    requires t.queued + ItemOf(s.producers[i]) == s.queued + ItemOf(t.producers[i])
    requires t.queuedBytes + BytesOf(s.producers[i]) == s.queuedBytes + BytesOf(t.producers[i])
    requires t.queued <= INPUT_QUEUE_CAPACITY && t.queuedBytes <= INPUT_QUEUE_MAX_BYTES
    ensures ReadyOk(t) && CountersOk(t)
  {
    hide ReadyOk, Held, Total, Sum, Length, ItemOf, BytesOf;
    ReadyFrame(s, t);
    ProducersSum(s, i, t.producers[i]);
  }

  lemma PushMoves(s: State, i: nat)
    requires Inv(s) && Enabled(s, Push(i))
    ensures i < |s.producers| && s.producers[i].Reserved?
    ensures Next(s, Push(i)) == s.(channel := s.channel + [s.producers[i].msg], admitted := s.admitted + [s.producers[i].msg],
                                   producers := s.producers[i := Idle])
  {
    assert ProducerEnabled(s, Push(i)) && Next(s, Push(i)) == ProducerNext(s, Push(i)) by {
      hide ProducerEnabled, ProducerNext, Inv;
    }
    hide Enabled, Next;
    assert s.producers[i].Reserved?;
    PushNeverFails(s, i);
    hide Inv;
  }

  lemma PushKeepsCounters(s: State, i: nat)
    requires Inv(s) && Enabled(s, Push(i))
    ensures ReadyOk(Next(s, Push(i))) && CountersOk(Next(s, Push(i)))
  {
    PushMoves(s, i);
    var msg, t := s.producers[i].msg, Next(s, Push(i));
    LengthOne(s.channel, msg);
    ProducersSum(s, i, Idle);
    assert ReadyOk(s) && CountersOk(s);
    hide Inv, Enabled, Next, Total, Sum, Length, ReadyOk, Held;
    ReadyFrame(s, t);
  }

  lemma LengthOne(msgs: seq<Msg>, msg: Msg)
    ensures Length(msgs + [msg]) == Length(msgs) + |msg.data|
  {
    LengthAppend(msgs, [msg]);
  }

  lemma ProducerKeepsTheRest(s: State, l: Label)
    requires Inv(s) && Enabled(s, l) && IsProducer(l)
    ensures OrderOk(Next(s, l)) && AttemptsOk(Next(s, l)) && EndsOk(Next(s, l))
  {
    hide Said, Delivered, Owed, ReadyOk, CountersOk, Disciplined, FailuresInARow, EndsOk;
    ProducerKeepsEnds(s, l);
    if l.Push? {
      PushNeverFails(s, l.i);
      PushKeepsOrder(s, l.i);
    }
  }

  lemma ProducerKeepsEnds(s: State, l: Label)
    requires Inv(s) && Enabled(s, l) && IsProducer(l)
    ensures EndsOk(Next(s, l))
  {
    hide OrderOk, ReadyOk, CountersOk, AttemptsOk;
    if l.Push? {
      PushNeverFails(s, l.i);
    }
    if !l.DropSenders? && l.i < |s.producers| {
      assert s.producers[l.i] in s.producers;
    }
  }

  lemma PushKeepsOrder(s: State, i: nat)
    requires Inv(s) && Enabled(s, Push(i))
    ensures OrderOk(Next(s, Push(i)))
  {
    hide Said, Delivered, Owed, ReadyOk, CountersOk, AttemptsOk, EndsOk;
    PushNeverFails(s, i);
    var msg := s.producers[i].msg;
    forall t
      ensures Delivered(s.attempts, t) + Owed(s.pending, t) + Said(s.channel + [msg], t)
           == Said(s.admitted + [msg], t)
    {
      SaidAppend(s.channel, [msg], t);
      SaidAppend(s.admitted, [msg], t);
      Assoc(Delivered(s.attempts, t) + Owed(s.pending, t), Said(s.channel, t), Said([msg], t));
    }
  }

  predicate IsReceive(s: State, l: Label) {
    l.Recv? || (l.TryRecv? && !s.disconnected && s.channel != [])
  }

  lemma ReceiveKeeps(s: State, l: Label)
    requires Inv(s) && Enabled(s, l) && IsReceive(s, l)
    ensures Inv(Next(s, l))
  {
    hide Said, Delivered, Owed, ReadyOk, CountersOk, AttemptsOk, OrderOk;
    assert Next(s, l) == Receive(s);
    ReceiveKeepsQueues(s);
    ReceiveKeepsOrder(s);
    ReceiveKeepsAttempts(s);
  }

  lemma ReceiveKeepsAttempts(s: State)
    requires AttemptsOk(s) && s.channel != [] && !s.writer.Writing?
    ensures AttemptsOk(Receive(s))
  {
    hide Enqueue, Disciplined, FailuresInARow;
  }

  lemma ReceiveKeepsQueues(s: State)
    requires Inv(s) && s.channel != [] && (s.writer.Top? || s.writer.Draining?)
    ensures ReadyOk(Receive(s)) && CountersOk(Receive(s))
  {
    hide OrderOk, AttemptsOk, Sum, Total, Length, Enqueue, Lists;
    var q, msg := Queues(s.pending, s.ready), s.channel[0];
    assert [msg] + s.channel[1..] == s.channel;
    LengthFirst(msg, s.channel[1..]);
    EnqueueConsistent(q, msg);
    EnqueueCosts(q, msg);
  }

  lemma LengthFirst(msg: Msg, msgs: seq<Msg>)
    ensures Length([msg] + msgs) == |msg.data| + Length(msgs)
  {
    LengthAppend([msg], msgs);
  }

  lemma ReceiveKeepsOrder(s: State)
    requires OrderOk(s) && s.channel != []
    ensures OrderOk(Receive(s))
  {
    hide Said, Delivered, Owed;
    var q, msg := Queues(s.pending, s.ready), s.channel[0];
    assert [msg] + s.channel[1..] == s.channel;
    forall t
      ensures Delivered(s.attempts, t) + Owed(Enqueue(q, msg).pending, t) + Said(s.channel[1..], t)
           == Said(s.admitted, t)
    {
      EnqueueOwes(q, msg, t);
      SaidOne(msg, t);
      SaidAppend([msg], s.channel[1..], t);
      var d, o, m, r := Delivered(s.attempts, t), Owed(s.pending, t), Said([msg], t), Said(s.channel[1..], t);
      assert d + (o + m) + r == d + o + (m + r);
    }
  }

  lemma ServeKeeps(s: State)
    requires Inv(s) && Enabled(s, Serve)
    ensures Inv(Next(s, Serve))
  {
    hide Said, Delivered, Owed, Total, Sum, Disciplined, Lists, Frame;
    assert Held(Next(s, Serve)) == [s.ready[0]] + s.ready[1..] == s.ready;
    assert s.ready[0] in s.ready;
  }

  lemma WriteFailsKeeps(s: State)
    requires Inv(s) && Enabled(s, WriteFails)
    ensures Inv(Next(s, WriteFails))
  {
    hide Total, Sum, Lists, Bytes, Frame, Disciplined, FailuresInARow;
    var w := s.writer;
    var a := Attempt(w.session, w.frame, false, w.backoff);
    FrameNonEmpty(s);
    AttemptStaysDisciplined(s.attempts, a);
    forall t ensures Delivered(s.attempts + [a], t) == Delivered(s.attempts, t) {
      DeliveredOne(s.attempts, a, t);
    }
  }

  lemma FrameNonEmpty(s: State)
    requires ReadyOk(s) && s.writer.Writing?
    ensures s.writer.session in s.pending && Live(s.pending[s.writer.session])
    ensures Bytes(s.pending[s.writer.session]) != []
    ensures 1 <= |s.writer.frame| <= INPUT_FRAME_DATA_MAX
    ensures |s.writer.frame| <= |Bytes(s.pending[s.writer.session])|
  {
    assert s.writer.session in Held(s);
    LiveOwesBytes(s.pending[s.writer.session]);
  }

  lemma HeldWhileWriting(s: State)
    requires ReadyOk(s) && s.writer.Writing?
    ensures s.writer.session in Held(s) && s.writer.session !in s.ready
    ensures NoDuplicates(Held(s)) && forall t <- Held(s) :: t in s.pending
  {
    hide Live, Frame;
    forall i | 0 <= i < |s.ready| ensures s.ready[i] != s.writer.session {
      assert Held(s)[0] != Held(s)[i + 1];
    }
  }

  lemma WriteOkKeepsQueues(s: State)
    requires Inv(s) && Enabled(s, WriteOk)
    ensures ReadyOk(Next(s, WriteOk)) && CountersOk(Next(s, WriteOk))
  {
    hide Sum, Bytes, Frame, Consume, OrderOk, AttemptsOk, EndsOk, Live, Lists, Total;
    var w := s.writer;
    HeldWhileWriting(s);
    var left := Consume(s.pending[w.session], |w.frame|);
    FrameNonEmpty(s);
    ConsumeKeepsTheRest(s.pending[w.session], |w.frame|);
    ConsumeStaysLive(s.pending[w.session], |w.frame|);
    DeliveredKeepsLists(s.pending, Held(s), w.session, left);
    TotalUpdate(Items, s.pending, Held(s), w.session, left);
    TotalUpdate(ByteLen, s.pending, Held(s), w.session, left);
  }

  lemma WriteOkKeepsHistory(s: State)
    requires Inv(s) && Enabled(s, WriteOk)
    ensures OrderOk(Next(s, WriteOk)) && AttemptsOk(Next(s, WriteOk)) && EndsOk(Next(s, WriteOk))
  {
    hide Sum, Total, Lists, Bytes, Consume, Said, Delivered, Disciplined, FailuresInARow;
    var w := s.writer;
    var owed := s.pending[w.session];
    var a := Attempt(w.session, w.frame, true, w.backoff);
    FrameNonEmpty(s);
    AttemptStaysDisciplined(s.attempts, a);
    ConsumeKeepsTheRest(owed, |w.frame|);
    TakeDrop(Bytes(owed), |w.frame|);
    forall t
      ensures Delivered(s.attempts + [a], t) + Owed(Next(s, WriteOk).pending, t)
           == Delivered(s.attempts, t) + Owed(s.pending, t)
    {
      DeliveredOne(s.attempts, a, t);
      Assoc(Delivered(s.attempts, t), w.frame, Owed(Next(s, WriteOk).pending, t));
    }
  }

  lemma HeldOnce(s: State)
    requires ReadyOk(s) && Enabled(s, ReleaseBytes)
    ensures s.writer.session !in s.ready
    ensures forall t <- s.ready :: t in s.pending && s.pending[t] != []
  {
    hide Next, Live, Frame;
    assert Held(s) == [s.writer.session] + s.ready;
    hide Enabled;
    forall i | 0 <= i < |s.ready| ensures s.ready[i] != s.writer.session && s.ready[i] in s.pending {
      assert Held(s)[0] != Held(s)[i + 1];
    }
  }

  lemma ReleaseBytesKeeps(s: State)
    requires Inv(s) && Enabled(s, ReleaseBytes)
    ensures Inv(Next(s, ReleaseBytes))
  {
    hide Sum, Disciplined, FailuresInARow, Said, Delivered, Bytes, Total, Lists;
    NothingOwed();
    HeldOnce(s);
    ReleaseConsistent(s.pending, s.writer.session, s.ready);
    ReleaseTotal(Items, s.pending, s.writer.session, s.ready);
    ReleaseTotal(ByteLen, s.pending, s.writer.session, s.ready);
    assert forall t :: Owed(Next(s, ReleaseBytes).pending, t) == Owed(s.pending, t);
  }

  lemma NothingOwed()
    ensures Bytes([]) == []
  {
  }

  lemma ControlKeeps(s: State, l: Label)
    requires Inv(s) && Enabled(s, l) && (l.Return? || l.Skip? || l.ReleaseItems? || (l.TryRecv? && !IsReceive(s, l)))
    ensures Inv(Next(s, l))
  {
    hide Sum, Total, Lists, Disciplined, FailuresInARow, Said, Delivered, Owed;
  }

  /** Every atomic step of every producer and of the writer keeps the invariant. */
  lemma StepKeepsInv(s: State, l: Label)
    requires Inv(s) && Enabled(s, l)
    ensures Inv(Next(s, l))
  {
    hide Inv, Next;
    if IsProducer(l) {
      ProducerStepKeepsInv(s, l);
    } else if IsReceive(s, l) {
      ReceiveKeeps(s, l);
    } else if l.Serve? {
      ServeKeeps(s);
    } else if l.WriteFails? {
      WriteFailsKeeps(s);
    } else if l.WriteOk? {
      WriteOkStepKeepsInv(s);
    } else if l.ReleaseBytes? {
      ReleaseBytesKeeps(s);
    } else {
      ControlKeeps(s, l);
    }
  }

  lemma ProducerStepKeepsInv(s: State, l: Label)
    requires Inv(s) && Enabled(s, l) && IsProducer(l)
    ensures Inv(Next(s, l))
  {
    hide Next, ReadyOk, CountersOk, OrderOk, AttemptsOk, EndsOk;
    ProducerKeepsCounters(s, l);
    ProducerKeepsTheRest(s, l);
  }

  lemma WriteOkStepKeepsInv(s: State)
    requires Inv(s) && Enabled(s, WriteOk)
    ensures Inv(Next(s, WriteOk))
  {
    hide Next, ReadyOk, CountersOk, OrderOk, AttemptsOk, EndsOk;
    WriteOkKeepsQueues(s);
    WriteOkKeepsHistory(s);
  }
}
