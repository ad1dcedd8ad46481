/** The writer thread and the sending half of the terminal input queue, in
  * place.
  *
  * The channel is what it will deliver, in order: messages, and the moments at
  * which a `try_recv` finds it empty. Write outcomes come from an arbitrary
  * finite script of failures; after it, writes succeed.
  */
module InputWriter {
  import opened Basics
  import opened InputQueue
  import opened Seqs

  datatype Feed = Arrives(msg: Msg) | Lull

  datatype Received = Ok(msg: Msg) | Empty | Disconnected

  function Arrivals(feed: seq<Feed>): seq<Msg> {
    if feed == [] then []
    else match feed[0]
      case Arrives(msg) => [msg] + Arrivals(feed[1..])
      case Lull => Arrivals(feed[1..])
  }

  class Receiver {
    var feed: seq<Feed>

    constructor (feed: seq<Feed>)
      ensures this.feed == feed
    {
      this.feed := feed;
    }

    /** Blocks until a message arrives or every sender is gone. */
    method Recv() returns (r: Received)
      modifies this
      ensures !r.Empty?
      ensures r.Ok? ==> Arrivals(old(feed)) == [r.msg] + Arrivals(feed) && |feed| < |old(feed)|
      ensures r.Disconnected? ==> Arrivals(old(feed)) == [] && feed == []
    {
      while feed != [] && feed[0].Lull?
        invariant Arrivals(feed) == Arrivals(old(feed)) && |feed| <= |old(feed)|
        decreases |feed|
      {
        feed := feed[1..];
      }
      if feed == [] {
        return Disconnected;
      }
      r := Ok(feed[0].msg);
      feed := feed[1..];
    }

    method TryRecv() returns (r: Received)
      modifies this
      ensures r.Ok? ==> Arrivals(old(feed)) == [r.msg] + Arrivals(feed)
      ensures !r.Ok? ==> Arrivals(old(feed)) == Arrivals(feed)
      ensures !r.Disconnected? ==> |feed| < |old(feed)|
      ensures r.Disconnected? ==> feed == [] == old(feed)
    {
      if feed == [] {
        return Disconnected;
      }
      r := if feed[0].Arrives? then Ok(feed[0].msg) else Empty;
      feed := feed[1..];
    }
  }

  /** The connection frames are written to: every attempt, and the outcomes
    * still to come. */
  class Sink {
    var attempts: seq<Attempt>
    var script: seq<bool>

    constructor (script: seq<bool>)
      ensures attempts == [] && this.script == script
    {
      attempts, this.script := [], script;
    }

    /** One write, and on failure the pause after it. */
    method Write(session: Session, frame: seq<Byte>, pause: nat) returns (ok: bool)
      modifies this
      ensures attempts == old(attempts) + [Attempt(session, frame, ok, pause)]
      ensures |script| <= |old(script)|
      ensures !ok ==> |script| < |old(script)|
    {
      ok := script == [] || script[0];
      script := if script == [] then [] else script[1..];
      attempts := attempts + [Attempt(session, frame, ok, pause)];
    }
  }

  datatype Sent = Accepted | QueueFull | QueueDisconnected

  /** What a sender holds: both counters, and the channel it sends into. */
  datatype Line = Line(queued: nat, queuedBytes: nat, channel: seq<Msg>, connected: bool) {
    predicate Reserves(msg: Msg) {
      queued < INPUT_QUEUE_CAPACITY && queuedBytes + |msg.data| <= INPUT_QUEUE_MAX_BYTES
    }

    predicate Takes(msg: Msg) {
      Reserves(msg) && connected && |channel| < INPUT_QUEUE_CAPACITY
    }

    function With(msg: Msg): Line {
      Line(queued + 1, queuedBytes + |msg.data|, channel + [msg], connected)
    }
  }

  const NEW_LINE: Line := Line(0, 0, [], true)

  /** The sending half, as one caller runs it alone; `InputSystem` takes its
    * operations apart and interleaves them. */
  class InputSender {
    var queued: nat
    var queuedBytes: nat
    var channel: seq<Msg>
    var connected: bool

    constructor ()
      ensures View() == NEW_LINE
    {
      queued, queuedBytes, channel, connected := 0, 0, [], true;
    }

    function View(): Line
      reads this
    {
      Line(queued, queuedBytes, channel, connected)
    }

    /** All or nothing: a message that is not accepted leaves no reservation behind. */
    method TrySend(msg: Msg) returns (r: Sent)
      modifies this
      ensures r.Accepted? <==> old(View()).Takes(msg)
      ensures r.QueueDisconnected? <==> old(View()).Reserves(msg) && !old(connected)
      ensures View() == if r.Accepted? then old(View()).With(msg) else old(View())
    {
      var bytes := |msg.data|;
      if queued >= INPUT_QUEUE_CAPACITY {
        return QueueFull;
      }
      queued := queued + 1;
      if queuedBytes + bytes > INPUT_QUEUE_MAX_BYTES {
        queued := queued - 1;
        return QueueFull;
      }
      queuedBytes := queuedBytes + bytes;
      if connected && |channel| < INPUT_QUEUE_CAPACITY {
        channel := channel + [msg];
        return Accepted;
      }
      queued := queued - 1;
      queuedBytes := queuedBytes - bytes;
      r := if connected then QueueFull else QueueDisconnected;
    }
  }

  class InputClient {
    var sender: InputSender?

    /** What a write finds: a client without a sender gets a new one. */
    function Found(): Line
      reads this, sender
    {
      if sender == null then NEW_LINE else sender.View()
    }

    /** Empty input is accepted, sends nothing and touches nothing. Anything else is
      * accepted exactly when the sender found takes it, and then alone changes it; a
      * disconnected sender is dropped so that the next write starts anew. */
    method Write(session: Session, data: seq<Byte>) returns (r: Sent)
      modifies this, sender
      ensures data == [] ==> r.Accepted? && sender == old(sender) && Found() == old(Found())
      ensures data != [] ==>
        var msg := Msg(session, data);
        && (r.Accepted? <==> old(Found()).Takes(msg))
        && (r.QueueDisconnected? <==> old(Found()).Reserves(msg) && !old(Found()).connected)
        && (sender == null <==> r.QueueDisconnected?)
        && (sender != null ==>
              && (if old(sender) == null then fresh(sender) else sender == old(sender))
              && sender.View() == if r.Accepted? then old(Found()).With(msg) else old(Found()))
    {
      if data == [] {
        return Accepted;
      }
      if sender == null {
        sender := new InputSender();
      }
      r := sender.TrySend(Msg(session, data));
      if r.QueueDisconnected? {
        sender := null;
      }
    }
  }

  class Counter {
    var value: int

    constructor (value: int)
      ensures this.value == value
    {
      this.value := value;
    }

    method FetchSub(n: nat)
      modifies this
      ensures value == old(value) - n
    {
      value := value - n;
    }
  }

  class InputWriter {
    var pending: map<Session, Deque>
    var ready: seq<Session>

    constructor ()
      ensures pending == map[] && ready == []
    {
      pending, ready := map[], [];
    }

    function View(): Queues
      reads this
    {
      Queues(pending, ready)
    }

    method QueueInput(msg: Msg)
      modifies this
      ensures View() == Enqueue(old(View()), msg)
    {
      var session := if msg.session in pending then pending[msg.session] else [];
      if session == [] {
        ready := ready + [msg.session];
      }
      pending := pending[msg.session := session + [Pending(msg.data, 0)]];
    }

    /** Copies the next frame, crossing message boundaries, without sending it. */
    method BuildInputFrame(session: Session) returns (data: seq<Byte>)
      requires session in pending && Live(pending[session])
      ensures data == Frame(pending[session])
    {
      hide Bytes, Live, Rest;
      data := [];
      var inputs := pending[session];
      ghost var all := Bytes(inputs);
      var i := 0;
      assert inputs[0..] == inputs;
      while i < |inputs|
        invariant 0 <= i <= |inputs|
        invariant data + Bytes(inputs[i..]) == all
        invariant |data| < INPUT_FRAME_DATA_MAX
      {
        var input := inputs[i];
        LiveAt(inputs, i);
        BytesFrom(inputs, i);
        var take := Min(INPUT_FRAME_DATA_MAX - |data|, |input.data| - input.offset);
        TakeInto(data, Rest(input), Bytes(inputs[i + 1..]), take);
        RestTake(input, take);
        data := data + input.data[input.offset..input.offset + take];
        if |data| == INPUT_FRAME_DATA_MAX {
          return;
        }
        i := i + 1;
      }
      BytesFrom(inputs, |inputs|);
    }

    /** Drops the first `n` owed bytes of a session in place; reports how many
      * messages that finished. */
    method ConsumeInputFrame(session: Session, n: nat) returns (completed: nat)
      requires session in pending && Live(pending[session]) && n <= |Bytes(pending[session])|
      modifies this`pending
      ensures pending == old(pending)[session := Consume(old(pending[session]), n)]
      ensures completed == |old(pending[session])| - |pending[session]|
    {
      hide Bytes, Consume, Live;
      completed := 0;
      var bytes: nat := n;
      while bytes > 0
        invariant session in pending && pending == old(pending)[session := pending[session]]
        invariant Live(pending[session]) && bytes <= |Bytes(pending[session])|
        invariant Consume(pending[session], bytes) == Consume(old(pending[session]), n)
        invariant completed + |pending[session]| == |old(pending[session])|
        decreases bytes
      {
        ConsumeTurn(pending[session], bytes);
        var input := pending[session][0];
        var consumed := Min(bytes, |input.data| - input.offset);
        var advanced := Pending(input.data, input.offset + consumed);
        bytes := bytes - consumed;
        if advanced.offset == |advanced.data| {
          pending := pending[session := pending[session][1..]];
          completed := completed + 1;
        } else {
          pending := pending[session := [advanced] + pending[session][1..]];
        }
        ConsumeNothing(pending[session]);
      }
      ConsumeNothing(pending[session]);
    }

    /** Retries one frame until it is written. */
    method Deliver(session: Session, data: seq<Byte>, sink: Sink)
      requires Disciplined(sink.attempts) && FailuresInARow(sink.attempts) == 0
      requires 1 <= |data| <= INPUT_FRAME_DATA_MAX
      modifies sink
      ensures Disciplined(sink.attempts) && FailuresInARow(sink.attempts) == 0
      ensures Carries(old(sink.attempts), sink.attempts, session, data)
    {
      hide Disciplined, Carries, Delivered;
      CarriesNothing(sink.attempts, session);
      var backoff := INPUT_RETRY_INITIAL_BACKOFF;
      while true
        invariant Disciplined(sink.attempts) && Committed(sink.attempts, session, data)
        invariant backoff == Backoff(FailuresInARow(sink.attempts))
        invariant Carries(old(sink.attempts), sink.attempts, session, [])
        decreases |sink.script|
      {
        ghost var before := sink.attempts;
        var ok := sink.Write(session, data, backoff);
        ghost var attempt := Attempt(session, data, ok, backoff);
        AttemptStaysDisciplined(before, attempt);
        CarriesOne(before, attempt);
        CarriesMore(old(sink.attempts), before, sink.attempts, session, if ok then data else []);
        if ok {
          return;
        }
        backoff := Min(backoff * 2, INPUT_RETRY_MAX_BACKOFF);
      }
    }

    /** Serves the session at the head of `ready` with one frame. */
    method Serve(sink: Sink, queued: Counter, queuedBytes: Counter)
      requires queued != queuedBytes
      requires Consistent(View()) && ready != []
      requires Disciplined(sink.attempts) && FailuresInARow(sink.attempts) == 0
      modifies this, sink, queued, queuedBytes
      ensures View() == Requeue(old(View()), Served(old(View())))
      ensures Disciplined(sink.attempts) && FailuresInARow(sink.attempts) == 0
      ensures Carries(old(sink.attempts), sink.attempts, old(ready[0]), Frame(old(pending[ready[0]])))
      ensures queued.value == old(queued.value) - (|old(pending[ready[0]])| - |Served(old(View()))|)
      ensures queuedBytes.value == old(queuedBytes.value) - |Frame(old(pending[ready[0]]))|
    {
      var session := ready[0];
      LiveOwesBytes(pending[session]);
      ready := ready[1..];
      var data := BuildInputFrame(session);
      Deliver(session, data, sink);
      var completed := ConsumeInputFrame(session, |data|);
      queued.FetchSub(completed);
      queuedBytes.FetchSub(|data|);
      if pending[session] == [] {
        pending := pending - {session};
      } else {
        ready := ready + [session];
      }
    }

    /** Takes everything the channel has ready; true once every sender is gone. */
    method Drain(rx: Receiver, ghost got: seq<Msg>, ghost sink: Sink, ghost released: int, ghost releasedBytes: int)
      returns (disconnected: bool, ghost got': seq<Msg>)
      requires Accounted(got, View(), sink.attempts, released, releasedBytes)
      requires forall msg <- Arrivals(rx.feed) :: msg.data != []
      modifies this, rx
      ensures got' + Arrivals(rx.feed) == got + Arrivals(old(rx.feed))
      ensures Accounted(got', View(), sink.attempts, released, releasedBytes)
      ensures forall msg <- Arrivals(rx.feed) :: msg.data != []
      ensures old(ready) <= ready
      ensures disconnected ==> rx.feed == []
    {
      hide Accounted;
      got' := got;
      while true
        invariant got' + Arrivals(rx.feed) == got + Arrivals(old(rx.feed))
        invariant Accounted(got', View(), sink.attempts, released, releasedBytes)
        invariant forall msg <- Arrivals(rx.feed) :: msg.data != []
        invariant old(ready) <= ready
        decreases |rx.feed|
      {
        ghost var feed := Arrivals(rx.feed);
        var r := rx.TryRecv();
        match r
        case Ok(msg) =>
          assert msg == feed[0];
          AccountReceived(got', View(), sink.attempts, released, releasedBytes, msg);
          QueueInput(msg);
          assert got' + feed == got' + [msg] + Arrivals(rx.feed);
          got' := got' + [msg];
        case Empty => return false, got';
        case Disconnected => return true, got';
      }
    }

    /** The thread body: returns once every sender is gone and everything
      * received has been delivered, each session's bytes in order. */
    method Run(rx: Receiver, sink: Sink, queued: Counter, queuedBytes: Counter)
      requires queued != queuedBytes
      requires pending == map[] && ready == []
      requires sink.attempts == []
      requires forall msg <- Arrivals(rx.feed) :: msg.data != []
      modifies this, rx, sink, queued, queuedBytes
      ensures pending == map[] && rx.feed == []
      ensures forall s :: Delivered(sink.attempts, s) == Said(Arrivals(old(rx.feed)), s)
      ensures Disciplined(sink.attempts) && FailuresInARow(sink.attempts) == 0
      ensures queued.value == old(queued.value) - |Arrivals(old(rx.feed))|
      ensures queuedBytes.value == old(queuedBytes.value) - Length(Arrivals(old(rx.feed)))
    {
      hide Accounted, Consistent, Disciplined, Requeue, Served, Frame, Length, FailuresInARow;
      AccountedAtStart();
      var disconnected := false;
      ghost var all := Arrivals(rx.feed);
      ghost var got: seq<Msg> := [];
      while true
        invariant got + Arrivals(rx.feed) == all
        invariant forall msg <- Arrivals(rx.feed) :: msg.data != []
        invariant disconnected ==> rx.feed == []
        invariant Accounted(got, View(), sink.attempts,
                            old(queued.value) - queued.value, old(queuedBytes.value) - queuedBytes.value)
        invariant Disciplined(sink.attempts) && FailuresInARow(sink.attempts) == 0
        decreases Length(all) - (old(queuedBytes.value) - queuedBytes.value)
      {
        LengthAppend(got, Arrivals(rx.feed));
        if ready == [] {
          if disconnected {
            break;
          }
          ghost var feed := Arrivals(rx.feed);
          var r := rx.Recv();
          if r.Disconnected? {
            break;
          }
          assert r.msg == feed[0];
          AccountReceived(got, View(), sink.attempts,
                          old(queued.value) - queued.value, old(queuedBytes.value) - queuedBytes.value, r.msg);
          QueueInput(r.msg);
          assert got + feed == got + [r.msg] + Arrivals(rx.feed);
          got := got + [r.msg];
        }
        if !disconnected {
          disconnected, got := Drain(rx, got, sink, old(queued.value) - queued.value,
                                     old(queuedBytes.value) - queuedBytes.value);
        }
        LengthAppend(got, Arrivals(rx.feed));
        ghost var before, sent := View(), sink.attempts;
        ghost var released := old(queued.value) - queued.value;
        ghost var releasedBytes := old(queuedBytes.value) - queuedBytes.value;
        AccountedConsistent(got, before, sent, released, releasedBytes);
        Serve(sink, queued, queuedBytes);
        AccountServed(got, before, sent, sink.attempts, released, releasedBytes);
      }
      assert got + [] == got == all;
      AccountedAtEnd(got, View(), sink.attempts, old(queued.value) - queued.value,
                     old(queuedBytes.value) - queuedBytes.value);
    }
  }

  // ----- the steps on values -----

  lemma BytesFrom(q: Deque, i: nat)
    requires i <= |q|
    ensures Bytes(q[i..]) == if i == |q| then [] else Rest(q[i]) + Bytes(q[i + 1..])
  {
    if i < |q| {
      assert q[i..][1..] == q[i + 1..];
    }
  }

  lemma RestTake(p: Pending, n: nat)
    requires p.offset + n <= |p.data|
    ensures n <= |Rest(p)| && p.data[p.offset..p.offset + n] == Rest(p)[..n]
  {
  }

  /** One turn of `ConsumeInputFrame`: the front message gives up `Min(n, left)` bytes. */
  lemma ConsumeTurn(q: Deque, n: nat)
    requires Live(q) && 0 < n <= |Bytes(q)|
    ensures q != [] && q[0].offset < |q[0].data|
    ensures var left := |q[0].data| - q[0].offset;
      if n < left then
        var q' := [Pending(q[0].data, q[0].offset + n)] + q[1..];
        Live(q') && Consume(q, n) == q'
      else Live(q[1..]) && n - left <= |Bytes(q[1..])| && Consume(q, n) == Consume(q[1..], n - left)
  {
    assert q != [];
    LiveParts(q, n);
    LiveAt(q, 0);
    assert Bytes(q) == Rest(q[0]) + Bytes(q[1..]);
    hide Bytes, Live, Rest;
  }

  lemma ConsumeNothing(q: Deque)
    ensures Consume(q, 0) == q
  {
  }

  /** `after` carries `data` to `session` beyond what `before` carried, and nothing else. */
  ghost predicate Carries(before: seq<Attempt>, after: seq<Attempt>, session: Session, data: seq<Byte>) {
    forall s :: Delivered(after, s) == Delivered(before, s) + (if s == session then data else [])
  }

  lemma CarriesOne(before: seq<Attempt>, a: Attempt)
    ensures Carries(before, before + [a], a.session, if a.ok then a.frame else [])
  {
    forall s
      ensures Delivered(before + [a], s)
           == Delivered(before, s) + (if s == a.session then if a.ok then a.frame else [] else [])
    {
      DeliveredOne(before, a, s);
    }
  }

  lemma CarriesNothing(a: seq<Attempt>, session: Session)
    ensures Carries(a, a, session, [])
  {
  }

  lemma CarriesMore(a: seq<Attempt>, b: seq<Attempt>, c: seq<Attempt>, session: Session, data: seq<Byte>)
    requires Carries(a, b, session, []) && Carries(b, c, session, data)
    ensures Carries(a, c, session, data)
  {
    forall s
      ensures Delivered(c, s) == Delivered(a, s) + (if s == session then data else [])
    {
      assert Delivered(b, s) == Delivered(a, s) + (if s == session then [] else []);
    }
  }

  /** The session whose frame was carried owes that much less; no other account moves. */
  lemma ServeBalances(q: Queues, got: seq<Msg>, before: seq<Attempt>, after: seq<Attempt>)
    requires Consistent(q) && q.ready != []
    requires Balanced(got, q.pending, before)
    requires Carries(before, after, q.ready[0], Frame(q.pending[q.ready[0]]))
    ensures Balanced(got, Requeue(q, Served(q)).pending, after)
  {
    hide Bytes, Delivered, Said, Consume;
    var owed := q.pending[q.ready[0]];
    ConsumeKeepsTheRest(owed, |Frame(owed)|);
    TakeDrop(Bytes(owed), |Frame(owed)|);
    forall s
      ensures Delivered(after, s) + Owed(Requeue(q, Served(q)).pending, s) == Said(got, s)
    {
      EmptyOwesNothing();
      Assoc(Delivered(before, s), Frame(owed), Bytes(Served(q)));
    }
  }

  lemma EmptyOwesNothing()
    ensures Bytes([]) == []
  {
  }

  /** What is left of the head session's deque after one frame. */
  function Served(q: Queues): Deque
    requires q.ready != [] && q.ready[0] in q.pending
  {
    var owed := q.pending[q.ready[0]];
    Consume(owed, |Frame(owed)|)
  }

  /** The collections after the session at the head of `ready` has been served,
    * leaving `left` in its deque. */
  function Requeue(q: Queues, left: Deque): Queues
    requires q.ready != []
  {
    Release(q.pending[q.ready[0] := left], q.ready[0], q.ready[1..])
  }

  ghost predicate Balanced(got: seq<Msg>, pending: map<Session, Deque>, attempts: seq<Attempt>) {
    forall s :: Delivered(attempts, s) + Owed(pending, s) == Said(got, s)
  }

  /** What the writer has received is what it delivered plus what it still
    * holds, for every session; the counters have been lowered by the rest. */
  ghost predicate Accounted(got: seq<Msg>, q: Queues, attempts: seq<Attempt>, released: int, releasedBytes: int) {
    && Consistent(q)
    && Balanced(got, q.pending, attempts)
    && Total(Items, q.pending, q.ready) + released == |got|
    && Total(ByteLen, q.pending, q.ready) + releasedBytes == Length(got)
  }

  lemma AccountedAtStart()
    ensures Accounted([], Queues(map[], []), [], 0, 0)
    ensures Disciplined([]) && FailuresInARow([]) == 0
  {
  }

  lemma AccountedConsistent(got: seq<Msg>, q: Queues, attempts: seq<Attempt>, released: int, releasedBytes: int)
    requires Accounted(got, q, attempts, released, releasedBytes)
    ensures Consistent(q) && (q.ready != [] ==> q.ready[0] in q.pending)
    ensures releasedBytes <= Length(got)
  {
  }

  lemma AccountedAtEnd(got: seq<Msg>, q: Queues, attempts: seq<Attempt>, released: int, releasedBytes: int)
    requires Accounted(got, q, attempts, released, releasedBytes) && q.ready == []
    ensures q.pending == map[]
    ensures forall s :: Delivered(attempts, s) == Said(got, s)
    ensures released == |got| && releasedBytes == Length(got)
  {
    assert forall s <- q.pending :: s in q.ready;
    forall s ensures Delivered(attempts, s) == Said(got, s) {
      assert Owed(q.pending, s) == [];
    }
  }

  lemma AccountServed(
      got: seq<Msg>, q: Queues, before: seq<Attempt>, after: seq<Attempt>, released: int, releasedBytes: int)
    requires Accounted(got, q, before, released, releasedBytes) && q.ready != []
    requires Carries(before, after, q.ready[0], Frame(q.pending[q.ready[0]]))
    ensures Frame(q.pending[q.ready[0]]) != []
    ensures Accounted(got, Requeue(q, Served(q)), after,
                      released + |q.pending[q.ready[0]]| - |Served(q)|,
                      releasedBytes + |Frame(q.pending[q.ready[0]])|)
  {
    var owed := q.pending[q.ready[0]];
    LiveOwesBytes(owed);
    ConsumeKeepsTheRest(owed, |Frame(owed)|);
    ConsumeStaysLive(owed, |Frame(owed)|);
    var session, rest, pending := q.ready[0], q.ready[1..], q.pending[q.ready[0] := Served(q)];
    assert [session] + rest == q.ready;
    DeliveredKeepsLists(q.pending, q.ready, session, Served(q));
    ReleaseConsistent(pending, session, rest);
    ReleaseTotal(Items, pending, session, rest);
    ReleaseTotal(ByteLen, pending, session, rest);
    TotalUpdate(Items, q.pending, q.ready, session, Served(q));
    TotalUpdate(ByteLen, q.pending, q.ready, session, Served(q));
    ServeBalances(q, got, before, after);
  }

  lemma AccountReceived(
      got: seq<Msg>, q: Queues, attempts: seq<Attempt>, released: int, releasedBytes: int, msg: Msg)
    requires Accounted(got, q, attempts, released, releasedBytes) && msg.data != []
    ensures Accounted(got + [msg], Enqueue(q, msg), attempts, released, releasedBytes)
    ensures Enqueue(q, msg).ready != []
  {
    hide Said, Delivered, Owed, Total;
    EnqueueConsistent(q, msg);
    EnqueueCosts(q, msg);
    LengthAppend(got, [msg]);
    forall s
      ensures Delivered(attempts, s) + Owed(Enqueue(q, msg).pending, s) == Said(got + [msg], s)
    {
      EnqueueOwes(q, msg, s);
      SaidAppend(got, [msg], s);
      SaidOne(msg, s);
    }
  }
}
