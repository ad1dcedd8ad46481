/** The per-session input deques of the terminal input writer.
  *
  * A session's deque is a sequence of messages, the front one possibly half
  * sent. Everything the writer does to a deque is described here by what it
  * does to the bytes still owed: `BuildInputFrame` copies a prefix of them,
  * `ConsumeInputFrame` removes a prefix.
  */
module InputQueue {
  import opened Basics
  import opened Seqs

  type Session = string

  const INPUT_QUEUE_CAPACITY: nat := 256
  const INPUT_QUEUE_MAX_BYTES: nat := 4 * 1024 * 1024
  const INPUT_FRAME_DATA_MAX: nat := 64 * 1024

  datatype Msg = Msg(session: Session, data: seq<Byte>)

  /** A queued message and how much of it has been sent. */
  datatype Pending = Pending(data: seq<Byte>, offset: nat)

  type Deque = seq<Pending>

  datatype Queues = Queues(pending: map<Session, Deque>, ready: seq<Session>)

  // ----- what a deque still owes -----

  function Rest(p: Pending): seq<Byte> {
    if p.offset <= |p.data| then p.data[p.offset..] else []
  }

  function Bytes(q: Deque): seq<Byte> {
    if q == [] then [] else Rest(q[0]) + Bytes(q[1..])
  }

  function Frame(q: Deque): seq<Byte> {
    Bytes(q)[..Min(INPUT_FRAME_DATA_MAX, |Bytes(q)|)]
  }

  /** The deque after its first `n` owed bytes have been sent: fully sent
    * messages are gone, the next one is part sent, later ones are untouched. */
  function Consume(q: Deque, n: nat): Deque
    requires n <= |Bytes(q)|
  {
    if n == 0 then q
    else if n < |Rest(q[0])| then [Pending(q[0].data, q[0].offset + n)] + q[1..]
    else Consume(q[1..], n - |Rest(q[0])|)
  }

  /** Every message in the deque has at least one byte left to send. */
  ghost predicate Live(q: Deque) {
    forall p <- q :: p.offset < |p.data|
  }

  lemma {:induction false} BytesAppend(q: Deque, r: Deque)
    ensures Bytes(q + r) == Bytes(q) + Bytes(r)
  {
    hide Rest;
    if q == [] {
      assert q + r == r;
    } else {
      BytesAppend(q[1..], r);
      assert (q + r)[0] == q[0] && (q + r)[1..] == q[1..] + r;
      Assoc(Rest(q[0]), Bytes(q[1..]), Bytes(r));
    }
  }

  lemma PartSent(q: Deque, n: nat)
    requires q != [] && n < |Rest(q[0])|
    ensures Bytes([Pending(q[0].data, q[0].offset + n)] + q[1..]) == Bytes(q)[n..]
  {
    var front := Pending(q[0].data, q[0].offset + n);
    assert Rest(front) == Rest(q[0])[n..];
    assert ([front] + q[1..])[1..] == q[1..];
    DropWithin(Rest(q[0]), Bytes(q[1..]), n);
  }

  /** Consuming removes exactly the bytes that were framed and keeps the rest
    * in order. */
  lemma {:induction false} ConsumeKeepsTheRest(q: Deque, n: nat)
    requires n <= |Bytes(q)|
    ensures Bytes(Consume(q, n)) == Bytes(q)[n..]
  {
    if n == 0 {
    } else if n < |Rest(q[0])| {
      PartSent(q, n);
    } else {
      ConsumeKeepsTheRest(q[1..], n - |Rest(q[0])|);
      DropBeyond(Rest(q[0]), Bytes(q[1..]), n);
    }
  }

  lemma LiveOwesBytes(q: Deque)
    requires Live(q)
    ensures |Bytes(q)| > 0 <==> q != []
  {
    if q != [] {
      assert q[0] in q;
    }
  }

  lemma LiveAt(q: Deque, i: nat)
    requires Live(q) && i < |q|
    ensures q[i].offset < |q[i].data| && |Rest(q[i])| == |q[i].data| - q[i].offset
  {
    assert q[i] in q;
  }

  lemma LiveParts(q: Deque, n: nat)
    requires Live(q) && q != []
    ensures q[0].offset < |q[0].data| && Live(q[1..])
    ensures n < |q[0].data| - q[0].offset ==> Live([Pending(q[0].data, q[0].offset + n)] + q[1..])
  {
    assert q[0] in q;
    assert forall p <- q[1..] :: p in q;
  }

  /** Sending never leaves a spent message behind. */
  lemma {:induction false} ConsumeStaysLive(q: Deque, n: nat)
    requires n <= |Bytes(q)| && Live(q)
    ensures Live(Consume(q, n)) && |Consume(q, n)| <= |q|
    ensures Consume(q, n) == [] <==> n == |Bytes(q)|
  {
    LiveOwesBytes(q);
    hide Live, Rest;
    if q != [] {
      LiveParts(q, n);
      LiveAt(q, 0);
    }
    if n == 0 {
    } else if n >= |Rest(q[0])| {
      ConsumeStaysLive(q[1..], n - |Rest(q[0])|);
    }
  }

  /** A deque whose messages are all spent can never be drained: its frame is
    * empty and consuming that frame changes nothing. `write` keeps such
    * messages out by refusing empty input. */
  lemma SpentDequeNeverDrains(q: Deque)
    requires Bytes(q) == []
    ensures Frame(q) == [] && Consume(q, |Frame(q)|) == q
  {
  }

  // ----- the queue pair -----

  /** `held` lists exactly the sessions with a deque, once each. */
  ghost predicate Lists(pending: map<Session, Deque>, held: seq<Session>) {
    && NoDuplicates(held)
    && (forall s <- held :: s in pending)
    && (forall s <- pending :: s in held)
    && (forall s <- pending :: Live(pending[s]))
  }

  /** The invariant of the writer's two collections at its loop head. */
  ghost predicate Consistent(q: Queues) {
    && Lists(q.pending, q.ready)
    && forall s <- q.ready :: q.pending[s] != []
  }

  function Enqueue(q: Queues, msg: Msg): Queues {
    var session := if msg.session in q.pending then q.pending[msg.session] else [];
    Queues(
      q.pending[msg.session := session + [Pending(msg.data, 0)]],
      if session == [] then q.ready + [msg.session] else q.ready)
  }

  /** The bytes `pending` owes to session `s`. */
  function Owed(pending: map<Session, Deque>, s: Session): seq<Byte> {
    if s in pending then Bytes(pending[s]) else []
  }

  // ----- totals over the listed sessions -----

  function Items(q: Deque): nat { |q| }

  function ByteLen(q: Deque): nat { |Bytes(q)| }

  /** Frames needed to send everything a deque owes. */
  function Frames(q: Deque): nat {
    FramesFor(|Bytes(q)|)
  }

  function FramesFor(n: nat): nat {
    (n + INPUT_FRAME_DATA_MAX - 1) / INPUT_FRAME_DATA_MAX
  }

  ghost function Total(f: Deque -> nat, pending: map<Session, Deque>, held: seq<Session>): nat
    requires forall s <- held :: s in pending
  {
    if held == [] then 0
    else f(pending[held[0]]) + Total(f, pending, held[1..])
  }

  lemma {:induction false} TotalAppend(f: Deque -> nat, pending: map<Session, Deque>, a: seq<Session>, b: seq<Session>)
    requires forall s <- a :: s in pending
    requires forall s <- b :: s in pending
    ensures Total(f, pending, a + b) == Total(f, pending, a) + Total(f, pending, b)
  {
    if a == [] {
      assert a + b == b;
    } else {
      assert (a + b)[1..] == a[1..] + b;
      TotalAppend(f, pending, a[1..], b);
    }
  }

  lemma {:induction false} TotalElsewhere(
      f: Deque -> nat, p: map<Session, Deque>, p': map<Session, Deque>, held: seq<Session>)
    requires forall s <- held :: s in p && s in p' && p[s] == p'[s]
    ensures Total(f, p, held) == Total(f, p', held)
  {
    if held != [] {
      TotalElsewhere(f, p, p', held[1..]);
    }
  }

  lemma {:induction false} TotalUpdate(
      f: Deque -> nat, p: map<Session, Deque>, held: seq<Session>, s: Session, q: Deque)
    requires NoDuplicates(held) && s in held
    requires forall t <- held :: t in p
    ensures Total(f, p[s := q], held) + f(p[s]) == Total(f, p, held) + f(q)
  {
    if held[0] == s {
      TotalElsewhere(f, p, p[s := q], held[1..]);
    } else {
      TotalUpdate(f, p, held[1..], s, q);
    }
  }

  lemma EnqueueBytes(q: Deque, data: seq<Byte>)
    ensures Bytes(q + [Pending(data, 0)]) == Bytes(q) + data
  {
    BytesAppend(q, [Pending(data, 0)]);
    assert Bytes([Pending(data, 0)]) == data;
  }

  /** Queueing a message keeps the two collections consistent and lets no
    * session that is already waiting lose its place. */
  lemma EnqueueConsistent(q: Queues, msg: Msg)
    requires Consistent(q) && msg.data != []
    ensures Consistent(Enqueue(q, msg))
    ensures q.ready <= Enqueue(q, msg).ready && Enqueue(q, msg).ready != []
  {
    if msg.session in q.pending {
      assert msg.session in q.ready;
    }
  }

  /** Queueing a message adds its bytes to its session and moves no other byte. */
  lemma EnqueueOwes(q: Queues, msg: Msg, s: Session)
    ensures Owed(Enqueue(q, msg).pending, s)
         == Owed(q.pending, s) + (if s == msg.session then msg.data else [])
  {
    EnqueueBytes(if msg.session in q.pending then q.pending[msg.session] else [], msg.data);
  }

  lemma EnqueueTotal(f: Deque -> nat, q: Queues, msg: Msg)
    requires Consistent(q) && msg.data != [] && f([]) == 0
    ensures forall s <- Enqueue(q, msg).ready :: s in Enqueue(q, msg).pending
    ensures var before := if msg.session in q.pending then q.pending[msg.session] else [];
      Total(f, Enqueue(q, msg).pending, Enqueue(q, msg).ready) + f(before)
      == Total(f, q.pending, q.ready) + f(before + [Pending(msg.data, 0)])
  {
    var s, after := msg.session, Enqueue(q, msg);
    if s in q.pending {
      TotalUpdate(f, q.pending, q.ready, s, q.pending[s] + [Pending(msg.data, 0)]);
    } else {
      TotalElsewhere(f, q.pending, after.pending, q.ready);
      TotalAppend(f, after.pending, q.ready, [s]);
      assert [s][1..] == [];
    }
  }

  /** Queueing a message costs its session one item and its bytes. */
  lemma EnqueueCosts(q: Queues, msg: Msg)
    requires Consistent(q) && msg.data != []
    ensures forall s <- Enqueue(q, msg).ready :: s in Enqueue(q, msg).pending
    ensures Total(Items, Enqueue(q, msg).pending, Enqueue(q, msg).ready) == Total(Items, q.pending, q.ready) + 1
    ensures Total(ByteLen, Enqueue(q, msg).pending, Enqueue(q, msg).ready)
         == Total(ByteLen, q.pending, q.ready) + |msg.data|
  {
    EnqueueTotal(Items, q, msg);
    EnqueueTotal(ByteLen, q, msg);
    EnqueueBytes(if msg.session in q.pending then q.pending[msg.session] else [], msg.data);
  }

  /** The end of a session's turn: forgotten if nothing is left in its deque,
    * otherwise back at the end of the line. */
  function Release(pending: map<Session, Deque>, session: Session, ready: seq<Session>): Queues {
    if session in pending && pending[session] != [] then Queues(pending, ready + [session])
    else Queues(pending - {session}, ready)
  }

  lemma DeliveredKeepsLists(pending: map<Session, Deque>, held: seq<Session>, session: Session, left: Deque)
    requires Lists(pending, held) && session in held && Live(left)
    ensures Lists(pending[session := left], held)
  {
  }

  lemma ReleaseConsistent(pending: map<Session, Deque>, session: Session, ready: seq<Session>)
    requires Lists(pending, [session] + ready) && forall t <- ready :: t in pending && pending[t] != []
    ensures Consistent(Release(pending, session, ready))
  {
    var held, after := [session] + ready, Release(pending, session, ready);
    assert held[1..] == ready;
    assert session !in ready by {
      forall i | 0 <= i < |ready| ensures ready[i] != session {
        assert held[0] != held[i + 1];
      }
    }
    assert NoDuplicates(ready) by {
      forall i, j | 0 <= i < j < |ready| ensures ready[i] != ready[j] {
        assert held[i + 1] != held[j + 1];
      }
    }
    forall t <- after.pending ensures t in after.ready {
      assert t in held;
    }
  }

  lemma ReleaseTotal(f: Deque -> nat, pending: map<Session, Deque>, session: Session, ready: seq<Session>)
    requires session in pending && session !in ready && (forall t <- ready :: t in pending) && f([]) == 0
    ensures forall t <- Release(pending, session, ready).ready :: t in Release(pending, session, ready).pending
    ensures Total(f, Release(pending, session, ready).pending, Release(pending, session, ready).ready)
         == Total(f, pending, [session] + ready)
  {
    assert ([session] + ready)[1..] == ready;
    if pending[session] != [] {
      TotalAppend(f, pending, ready, [session]);
      assert [session][1..] == [];
    } else {
      TotalElsewhere(f, pending, pending - {session}, ready);
    }
  }

  /** One frame fewer is needed after a full frame has been sent. */
  lemma FrameSaved(q: Deque)
    requires Bytes(q) != []
    ensures Frames(Consume(q, |Frame(q)|)) == Frames(q) - 1
    ensures 1 <= |Frame(q)| <= INPUT_FRAME_DATA_MAX
  {
    hide FramesFor, Consume, Bytes;
    var n := Min(INPUT_FRAME_DATA_MAX, |Bytes(q)|);
    ConsumeKeepsTheRest(q, n);
    CeilStep(|Bytes(q)|);
  }

  lemma CeilStep(n: nat)
    requires n > 0
    ensures FramesFor(n - Min(INPUT_FRAME_DATA_MAX, n)) == FramesFor(n) - 1
  {
  }

  // ----- streams of messages and of delivered frames -----

  datatype Attempt = Attempt(session: Session, frame: seq<Byte>, ok: bool, pause: nat)

  /** What the messages say to session `s`, in order. */
  function Said(msgs: seq<Msg>, s: Session): seq<Byte> {
    if msgs == [] then []
    else Said(msgs[..|msgs| - 1], s)
         + (if msgs[|msgs| - 1].session == s then msgs[|msgs| - 1].data else [])
  }

  /** What the successful attempts delivered to session `s`, in order. */
  function Delivered(attempts: seq<Attempt>, s: Session): seq<Byte> {
    if attempts == [] then []
    else
      var last := attempts[|attempts| - 1];
      Delivered(attempts[..|attempts| - 1], s) + (if last.ok && last.session == s then last.frame else [])
  }

  function Length(msgs: seq<Msg>): nat {
    if msgs == [] then 0 else |msgs[0].data| + Length(msgs[1..])
  }

  lemma {:induction false} LengthAppend(a: seq<Msg>, b: seq<Msg>)
    ensures Length(a + b) == Length(a) + Length(b)
  {
    if a == [] {
      assert a + b == b;
    } else {
      assert (a + b)[1..] == a[1..] + b;
      LengthAppend(a[1..], b);
    }
  }

  lemma {:induction false} SaidAppend(a: seq<Msg>, b: seq<Msg>, s: Session)
    ensures Said(a + b, s) == Said(a, s) + Said(b, s)
  {
    if b == [] {
      assert a + b == a;
    } else {
      var c := a + b;
      assert c[..|c| - 1] == a + b[..|b| - 1];
      SaidAppend(a, b[..|b| - 1], s);
    }
  }

  lemma SaidOne(msg: Msg, s: Session)
    ensures Said([msg], s) == if msg.session == s then msg.data else []
  {
    assert [msg][..0] == [];
  }

  lemma DeliveredOne(attempts: seq<Attempt>, a: Attempt, s: Session)
    ensures Delivered(attempts + [a], s) == Delivered(attempts, s) + (if a.ok && a.session == s then a.frame else [])
  {
    assert (attempts + [a])[..|attempts|] == attempts;
  }

  // ----- retries -----

  const INPUT_RETRY_INITIAL_BACKOFF: nat := 10
  const INPUT_RETRY_MAX_BACKOFF: nat := 1000

  /** The pause after the `k`-th failure in a row of one frame. */
  function Backoff(k: nat): nat {
    if k == 0 then INPUT_RETRY_INITIAL_BACKOFF else Min(Backoff(k - 1) * 2, INPUT_RETRY_MAX_BACKOFF)
  }

  function Pow2(k: nat): nat {
    if k == 0 then 1 else 2 * Pow2(k - 1)
  }

  /** Doubling from 10 ms, capped at one second. */
  lemma {:induction false} BackoffDoublesToCap(k: nat)
    ensures Backoff(k) == Min(INPUT_RETRY_INITIAL_BACKOFF * Pow2(k), INPUT_RETRY_MAX_BACKOFF)
    ensures Pow2(k) >= 1
  {
    if k > 0 {
      BackoffDoublesToCap(k - 1);
    }
  }

  function FailuresInARow(attempts: seq<Attempt>): nat {
    if attempts == [] || attempts[|attempts| - 1].ok then 0
    else 1 + FailuresInARow(attempts[..|attempts| - 1])
  }

  /** After a failure only the failed frame may be tried. */
  ghost predicate Committed(attempts: seq<Attempt>, session: Session, frame: seq<Byte>) {
    attempts != [] && !attempts[|attempts| - 1].ok ==>
      attempts[|attempts| - 1].session == session && attempts[|attempts| - 1].frame == frame
  }

  /** `a` may follow `attempts`: it repeats a frame that just failed, is 1 byte
    * to 64 KiB long, and if it fails in turn the pause after it is the one its
    * place in the row of failures calls for. */
  ghost predicate Allowed(attempts: seq<Attempt>, a: Attempt) {
    && Committed(attempts, a.session, a.frame)
    && 1 <= |a.frame| <= INPUT_FRAME_DATA_MAX
    && (!a.ok ==> a.pause == Backoff(FailuresInARow(attempts)))
  }

  ghost predicate Disciplined(attempts: seq<Attempt>) {
    forall i :: 0 <= i < |attempts| ==> Allowed(attempts[..i], attempts[i])
  }

  lemma AttemptStaysDisciplined(attempts: seq<Attempt>, a: Attempt)
    requires Disciplined(attempts) && Allowed(attempts, a)
    ensures Disciplined(attempts + [a])
    ensures FailuresInARow(attempts + [a]) == if a.ok then 0 else FailuresInARow(attempts) + 1
  {
    hide Allowed;
    var b := attempts + [a];
    assert b[..|attempts|] == attempts;
    forall i | 0 <= i < |b|
      ensures Allowed(b[..i], b[i])
    {
      assert b[..i] == attempts[..i];
    }
  }
}
