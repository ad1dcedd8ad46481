/** The byte bridge between a blocking local socket and an async remote stream.
  *
  * Each direction is a pipe: a reader takes chunks off its side and queues
  * them, a writer takes chunks off the queue and writes them to the other side.
  * Upward the reader is a thread and the writer a task, downward the other way
  * round. The two directions meet in the local socket: the downward writer
  * shuts it down when it is finished, which ends the upward reader.
  */
module Bridge {
  import opened Basics
  import Seqs

  const PUMP_BUFFER_BYTES: nat := 32 * 1024
  const PUMP_QUEUE_DEPTH: nat := 64

  datatype Reader = Reading | Holding(chunk: seq<Byte>) | Stopped

  datatype Writer = Waiting | Writing(chunk: seq<Byte>) | Closing | Closed

  /** `incoming`: arrived and unread; `read`, `written`: everything so far. */
  datatype Pipe = Pipe(
    incoming: seq<Byte>,
    read: seq<Byte>,
    reader: Reader,
    queue: seq<seq<Byte>>,
    writer: Writer,
    written: seq<Byte>,
    readFailed: bool,
    writeFailed: bool)

  datatype PipeStep =
    | Read(n: nat)
    | Eof
    | ReadFails
    | Send
    | Take
    | WriteOk
    | WriteFails(n: nat)
    | Close

  datatype State = State(up: Pipe, down: Pipe, localEof: bool, remoteEof: bool, shut: bool, arrived: nat)

  datatype Label =
    | Up(step: PipeStep)
    | Down(step: PipeStep)
    | LocalSends(bytes: seq<Byte>)
    | LocalCloses
    | RemoteSends(bytes: seq<Byte>)
    | RemoteCloses

  predicate PipeEnabled(p: Pipe, eof: bool, l: PipeStep) {
    match l
    case Read(n) => p.reader.Reading? && 1 <= n <= PUMP_BUFFER_BYTES && n <= |p.incoming|
    case Eof => p.reader.Reading? && p.incoming == [] && eof
    case ReadFails => p.reader.Reading?
    case Send => p.reader.Holding? && (p.writer.Closed? || |p.queue| < PUMP_QUEUE_DEPTH)
    case Take => p.writer.Waiting? && (p.queue != [] || p.reader.Stopped?)
    case WriteOk => p.writer.Writing?
    case WriteFails(n) => p.writer.Writing? && n < |p.writer.chunk|
    case Close => p.writer.Closing?
  }

  function PipeNext(p: Pipe, l: PipeStep): Pipe
    requires PipeEnabled(p, true, l)
  {
    match l
    case Read(n) =>
      p.(incoming := p.incoming[n..], read := p.read + p.incoming[..n], reader := Holding(p.incoming[..n]))
    case Eof => p.(reader := Stopped)
    case ReadFails => p.(reader := Stopped, readFailed := true)
    case Send =>
      // The receiving half goes away with its task or thread.
      if p.writer.Closed? then p.(reader := Stopped)
      else p.(queue := p.queue + [p.reader.chunk], reader := Reading)
    case Take =>
      if p.queue != [] then p.(writer := Writing(p.queue[0]), queue := p.queue[1..])
      else p.(writer := Closing)
    case WriteOk => p.(written := p.written + p.writer.chunk, writer := Waiting)
    case WriteFails(n) =>
      p.(written := p.written + p.writer.chunk[..n], writer := Closing, writeFailed := true)
    case Close => p.(writer := Closed)
  }

  predicate Fresh(p: Pipe) {
    p == Pipe([], [], Reading, [], Waiting, [], false, false)
  }

  predicate Init(s: State) {
    Fresh(s.up) && Fresh(s.down) && !s.localEof && !s.remoteEof && !s.shut && s.arrived == 0
  }

  /** After the local socket is shut down reads end and nothing more arrives. */
  predicate Enabled(s: State, l: Label) {
    match l
    case Up(step) => PipeEnabled(s.up, s.localEof || s.shut, step)
    case Down(step) => PipeEnabled(s.down, s.remoteEof, step)
    case LocalSends(_) => !s.localEof && !s.shut
    case LocalCloses => true
    case RemoteSends(_) => !s.remoteEof
    case RemoteCloses => true
  }

  function Next(s: State, l: Label): State
    requires Enabled(s, l)
  {
    match l
    case Up(step) => s.(up := PipeNext(s.up, step))
    case Down(step) => s.(down := PipeNext(s.down, step), shut := s.shut || step.Close?)
    case LocalSends(bytes) => s.(up := s.up.(incoming := s.up.incoming + bytes), arrived := s.arrived + |bytes|)
    case LocalCloses => s.(localEof := true)
    case RemoteSends(bytes) => s.(down := s.down.(incoming := s.down.incoming + bytes), arrived := s.arrived + |bytes|)
    case RemoteCloses => s.(remoteEof := true)
  }

  // ----- order and completeness -----

  function Flat(queue: seq<seq<Byte>>): seq<Byte> {
    if queue == [] then [] else queue[0] + Flat(queue[1..])
  }

  lemma {:induction false} FlatAppend(queue: seq<seq<Byte>>, chunk: seq<Byte>)
    ensures Flat(queue + [chunk]) == Flat(queue) + chunk
  {
    if queue == [] {
      assert (queue + [chunk])[1..] == [];
    } else {
      assert (queue + [chunk])[1..] == queue[1..] + [chunk];
      FlatAppend(queue[1..], chunk);
    }
  }

  function InWriter(p: Pipe): seq<Byte> {
    if p.writer.Writing? then p.writer.chunk else []
  }

  function InReader(p: Pipe): seq<Byte> {
    if p.reader.Holding? then p.reader.chunk else []
  }

  predicate ChunkOk(chunk: seq<Byte>) {
    1 <= |chunk| <= PUMP_BUFFER_BYTES
  }

  /** At most 64 chunks are queued, none is empty or over 32 KiB, and a writer
    * gives up only after a failed write or when all there is has been written. */
  ghost predicate ShapeOk(p: Pipe) {
    && |p.queue| <= PUMP_QUEUE_DEPTH
    && (forall chunk <- p.queue :: ChunkOk(chunk))
    && (p.reader.Holding? ==> ChunkOk(p.reader.chunk))
    && (p.writer.Writing? ==> ChunkOk(p.writer.chunk))
    && (p.writer.Closing? || p.writer.Closed? ==> p.writeFailed || (p.reader.Stopped? && p.queue == []))
    && (p.writeFailed ==> p.writer.Closing? || p.writer.Closed?)
  }

  /** Written, in hand and queued make up what was read, in order; only a failed
    * write can lose anything, and then what was written is still a prefix. */
  ghost predicate BytesOk(p: Pipe) {
    && (!p.writeFailed ==> p.written + (InWriter(p) + (Flat(p.queue) + InReader(p))) == p.read)
    && p.written <= p.read
  }

  ghost predicate PipeOk(p: Pipe) {
    ShapeOk(p) && BytesOk(p)
  }

  lemma ShapeStepKeeps(p: Pipe, l: PipeStep)
    requires ShapeOk(p) && PipeEnabled(p, true, l)
    ensures ShapeOk(PipeNext(p, l))
  {
    if l.Take? && p.queue != [] {
      assert p.queue[0] in p.queue;
    }
  }

  lemma ReadKeepsBytes(p: Pipe, n: nat)
    requires BytesOk(p) && ShapeOk(p) && PipeEnabled(p, true, Read(n))
    ensures BytesOk(PipeNext(p, Read(n)))
  {
    var got := p.incoming[..n];
    var w, q := InWriter(p), Flat(p.queue);
    hide Flat;
    if !p.writeFailed {
      assert q + [] == q;
      Seqs.Assoc(w, q, got);
      Seqs.Assoc(p.written, w + q, got);
    }
  }

  lemma SendKeepsBytes(p: Pipe)
    requires BytesOk(p) && ShapeOk(p) && PipeEnabled(p, true, Send)
    ensures BytesOk(PipeNext(p, Send))
  {
    if !p.writer.Closed? {
      FlatAppend(p.queue, p.reader.chunk);
      hide Flat;
      assert Flat(p.queue) + p.reader.chunk + [] == Flat(p.queue) + p.reader.chunk;
    }
  }

  lemma TakeKeepsBytes(p: Pipe)
    requires BytesOk(p) && ShapeOk(p) && PipeEnabled(p, true, Take)
    ensures BytesOk(PipeNext(p, Take))
  {
    if p.queue != [] {
      var rest := Flat(p.queue[1..]);
      assert Flat(p.queue) == p.queue[0] + rest;
      hide Flat;
      Seqs.Assoc(p.queue[0], rest, InReader(p));
      assert [] + (Flat(p.queue) + InReader(p)) == Flat(p.queue) + InReader(p);
    }
  }

  lemma WriteKeepsBytes(p: Pipe, l: PipeStep)
    requires BytesOk(p) && ShapeOk(p) && PipeEnabled(p, true, l) && (l.WriteOk? || l.WriteFails?)
    ensures BytesOk(PipeNext(p, l))
  {
    hide Flat;
    var rest := Flat(p.queue) + InReader(p);
    if l.WriteOk? {
      Seqs.Assoc(p.written, p.writer.chunk, rest);
      assert [] + rest == rest;
    } else {
      Seqs.TakeInto(p.written, p.writer.chunk, rest, l.n);
    }
  }

  lemma PipeStepKeeps(p: Pipe, l: PipeStep)
    requires PipeOk(p) && PipeEnabled(p, true, l)
    ensures PipeOk(PipeNext(p, l))
  {
    hide ShapeOk, Flat;
    ShapeStepKeeps(p, l);
    match l
    case Send => SendKeepsBytes(p);
    case Read(n) => ReadKeepsBytes(p, n);
    case WriteOk => WriteKeepsBytes(p, l);
    case WriteFails(n) => WriteKeepsBytes(p, l);
    case Take => TakeKeepsBytes(p);
    case _ =>
  }

  ghost predicate Inv(s: State) {
    PipeOk(s.up) && PipeOk(s.down) && (s.shut <==> s.down.writer.Closed?)
  }

  lemma InitInv(s: State)
    requires Init(s)
    ensures Inv(s)
  {
  }

  lemma StepKeepsInv(s: State, l: Label)
    requires Inv(s) && Enabled(s, l)
    ensures Inv(Next(s, l))
  {
    hide PipeOk;
    match l
    case Up(step) => PipeStepKeeps(s.up, step);
    case Down(step) => PipeStepKeeps(s.down, step);
    case _ => ArrivalKeeps(s, l);
  }

  lemma ArrivalKeeps(s: State, l: Label)
    requires Inv(s) && Enabled(s, l) && !l.Up? && !l.Down?
    ensures Inv(Next(s, l))
  {
    hide Flat;
  }

  ghost predicate Run(states: seq<State>, labels: seq<Label>) {
    && |states| == |labels| + 1
    && forall i :: 0 <= i < |labels| ==> Enabled(states[i], labels[i]) && states[i + 1] == Next(states[i], labels[i])
  }

  function Last(states: seq<State>): State
    requires states != []
  {
    states[|states| - 1]
  }

  lemma RunPrefix(states: seq<State>, labels: seq<Label>)
    requires Run(states, labels) && labels != []
    ensures Run(states[..|labels|], labels[..|labels| - 1])
    ensures Enabled(Last(states[..|labels|]), labels[|labels| - 1])
    ensures Last(states) == Next(Last(states[..|labels|]), labels[|labels| - 1])
  {
  }

  lemma {:induction false} RunKeepsInv(states: seq<State>, labels: seq<Label>)
    requires Run(states, labels) && Inv(states[0])
    ensures Inv(Last(states))
    decreases |labels|
  {
    hide Inv, Enabled, Next;
    if labels != [] {
      RunPrefix(states, labels);
      RunKeepsInv(states[..|labels|], labels[..|labels| - 1]);
      StepKeepsInv(Last(states[..|labels|]), labels[|labels| - 1]);
    }
  }

  /** In both directions, at every moment: bytes come out in the order they went
    * in, none twice; unless a write failed, what was read is what was written,
    * what is in hand and what is queued; and at most 64 chunks of 1 byte to
    * 32 KiB are queued. */
  lemma BytesKeepTheirOrder(states: seq<State>, labels: seq<Label>, p: Pipe)
    requires Run(states, labels) && Init(states[0]) && (p == Last(states).up || p == Last(states).down)
    ensures p.written <= p.read
    ensures !p.writeFailed ==> p.read == p.written + InWriter(p) + Flat(p.queue) + InReader(p)
    ensures |p.queue| <= PUMP_QUEUE_DEPTH && forall chunk <- p.queue :: ChunkOk(chunk)
  {
    InitInv(states[0]);
    RunKeepsInv(states, labels);
    hide Run, Init, Flat, InWriter, InReader;
    Seqs.Assoc(p.written, InWriter(p), Flat(p.queue));
    Seqs.Assoc(p.written, InWriter(p) + Flat(p.queue), InReader(p));
    Seqs.Assoc(InWriter(p), Flat(p.queue), InReader(p));
  }

  // ----- progress -----

  function ReaderRank(r: Reader): nat {
    match r case Reading => 1 case Holding(_) => 4 case Stopped => 0
  }

  function WriterRank(w: Writer): nat {
    match w case Waiting => 2 case Writing(_) => 3 case Closing => 1 case Closed => 0
  }

  function PipeRank(p: Pipe): nat {
    5 * |p.incoming| + ReaderRank(p.reader) + 2 * |p.queue| + WriterRank(p.writer)
  }

  function Rank(s: State): nat {
    PipeRank(s.up) + PipeRank(s.down)
  }

  predicate Pumps(l: Label) {
    l.Up? || l.Down?
  }

  function PumpSteps(labels: seq<Label>): nat {
    if labels == [] then 0
    else PumpSteps(labels[..|labels| - 1]) + (if Pumps(labels[|labels| - 1]) then 1 else 0)
  }

  lemma PipeRankStep(p: Pipe, l: PipeStep)
    requires PipeEnabled(p, true, l)
    ensures PipeRank(PipeNext(p, l)) + 1 <= PipeRank(p)
  {
  }

  lemma StepRank(s: State, l: Label)
    requires Enabled(s, l)
    ensures Rank(Next(s, l)) + (if Pumps(l) then 1 else 0) <= Rank(s) + 5 * (Next(s, l).arrived - s.arrived)
  {
    match l
    case Up(step) =>
      hide PipeRank, PipeNext;
      PipeRankStep(s.up, step);
    case Down(step) =>
      hide PipeRank, PipeNext;
      PipeRankStep(s.down, step);
    case _ =>
  }

  /** No livelock: the bridge takes at most five steps for each byte that
    * arrives, on top of what finishing the work at hand takes. */
  lemma {:induction false} PumpStepsAreBounded(states: seq<State>, labels: seq<Label>)
    requires Run(states, labels)
    ensures Rank(Last(states)) + PumpSteps(labels) <= Rank(states[0]) + 5 * (Last(states).arrived - states[0].arrived)
    decreases |labels|
  {
    hide Enabled, Next, Rank;
    if labels != [] {
      RunPrefix(states, labels);
      PumpStepsAreBounded(states[..|labels|], labels[..|labels| - 1]);
      StepRank(Last(states[..|labels|]), labels[|labels| - 1]);
    }
  }

  ghost predicate PipeStuck(p: Pipe, eof: bool) {
    forall l: PipeStep :: !l.ReadFails? && !l.WriteFails? ==> !PipeEnabled(p, eof, l)
  }

  /** No step of the bridge can be taken (socket calls are assumed to return;
    * failures are never counted on). */
  ghost predicate Stuck(s: State) {
    PipeStuck(s.up, s.localEof || s.shut) && PipeStuck(s.down, s.remoteEof)
  }

  predicate Finished(p: Pipe) {
    p.reader.Stopped? && p.writer.Closed?
  }

  /** A pipe whose source has ended can only come to rest finished. */
  lemma StuckPipeIsFinished(p: Pipe, eof: bool)
    requires PipeOk(p) && PipeStuck(p, eof) && eof
    ensures Finished(p)
    ensures !p.writeFailed ==> p.written == p.read
  {
    assert !PipeEnabled(p, eof, Read(1)) && !PipeEnabled(p, eof, Eof) && !PipeEnabled(p, eof, Send);
    assert !PipeEnabled(p, eof, Take) && !PipeEnabled(p, eof, WriteOk) && !PipeEnabled(p, eof, Close);
  }

  /** A pipe's reader stops only at the end of its source, by a failed read, or
    * because the writer is gone after a failed write. */
  ghost predicate ReadsToTheEnd(p: Pipe, eof: bool) {
    p.reader.Stopped? && !p.readFailed && !p.writeFailed ==> eof && p.incoming == []
  }

  ghost predicate AllReadToTheEnd(s: State) {
    ReadsToTheEnd(s.down, s.remoteEof) && ReadsToTheEnd(s.up, s.localEof || s.shut)
  }

  lemma PipeStepReadsToTheEnd(p: Pipe, eof: bool, l: PipeStep)
    requires ShapeOk(p) && ReadsToTheEnd(p, eof) && PipeEnabled(p, eof, l)
    ensures ReadsToTheEnd(PipeNext(p, l), eof)
  {
  }

  lemma StepReadsToTheEnd(s: State, l: Label)
    requires Inv(s) && AllReadToTheEnd(s) && Enabled(s, l)
    ensures AllReadToTheEnd(Next(s, l))
  {
    hide BytesOk, ShapeOk;
    match l
    case Up(step) =>
      hide PipeNext, PipeEnabled, ReadsToTheEnd;
      PipeStepReadsToTheEnd(s.up, s.localEof || s.shut, step);
    case Down(step) =>
      PipeStepReadsToTheEnd(s.down, s.remoteEof, step);
    case _ =>
  }

  lemma {:induction false} RunsReadToTheEnd(states: seq<State>, labels: seq<Label>)
    requires Run(states, labels) && Init(states[0])
    ensures AllReadToTheEnd(Last(states))
    decreases |labels|
  {
    if labels != [] {
      RunPrefix(states, labels);
      InitInv(states[0]);
      hide Run, Init, AllReadToTheEnd, Inv, Enabled, Next;
      var before := states[..|labels|];
      RunsReadToTheEnd(before, labels[..|labels| - 1]);
      RunKeepsInv(before, labels[..|labels| - 1]);
      StepReadsToTheEnd(Last(before), labels[|labels| - 1]);
    }
  }

  /** Once the remote has ended its stream, the bridge can only come to rest with
    * both threads and both tasks finished and the local socket shut down; all
    * the remote sent has then been written to the local side unless a local
    * write or a remote read failed, and all that was read from the local side
    * has been written to the remote unless a remote write failed. */
  lemma RemoteEofClosesEverything(states: seq<State>, labels: seq<Label>)
    requires Run(states, labels) && Init(states[0]) && Stuck(Last(states)) && Last(states).remoteEof
    ensures var s := Last(states);
      && Finished(s.up) && Finished(s.down) && s.shut
      && (!s.down.writeFailed ==> s.down.written == s.down.read)
      && (!s.down.writeFailed && !s.down.readFailed ==> s.down.incoming == [])
      && (!s.up.writeFailed ==> s.up.written == s.up.read)
  {
    InitInv(states[0]);
    RunKeepsInv(states, labels);
    RunsReadToTheEnd(states, labels);
    hide Init, ShapeOk, BytesOk, PipeStuck, Run, PipeEnabled;
    var s := Last(states);
    StuckPipeIsFinished(s.down, s.remoteEof);
    StuckPipeIsFinished(s.up, s.localEof || s.shut);
  }

  /** When only the local side has ended, its bytes still all reach the remote
    * before the bridge rests; the other direction stays open. */
  lemma LocalEofDrainsUpward(states: seq<State>, labels: seq<Label>)
    requires Run(states, labels) && Init(states[0]) && Stuck(Last(states)) && Last(states).localEof
    ensures var s := Last(states);
      && Finished(s.up)
      && (!s.up.writeFailed ==> s.up.written == s.up.read)
      && (!s.up.writeFailed && !s.up.readFailed ==> s.up.incoming == [])
  {
    InitInv(states[0]);
    RunKeepsInv(states, labels);
    RunsReadToTheEnd(states, labels);
    hide Init, ShapeOk, BytesOk, PipeStuck, Run, PipeEnabled;
    var s := Last(states);
    StuckPipeIsFinished(s.up, s.localEof || s.shut);
  }
}
