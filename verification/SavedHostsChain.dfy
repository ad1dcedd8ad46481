/** The promise chain that serializes edits of the stored host list.
  *
  * Every call waits for the call before it to release, then reads, applies its
  * change and writes. `T` is what is stored.
  */
module SavedHostsChain {
  import opened Basics

  datatype Outcome<T> = Saved(value: T) | Failed

  datatype Phase<T> = Waiting | Reading | Writing(next: T) | Done(outcome: Outcome<T>)

  /** `previous`: the call whose release this one waits for. */
  datatype Call<!T> = Call(change: T -> T, previous: Option<nat>, phase: Phase<T>)

  /** `tail`: the call the next one will wait for. */
  datatype State<!T> = State(stored: T, tail: Option<nat>, calls: seq<Call<T>>)

  datatype Label<!T> =
    | Begin(change: T -> T)
    | Proceed(i: nat)
    | ReadOk(i: nat)
    | ReadFails(i: nat)
    | WriteOk(i: nat)
    | WriteFails(i: nat)

  predicate Released<T>(s: State<T>, previous: Option<nat>) {
    previous.None? || (previous.value < |s.calls| && s.calls[previous.value].phase.Done?)
  }

  predicate Enabled<T>(s: State<T>, l: Label<T>) {
    match l
    case Begin(_) => true
    case Proceed(i) => i < |s.calls| && s.calls[i].phase.Waiting? && Released(s, s.calls[i].previous)
    case ReadOk(i) => i < |s.calls| && s.calls[i].phase.Reading?
    case ReadFails(i) => i < |s.calls| && s.calls[i].phase.Reading?
    case WriteOk(i) => i < |s.calls| && s.calls[i].phase.Writing?
    case WriteFails(i) => i < |s.calls| && s.calls[i].phase.Writing?
  }

  function Move<T>(s: State<T>, i: nat, phase: Phase<T>): State<T>
    requires i < |s.calls|
  {
    s.(calls := s.calls[i := s.calls[i].(phase := phase)])
  }

  function Next<T>(s: State<T>, l: Label<T>): State<T>
    requires Enabled(s, l)
  {
    match l
    case Begin(change) =>
      s.(calls := s.calls + [Call(change, s.tail, Waiting)], tail := Some(|s.calls|))
    case Proceed(i) => Move(s, i, Reading)
    case ReadOk(i) => Move(s, i, Writing(s.calls[i].change(s.stored)))
    case ReadFails(i) => Move(s, i, Done(Failed))
    case WriteOk(i) =>
      var next := s.calls[i].phase.next;
      Move(s, i, Done(Saved(next))).(stored := next)
    case WriteFails(i) => Move(s, i, Done(Failed))
  }

  ghost predicate Run<T(!new)>(states: seq<State<T>>, labels: seq<Label<T>>) {
    && |states| == |labels| + 1
    && forall i :: 0 <= i < |labels| ==> Enabled(states[i], labels[i]) && states[i + 1] == Next(states[i], labels[i])
  }

  function Last<T>(states: seq<State<T>>): State<T>
    requires states != []
  {
    states[|states| - 1]
  }

  ghost predicate Fresh<T>(s: State<T>, initial: T) {
    s.tail == None && |s.calls| == 0 && s.stored == initial
  }

  /** The changes of the first `n` calls that were saved, applied in call order. */
  function Folded<T>(initial: T, calls: seq<Call<T>>, n: nat): T
    requires n <= |calls|
  {
    if n == 0 then initial
    else
      var before := Folded(initial, calls, n - 1);
      if calls[n - 1].phase.Done? && calls[n - 1].phase.outcome.Saved? then calls[n - 1].change(before) else before
  }

  ghost predicate SameEffect<T>(a: Call<T>, b: Call<T>) {
    && a.change == b.change
    && (a.phase == b.phase || (!a.phase.Done? && (b.phase.Done? ==> b.phase.outcome.Failed?)))
  }

  lemma {:induction false} FoldedFrame<T>(initial: T, a: seq<Call<T>>, b: seq<Call<T>>, n: nat)
    requires n <= |a| && n <= |b|
    requires forall i :: 0 <= i < n ==> SameEffect(a[i], b[i])
    ensures Folded(initial, a, n) == Folded(initial, b, n)
  {
    if n > 0 {
      FoldedFrame(initial, a, b, n - 1);
    }
  }

  /** Nothing saved yet from `n` on. */
  lemma {:induction false} FoldedTail<T>(initial: T, calls: seq<Call<T>>, n: nat, m: nat)
    requires n <= m <= |calls|
    requires forall i :: n <= i < m ==> !(calls[i].phase.Done? && calls[i].phase.outcome.Saved?)
    ensures Folded(initial, calls, m) == Folded(initial, calls, n)
    decreases m
  {
    if n < m {
      FoldedTail(initial, calls, n, m - 1);
    }
  }

  ghost predicate Inv<T>(s: State<T>, initial: T) {
    && s.tail == (if |s.calls| == 0 then None else Some(|s.calls| - 1))
    && (forall i: nat :: i < |s.calls| ==> s.calls[i].previous == (if i == 0 then None else Some(i - 1)))
    && (forall i: nat, j: nat :: i < j < |s.calls| && !s.calls[j].phase.Waiting? ==> s.calls[i].phase.Done?)
    && s.stored == Folded(initial, s.calls, |s.calls|)
    && (forall i: nat :: i < |s.calls| && s.calls[i].phase.Writing? ==>
          s.calls[i].phase.next == s.calls[i].change(s.stored))
    && (forall i: nat :: i < |s.calls| && s.calls[i].phase.Done? && s.calls[i].phase.outcome.Saved? ==>
          s.calls[i].phase.outcome.value == Folded(initial, s.calls, i + 1))
  }

  lemma StepKeepsInv<T>(s: State<T>, l: Label<T>, initial: T)
    requires Inv(s, initial) && Enabled(s, l)
    ensures Inv(Next(s, l), initial)
  {
    if l.WriteOk? {
      WriteKeepsInv(s, l.i, initial);
    } else if l.Begin? {
      BeginKeepsInv(s, l, initial);
    } else {
      OtherKeepsInv(s, l, initial);
    }
  }

  lemma BeginKeepsInv<T>(s: State<T>, l: Label<T>, initial: T)
    requires Inv(s, initial) && Enabled(s, l) && l.Begin?
    ensures Inv(Next(s, l), initial)
  {
    var t := Next(s, l);
    forall n: nat | n <= |s.calls|
      ensures Folded(initial, s.calls, n) == Folded(initial, t.calls, n)
    {
      FoldedFrame(initial, s.calls, t.calls, n);
    }
    assert Folded(initial, t.calls, |t.calls|) == Folded(initial, t.calls, |s.calls|);
  }

  lemma OtherKeepsInv<T>(s: State<T>, l: Label<T>, initial: T)
    requires Inv(s, initial) && Enabled(s, l) && !l.Begin? && !l.WriteOk?
    ensures Inv(Next(s, l), initial)
  {
    var t := Next(s, l);
    forall n: nat | n <= |s.calls|
      ensures Folded(initial, s.calls, n) == Folded(initial, t.calls, n)
    {
      FoldedFrame(initial, s.calls, t.calls, n);
    }
    hide Folded;
    AloneAtWork(s, l);
  }

  /** Whoever reads or writes does so alone. */
  lemma AloneAtWork<T>(s: State<T>, l: Label<T>)
    requires Enabled(s, l) && !l.Begin?
      && (forall i: nat, j: nat :: i < j < |s.calls| && !s.calls[j].phase.Waiting? ==> s.calls[i].phase.Done?)
      && (forall i: nat :: i < |s.calls| ==> s.calls[i].previous == (if i == 0 then None else Some(i - 1)))
    ensures forall j: nat :: j < l.i ==> s.calls[j].phase.Done?
    ensures forall j: nat :: l.i < j < |s.calls| ==> s.calls[j].phase.Waiting?
  {
    if l.Proceed? && l.i > 0 {
      assert s.calls[l.i - 1].phase.Done?;
      forall j: nat | j < l.i ensures s.calls[j].phase.Done? {
        if j < l.i - 1 {
          assert !s.calls[l.i - 1].phase.Waiting?;
        }
      }
    }
  }

  lemma WriteKeepsInv<T>(s: State<T>, i: nat, initial: T)
    requires Inv(s, initial) && Enabled(s, Label<T>.WriteOk(i))
    ensures Inv(Next(s, Label<T>.WriteOk(i)), initial)
  {
    var t := Next(s, Label<T>.WriteOk(i));
    AloneAtWork(s, Label<T>.WriteOk(i));
    forall n: nat | n <= i ensures Folded(initial, s.calls, n) == Folded(initial, t.calls, n) {
      FoldedFrame(initial, s.calls, t.calls, n);
    }
    FoldedTail(initial, s.calls, i, |s.calls|);
    FoldedTail(initial, t.calls, i + 1, |t.calls|);
    assert Folded(initial, t.calls, i + 1) == t.stored;
    hide Folded;
  }

  // ----- over whole runs -----

  lemma {:induction false} RunKeepsInv<T(!new)>(states: seq<State<T>>, labels: seq<Label<T>>, initial: T)
    requires Run(states, labels) && Fresh(states[0], initial)
    ensures Inv(Last(states), initial)
    decreases |labels|
  {
    if labels != [] {
      var before := states[..|labels|];
      assert Run(before, labels[..|labels| - 1]);
      RunKeepsInv(before, labels[..|labels| - 1], initial);
      StepKeepsInv(Last(before), labels[|labels| - 1], initial);
    }
  }

  /** Edits are linearized in call order: whatever overlaps and whatever fails,
    * the stored list is the saved changes applied in the order of the calls, and
    * each saved call is told the list right after its own change. */
  lemma EditsAreSerialized<T(!new)>(states: seq<State<T>>, labels: seq<Label<T>>, initial: T)
    requires Run(states, labels) && Fresh(states[0], initial)
    ensures var s := Last(states);
      && s.stored == Folded(initial, s.calls, |s.calls|)
      && forall i: nat :: i < |s.calls| && s.calls[i].phase.Done? && s.calls[i].phase.outcome.Saved? ==>
           s.calls[i].phase.outcome.value == s.calls[i].change(Folded(initial, s.calls, i))
  {
    RunKeepsInv(states, labels, initial);
  }

  function StepsLeft<T>(calls: seq<Call<T>>): nat {
    if calls == [] then 0
    else StepsLeft(calls[..|calls| - 1]) + StepsOf(calls[|calls| - 1].phase)
  }

  function StepsOf<T>(phase: Phase<T>): nat {
    match phase
    case Waiting => 3
    case Reading => 2
    case Writing(_) => 1
    case Done(_) => 0
  }

  lemma {:induction false} StepsLeftUpdate<T>(calls: seq<Call<T>>, i: nat, c: Call<T>)
    requires i < |calls|
    ensures StepsLeft(calls[i := c]) + StepsOf(calls[i].phase) == StepsLeft(calls) + StepsOf(c.phase)
    decreases |calls|
  {
    var n := |calls| - 1;
    if i < n {
      StepsLeftUpdate(calls[..n], i, c);
      assert calls[i := c][..n] == calls[..n][i := c];
    } else {
      assert calls[i := c][..n] == calls[..n];
    }
  }

  /** Every step but a new call brings some call closer to its end. */
  lemma EveryStepHelps<T>(s: State<T>, l: Label<T>)
    requires Enabled(s, l)
    ensures l.Begin? ==> StepsLeft(Next(s, l).calls) == StepsLeft(s.calls) + 3
    ensures !l.Begin? ==> StepsLeft(Next(s, l).calls) < StepsLeft(s.calls)
  {
    if l.Begin? {
      assert Next(s, l).calls[..|s.calls|] == s.calls;
    } else {
      StepsLeftUpdate(s.calls, l.i, Next(s, l).calls[l.i]);
    }
  }

  predicate CanMove<T>(s: State<T>, k: nat) {
    Enabled(s, Label<T>.Proceed(k))
    || (Enabled(s, Label<T>.ReadOk(k)) && Enabled(s, Label<T>.ReadFails(k)))
    || (Enabled(s, Label<T>.WriteOk(k)) && Enabled(s, Label<T>.WriteFails(k)))
  }

  /** Nobody is blocked for good by anybody's failure: while a call is not done,
    * the first such call can take a step, whatever the outcome of that step. */
  lemma SomeoneCanMove<T(!new)>(states: seq<State<T>>, labels: seq<Label<T>>, initial: T, i: nat)
    requires Run(states, labels) && Fresh(states[0], initial)
    requires i < |Last(states).calls| && !Last(states).calls[i].phase.Done?
    ensures exists k: nat :: k <= i && CanMove(Last(states), k)
  {
    RunKeepsInv(states, labels, initial);
    FirstUndone(Last(states), initial, i);
  }

  lemma {:induction false} FirstUndone<T>(s: State<T>, initial: T, i: nat)
    requires Inv(s, initial) && i < |s.calls| && !s.calls[i].phase.Done?
    ensures exists k: nat :: k <= i && CanMove(s, k)
  {
    if i == 0 || s.calls[i - 1].phase.Done? {
      assert CanMove(s, i);
    } else {
      FirstUndone(s, initial, i - 1);
    }
  }

  /** A run makes at most four steps for each call, its beginning included. */
  lemma {:induction false} RunsAreShort<T(!new)>(states: seq<State<T>>, labels: seq<Label<T>>, initial: T)
    requires Run(states, labels) && Fresh(states[0], initial)
    ensures |labels| + StepsLeft(Last(states).calls) <= 4 * |Last(states).calls|
    decreases |labels|
  {
    if labels != [] {
      var before := states[..|labels|];
      assert Run(before, labels[..|labels| - 1]);
      RunsAreShort(before, labels[..|labels| - 1], initial);
      EveryStepHelps(Last(before), labels[|labels| - 1]);
    }
  }
}
