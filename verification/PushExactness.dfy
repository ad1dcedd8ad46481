/** The conditions under which hosts are kept are exact.
  *
  * For each step that may lose a host: it loses nobody if and only if its
  * condition in `Careful` holds. Over whole runs, every host is kept at every
  * moment if and only if every step is careful. And a condition on steps that
  * the app can check by itself makes every run careful.
  */
module PushExactness {
  import opened Basics
  import opened PendingRevocations
  import opened PushProtocol
  import opened PushObligations
  import opened PushDurability
  import O = PushOrdering

  // ----- unpairing -----

  /** While the erase of an unpair is under way, kept means guarded. */
  lemma LeavingKeepsOnlyGuarded(s: State, l: Label)
    requires O.Exclusive(s) && Enabled(s, l) && (l.SaveWritten? || l.SaveRejected?)
    ensures AllKept(Next(s, l)) <==> AllGuarded(Next(s, l))
  {
    SavingIsBusy(s, l);
    BusyIsEarly(s, l.i);
    RevocationIs(s, l);
    var t := Next(s, l);
    assert t.revs[l.i].erasing && t.pairing == s.pairing;
    hide Next, Enabled, Guarded;
  }

  /** A save loses nobody if and only if what it read has an entry for each host
    * that was left, is another one, and has had no outcome. */
  lemma SaveLosesNobodyExactlyIf(s: State, i: nat, now: int)
    requires Ordered(s) && Enabled(s, SaveWritten(i, now))
    ensures AllKept(Next(s, SaveWritten(i, now))) <==> Knows(s, s.revs[i].phase.read, s.revs[i].config.url)
  {
    var l := SaveWritten(i, now);
    LeavingKeepsOnlyGuarded(s, l);
    SavingIsBusy(s, l);
    NextStores(s, l);
    RevocationIs(s, l);
    var rev, t := s.revs[i], Next(s, l);
    hide Next, Enabled, Known, Done, Guarded, AllKept, Ordered;
    forall o | o in t.left
      ensures Guarded(t, o) <==> Done(s, o) || Known(rev.phase.read, o) || o.url == rev.config.url
    {
      OwnIsLast(s, i, o);
      SaveGuards(s, i, now, o);
    }
  }

  lemma FailedReadReadsNothing(s: State, i: nat, now: int)
    requires Enabled(s, SaveReadFails(i))
    ensures Next(s, SaveReadFails(i)) == Move(s, i, SaveWriting([], true)) && O.Busy(s.revs[i])
    ensures Enabled(Next(s, SaveReadFails(i)), SaveWritten(i, now))
  {
    RevocationIs(s, SaveReadFails(i));
  }

  lemma NothingIsKnown()
    ensures forall o :: !Known([], o)
  {
  }

  /** So a read that fails, the save then succeeding, loses nobody if and only if
    * every other host that is queued and was left has already had an outcome. */
  lemma FailedReadLosesNobodyExactlyIf(s: State, i: nat, now: int)
    requires Ordered(s) && AllKept(s) && Enabled(s, SaveReadFails(i))
    ensures var a := Next(s, SaveReadFails(i));
      && Enabled(a, SaveWritten(i, now))
      && (AllKept(Next(a, SaveWritten(i, now)))
          <==> forall l :: l in s.left && Known(s.queue, l) && l.url != s.revs[i].config.url ==> Done(s, l))
  {
    var l := SaveReadFails(i);
    var a := Next(s, l);
    hide Next, Enabled, Ordered, AllKept, Known, Knows, Done;
    FailedReadReadsNothing(s, i, now);
    OrderedStep(s, l);
    SaveLosesNobodyExactlyIf(a, i, now);
    FailedReadKnowsNothing(s, i);
  }

  lemma FailedReadKnowsNothing(s: State, i: nat)
    requires Ordered(s) && AllKept(s) && i < |s.revs| && O.Busy(s.revs[i])
    ensures var a, url := Move(s, i, SaveWriting([], true)), s.revs[i].config.url;
      Knows(a, [], url) <==> forall l :: l in s.left && Known(s.queue, l) && l.url != url ==> Done(s, l)
  {
    QueueKnows(s, i);
    NothingIsKnown();
    hide Ordered, AllKept, Known;
    DoneGrows(s, Move(s, i, SaveWriting([], true)));
    DoneGrows(Move(s, i, SaveWriting([], true)), s);
    hide Done;
  }

  /** A save that is rejected loses nobody if and only if its own host is guarded already. */
  lemma RejectedSaveLosesNobodyExactlyIf(s: State, i: nat)
    requires Durable(s) && Enabled(s, SaveRejected(i))
    ensures AllKept(Next(s, SaveRejected(i))) <==> Guarded(s, LeaveBy(s.revs[i]))
  {
    var l := SaveRejected(i);
    LeavingKeepsOnlyGuarded(s, l);
    RevocationIs(s, l);
    var t, own := Next(s, l), LeaveBy(s.revs[i]);
    assert t.queue == s.queue && t.fate == s.fate && own in t.left;
    if Guarded(s, own) {
      hide Next, Enabled, Durable, Guarded;
      RejectedKeeps(s, i);
    }
    hide Next, Enabled, Durable, Known, AllKept;
  }

  // ----- the retry -----

  /** The retry's write loses nobody if and only if every host left since the launch
    * has had an outcome, was in the queue when the retry read it, or is the one
    * stored. Hosts left before the launch it never loses. */
  lemma RetryLosesNobodyExactlyIf(s: State)
    requires O.Exclusive(s) && RetryOk(s) && Enabled(s, RetryWritten)
    ensures s.retry.Retrying? && (AllKept(Next(s, RetryWritten)) <==> RetryLosesNobody(s))
  {
    var t := Next(s, RetryWritten);
    RetryLeavesAlone(s);
    RetryIs(s, RetryWritten);
    assert !t.pairing.Storing?;
    hide Next, Enabled, Known, Done, Guarded, RetryKeeps, LeftSince, NoErase;
    forall l | l in t.left
      ensures Kept(t, l) <==> Done(s, l) || Known(s.retry.raw, l) || Held(s, l)
    {
      RetryGuardsWhatItRead(s, l);
    }
    hide Kept, Held;
  }

  // ----- pairing, and going down -----

  /** A crash loses nobody if and only if every host that was left and whose entry
    * was dropped for a pairing not stored yet has had an outcome or is still the one
    * stored. */
  lemma CrashLosesNobodyExactlyIf(s: State)
    requires Ordered(s) && AllKept(s)
    ensures AllKept(Next(s, Crash))
       <==> forall l :: l in s.left && BeingPaired(s, l) ==> Done(s, l) || Stored(s, l)
  {
    LaunchIs(s, Crash);
    var t := Next(s, Crash);
    assert t.queue == s.queue && t.fate == s.fate && t.left == s.left && t.stored == s.stored && t.revs == [];
    assert !t.pairing.Storing?;
    hide Next, Enabled;
    forall l | l in s.left && BeingPaired(s, l)
      ensures !Known(s.queue, l)
    {
      UnknownHost(s.queue, l);
    }
    hide Known, Ordered;
  }

  /** A pairing that fails loses nobody if and only if its host, dropped from the
    * queue and left before, has had an outcome or is still the one stored. */
  lemma FailedPairingLosesNobodyExactlyIf(s: State)
    requires Ordered(s) && AllKept(s) && Enabled(s, PairFails)
    ensures AllKept(Next(s, PairFails))
       <==> forall l :: l in s.left && BeingPaired(s, l) ==> Done(s, l) || Held(s, l)
  {
    PairingIs(s, PairFails);
    var t := Next(s, PairFails);
    assert t == s.(pairing := NotPairing);
    hide Next, Enabled;
    forall l | l in s.left && BeingPaired(s, l)
      ensures !Known(s.queue, l)
    {
      UnknownHost(s.queue, l);
    }
    hide Known, Ordered;
  }

  /** The storing of a pairing loses nobody if and only if the connection it replaces
    * is to no other host that was left and is not guarded. */
  lemma ANewPairingLosesNobodyExactlyIf(s: State)
    requires Durable(s) && Enabled(s, PairStored)
    ensures s.pairing.Storing?
    ensures AllKept(Next(s, PairStored))
       <==> forall l :: l in s.left && Stored(s, l) && l.url != s.pairing.config.url ==> Guarded(s, l)
  {
    PairingIs(s, PairStored);
    var t, own := Next(s, PairStored), Outcome(Repaired, Leave(s.pairing.config.url, s.sessions));
    assert t.fate == s.fate + {own} && t.queue == s.queue && t.left == s.left && t.stored == Some(s.pairing.config);
    assert !t.pairing.Storing?;
    if AllKept(t) {
      hide Next, Enabled, Known, Durable;
      forall l | l in s.left && Stored(s, l) && l.url != s.pairing.config.url
        ensures Guarded(s, l)
      {
        assert Kept(t, l);
        FatesAdd(s, t, {own}, l);
      }
    } else {
      assert s.pairing.Storing?;
      hide Next, Enabled, Durable, AllKept, Stored, Guarded;
      if Careful(s, PairStored) {
        PairingKeeps(s);
      }
    }
  }

  /** A restore that fails and erases the connection loses nobody if and only if
    * that connection is to no host that was left and is not guarded. */
  lemma FailedRestoreLosesNobodyExactlyIf(s: State)
    requires Ordered(s) && AllKept(s) && Enabled(s, RestoreFails)
    ensures AllKept(Next(s, RestoreFails)) <==> forall l :: l in s.left && Stored(s, l) ==> Guarded(s, l)
  {
    LaunchIs(s, RestoreFails);
    var t := Next(s, RestoreFails);
    assert t == s.(stored := None, restoring := false) && !s.pairing.Storing?;
    hide Next, Enabled, Known, Ordered, NoErase;
    forall l
      ensures Guarded(t, l) <==> Guarded(s, l)
    {
    }
    hide Guarded;
  }

  // ----- whole runs -----

  /** Every step that is not careful loses a host. */
  lemma ACarelessStepLosesAHost(s: State, l: Label)
    requires Durable(s) && Enabled(s, l) && O.Waits(l) && !Careful(s, l)
    ensures !AllKept(Next(s, l))
  {
    if l.SaveWritten? {
      CarelessSave(s, l.i, l.now);
    } else {
      hide Next, Enabled, AllKept, Known, Done, Guarded, TurnsOk, O.Exclusive, DropsOk, BusyOk, CopiesOk, RetryLosesNobody;
      hide Stored, NoErase, RetryOk;
      match l
      case SaveRejected(i) => RejectedSaveLosesNobodyExactlyIf(s, i);
      case RetryWritten => RetryLosesNobodyExactlyIf(s);
      case Crash => CrashLosesNobodyExactlyIf(s);
      case PairFails => FailedPairingLosesNobodyExactlyIf(s);
      case PairStored => ANewPairingLosesNobodyExactlyIf(s);
      case RestoreFails => FailedRestoreLosesNobodyExactlyIf(s);
    }
  }

  lemma CarelessSave(s: State, i: nat, now: int)
    requires Durable(s) && Enabled(s, SaveWritten(i, now)) && !Careful(s, SaveWritten(i, now))
    ensures !AllKept(Next(s, SaveWritten(i, now)))
  {
    assert s.revs[i].phase.read == [];
    hide Next, Enabled, Knows, AllKept, Ordered;
    SaveLosesNobodyExactlyIf(s, i, now);
  }

  /** Over whole runs in which pairing waits for revocations: every host that was left
    * is kept at every moment if and only if every step is careful. */
  lemma RunsForgetNobodyExactlyIfCareful(states: seq<State>, labels: seq<Label>)
    requires Run(states, labels) && Init(states[0]) && O.AllWait(labels)
    ensures (forall k :: 0 <= k < |states| ==> AllKept(states[k])) <==> CarefulRun(states, labels)
  {
    hide Enabled, Next, Init, AllKept, O.Waits, Careful;
    if CarefulRun(states, labels) {
      forall k | 0 <= k < |states|
        ensures AllKept(states[k])
      {
        RunsStayDurable(states, labels, k);
      }
    }
    if forall k :: 0 <= k < |states| ==> AllKept(states[k]) {
      CarefulSoFar(states, labels, |labels|);
    }
  }

  lemma {:induction false} CarefulSoFar(states: seq<State>, labels: seq<Label>, n: nat)
    requires Run(states, labels) && Init(states[0]) && n < |states| && O.AllWait(labels)
    requires forall k :: 0 <= k < |states| ==> AllKept(states[k])
    ensures forall i :: 0 <= i < n ==> Careful(states[i], labels[i])
  {
    if n > 0 {
      hide Enabled, Next, Init, Careful, AllKept, Durable, O.Waits;
      CarefulSoFar(states, labels, n - 1);
      RunsStayDurable(states, labels, n - 1);
      assert labels[n - 1] in labels && states[n] == Next(states[n - 1], labels[n - 1]) && AllKept(states[n]);
      if !Careful(states[n - 1], labels[n - 1]) {
        ACarelessStepLosesAHost(states[n - 1], labels[n - 1]);
      }
    }
  }

  // ----- a condition the app can check -----

  /** Between dropping its host's entry and storing the new connection. */
  predicate Dropping(p: Pairing) {
    p.Storing? && p.dropped
  }

  /** No read or write of the queue fails for an unpair, no unpair saves while the
    * retry is at work, and the app neither goes down nor gives a pairing up between
    * dropping its host's entry and storing it. */
  predicate Smooth(s: State, l: Label) {
    match l
    case SettleBoundExpires => false
    case SaveReadFails(_) => false
    case SaveRejected(_) => false
    case SaveWritten(_, _) => !s.retry.Retrying?
    case Crash => !Dropping(s.pairing)
    case PairFails => !Dropping(s.pairing)
    case _ => true
  }

  /** Nobody needs the stored connection to be kept. */
  ghost predicate Easy(s: State) {
    && (forall l :: l in s.left ==> Guarded(s, l) || BeingPaired(s, l))
    && (forall i: nat :: i < |s.revs| && s.revs[i].phase.SaveWriting? ==> !s.revs[i].phase.failed)
    && (s.retry.Retrying? ==> forall l :: l in s.left ==> Done(s, l) || Known(s.retry.raw, l))
  }

  lemma SmoothIsCareful(s: State, l: Label)
    requires Ordered(s) && Easy(s) && Enabled(s, l) && Smooth(s, l)
    ensures Careful(s, l)
  {
    if l.RestoreFails? {
      LaunchIs(s, l);
    }
    hide Next, Enabled, Known, Done, Stored, NoErase, LeftSince, TurnsOk, DropsOk;
  }

  /** Steps that write no queue, leave no session and end no pairing. */
  lemma EasyFrame(s: State, t: State)
    requires forall l :: l in s.left ==> Guarded(s, l) || BeingPaired(s, l)
    requires t.left == s.left && t.queue == s.queue && s.fate <= t.fate
    requires Dropping(s.pairing) ==> t.pairing == s.pairing
    ensures forall l :: l in t.left ==> Guarded(t, l) || BeingPaired(t, l)
  {
    DoneGrows(s, t);
    hide Done, Known;
  }

  lemma EasyKeeps(s: State, l: Label)
    requires Durable(s) && Easy(s) && Enabled(s, l) && Smooth(s, l) && Careful(s, l)
    ensures forall o :: o in Next(s, l).left ==> Guarded(Next(s, l), o) || BeingPaired(Next(s, l), o)
  {
    if l.SaveWritten? {
      hide Durable, Easy, Enabled, Next, Careful, Guarded, BeingPaired;
      SaveKeeps(s, l.i, l.now);
    } else if l.ForgetWritten? {
      hide Durable, Easy, Enabled, Next, Careful, Guarded, BeingPaired;
      ForgetKeeps(s, l.i);
    } else if l.RetryWritten? {
      EasyRetry(s);
    } else if l.PairForgotten? || l.PairStored? {
      EasyPairing(s, l);
    } else {
      EasyRest(s, l);
    }
  }

  lemma EasyRetry(s: State)
    requires RetryOk(s) && Easy(s) && Enabled(s, RetryWritten)
    ensures AllGuarded(Next(s, RetryWritten))
  {
    var t := Next(s, RetryWritten);
    RetryLeavesAlone(s);
    RetryIs(s, RetryWritten);
    hide Enabled, Next, Guarded, Done, Known, RetryOk;
    forall o | o in t.left
      ensures Guarded(t, o)
    {
      RetryGuardsWhatItRead(s, o);
    }
  }

  lemma EasyPairing(s: State, l: Label)
    requires Durable(s) && Easy(s) && Enabled(s, l) && (l.PairForgotten? || l.PairStored?)
    ensures forall o :: o in Next(s, l).left ==> Guarded(Next(s, l), o) || BeingPaired(Next(s, l), o)
  {
    PairingIs(s, l);
    var t, config := Next(s, l), s.pairing.config;
    var own := Outcome(Repaired, Leave(config.url, s.sessions));
    assert l.PairStored? ==> own in t.fate && t.queue == s.queue && t.left == s.left;
    assert l.PairForgotten? ==> t.queue == DropRevocations(s.queue, config.url) && t.left == s.left;
    NextFollows(s, l);
    DoneGrows(s, t);
    assert forall o :: o in s.left ==> o.session <= s.sessions;
    hide Next, Enabled, Durable, DropRevocations;
    forall o | o in t.left
      ensures Guarded(t, o) || BeingPaired(t, o)
    {
      if l.PairStored? && o.url == config.url {
        assert Covers(own.leave, o);
      } else if o.url != config.url && !Done(s, o) {
        var e :| e in s.queue && Covers(LeaveOf(e), o);
        assert e in t.queue;
      }
    }
  }

  lemma EasyRest(s: State, l: Label)
    requires Easy(s) && Enabled(s, l) && Smooth(s, l)
    requires !l.SaveWritten? && !l.ForgetWritten? && !l.RetryWritten? && !l.PairForgotten? && !l.PairStored?
    ensures forall o :: o in Next(s, l).left ==> Guarded(Next(s, l), o) || BeingPaired(Next(s, l), o)
  {
    var t := Next(s, l);
    NextFollows(s, l);
    NextStores(s, l);
    if s.pairing.Storing? && !Risky(l) {
      StoringStays(s, l);
    }
    assert s.left + {} == s.left;
    hide Next, Enabled, Issued, Guarded, BeingPaired, NoErase;
    EasyFrame(s, t);
  }

  /** The read of a save that goes on has not failed. */
  lemma EasyReads(s: State, l: Label)
    requires Easy(s) && Enabled(s, l) && !l.SaveReadFails?
    ensures forall i: nat :: i < |Next(s, l).revs| && Next(s, l).revs[i].phase.SaveWriting? ==> !Next(s, l).revs[i].phase.failed
  {
    if IsRevocation(l) {
      RevocationIs(s, l);
      hide Next, Enabled, QueueRevocation, SaveFates, DropRevocations, Urls;
    } else {
      NextFollows(s, l);
      hide Next, Enabled, Issued;
    }
  }

  /** A retry at work keeps what it has read. */
  lemma RawStays(s: State, l: Label)
    requires O.Exclusive(s) && Enabled(s, l) && !l.RetryRead? && Next(s, l).retry.Retrying?
    ensures s.retry.Retrying? && Next(s, l).retry.raw == s.retry.raw
  {
    if IsRevocation(l) {
      RevocationLeavesRetry(s, l);
    } else if IsRetry(l) {
      RetryIs(s, l);
      hide Next, Enabled, Unanswered;
    } else {
      hide Next, Enabled;
      OthersLeaveRetry(s, l);
    }
  }

  lemma EasyRetrying(s: State, l: Label)
    requires Ordered(s) && Easy(s) && Enabled(s, l) && Smooth(s, l) && Next(s, l).retry.Retrying?
    ensures forall o :: o in Next(s, l).left ==> Done(Next(s, l), o) || Known(Next(s, l).retry.raw, o)
  {
    var t := Next(s, l);
    if l.RetryRead? {
      RetryIs(s, l);
      assert t.retry.raw == s.queue && !s.pairing.Storing?;
    } else {
      RawStays(s, l);
    }
    NobodyLeaves(s, l);
    hide Next, Enabled, Known, Ordered;
    DoneGrows(s, t);
    hide Done;
  }

  /** No smooth step leaves a session while the retry is at work. */
  lemma NobodyLeaves(s: State, l: Label)
    requires O.Exclusive(s) && Enabled(s, l) && Smooth(s, l) && Next(s, l).retry.Retrying?
    ensures Next(s, l).left == s.left && s.fate <= Next(s, l).fate
  {
    if IsRevocation(l) {
      RevocationLeavesRetry(s, l);
      RevocationKeeps(s, l);
      assert s.left + {} == s.left;
    } else {
      OthersTouch(s, l);
    }
    hide Next, Enabled, O.Exclusive;
  }

  lemma EasyStep(s: State, l: Label)
    requires Durable(s) && Easy(s) && Enabled(s, l) && Smooth(s, l)
    ensures Careful(s, l) && Easy(Next(s, l))
  {
    SmoothIsCareful(s, l);
    var t := Next(s, l);
    hide Next, Enabled, Careful;
    EasyKeeps(s, l);
    EasyReads(s, l);
    if t.retry.Retrying? {
      EasyRetrying(s, l);
    }
    hide Durable, Guarded, BeingPaired, Done, Known;
  }

  lemma {:induction false} SmoothSoFar(states: seq<State>, labels: seq<Label>, n: nat)
    requires Run(states, labels) && Init(states[0]) && n < |states|
    requires forall i :: 0 <= i < |labels| ==> Smooth(states[i], labels[i])
    ensures Durable(states[n]) && Easy(states[n]) && forall i :: 0 <= i < n ==> Careful(states[i], labels[i])
  {
    hide Enabled, Next, Careful, Smooth;
    if n == 0 {
      InitDurable(states[0]);
    } else {
      SmoothSoFar(states, labels, n - 1);
      hide Durable, Easy, Init;
      EasyStep(states[n - 1], labels[n - 1]);
      DurableStep(states[n - 1], labels[n - 1]);
    }
  }

  /** A run that is smooth all along is careful, and every host it has left is in the
    * queue, has had an outcome, or is being paired; whatever else fails. */
  lemma SmoothRunsForgetNobody(states: seq<State>, labels: seq<Label>)
    requires Run(states, labels) && Init(states[0])
    requires forall i :: 0 <= i < |labels| ==> Smooth(states[i], labels[i])
    ensures CarefulRun(states, labels)
    ensures forall l :: l in Last(states).left ==> Guarded(Last(states), l) || BeingPaired(Last(states), l)
  {
    SmoothSoFar(states, labels, |labels|);
    hide Run, Init, Smooth, Durable, Guarded, BeingPaired, Careful;
  }
}
