/** In what order registrations and revocations reach a host.
  *
  * Over every run, crashes included, nothing registers again after an unpair's
  * DELETE until a host is paired, unless the app went down while the connection
  * was still stored. Here too is who can be at work together while pairing waits
  * for revocations. The conditions are predicates on steps; `PushRuns` shows that
  * each is needed.
  */
module PushOrdering {
  import opened Basics
  import opened PendingRevocations
  import opened PushProtocol

  /** Pairing waits for the revocations under way. */
  ghost predicate Waits(l: Label) {
    !l.SettleBoundExpires?
  }

  ghost predicate AllWait(labels: seq<Label>) {
    forall l <- labels :: Waits(l)
  }

  /** And every registration first aborts the one before it. */
  ghost predicate Disciplined(l: Label) {
    Waits(l) && (l.StartRegistration? ==> l.abortPrevious)
  }

  /** When the queue cannot be read for a pairing, its host is not in it. */
  ghost predicate MissesNothing(s: State, l: Label) {
    l.PairReadFails? && s.pairing.PairReading? ==> s.pairing.config.url !in Urls(s.queue)
  }

  // ----- the log -----

  /** The stored connection has been erased by an unpair, and none stored since. */
  predicate Gone(log: seq<Event>) {
    if log == [] then false
    else match log[|log| - 1]
      case Erase(_) => true
      case Paired(_, _) => false
      case _ => Gone(log[..|log| - 1])
  }

  /** An unpair's DELETE has been issued, no host has been paired since, and no
    * crash has found the connection still stored. */
  predicate Locked(log: seq<Event>) {
    if log == [] then false
    else
      var before := log[..|log| - 1];
      match log[|log| - 1]
      case Delete(_, _, byUnpair) => byUnpair || Locked(before)
      case Paired(_, _) => false
      case Crashed => Locked(before) && Gone(before)
      case _ => Locked(before)
  }

  /** The connection was still stored when the app went down. */
  predicate CrashedBeforeErase(log: seq<Event>, k: nat)
    requires k < |log|
  {
    log[k].Crashed? && !Gone(log[..k])
  }

  lemma {:induction false} WhatUnlocks(log: seq<Event>, i: nat)
    requires !Locked(log) && i < |log| && log[i].Delete? && log[i].byUnpair
    ensures exists k :: i < k < |log| && (log[k].Paired? || CrashedBeforeErase(log, k))
  {
    var n := |log| - 1;
    var before := log[..n];
    if !log[n].Paired? && !CrashedBeforeErase(log, n) {
      WhatUnlocks(before, i);
      var k :| i < k < |before| && (before[k].Paired? || CrashedBeforeErase(before, k));
      assert before[..k] == log[..k];
      assert log[k].Paired? || CrashedBeforeErase(log, k);
    }
  }

  lemma LockAppend(log: seq<Event>, e: Event)
    ensures Gone(log + [e]) == match e
      case Erase(_) => true
      case Paired(_, _) => false
      case _ => Gone(log)
    ensures Locked(log + [e]) == match e
      case Delete(_, _, byUnpair) => byUnpair || Locked(log)
      case Paired(_, _) => false
      case Crashed => Locked(log) && Gone(log)
      case _ => Locked(log)
  {
    assert (log + [e])[..|log|] == log;
  }

  // ----- who can be active together -----

  ghost predicate Busy(r: Revocation) {
    !r.phase.Ended?
  }

  ghost predicate PastWaiting(p: Pairing) {
    p.PairReading? || p.PairWriting? || p.Storing? || p.Activating?
  }

  ghost predicate AllEnded(s: State) {
    s.retry.RetryDone? && forall i: nat :: i < |s.revs| ==> !Busy(s.revs[i])
  }

  ghost predicate NoSession(s: State) {
    s.session.None? || s.session.value.leaving
  }

  ghost predicate Exclusive(s: State) {
    && (s.session.Some? ==> s.session.value.id == s.sessions && !s.restoring && s.pairing.NotPairing?)
    && (forall i: nat :: i < |s.revs| && Busy(s.revs[i]) ==> NoSession(s))
    && (PastWaiting(s.pairing) ==> AllEnded(s))
    && (s.pairing.AwaitingRevocations? ==>
          && (forall i: nat :: i < |s.revs| && Busy(s.revs[i]) ==> i in s.pairing.revs)
          && (!s.retry.RetryDone? ==> s.pairing.retry))
    && (!s.pairing.NotPairing? ==> s.session.None? && !s.restoring)
    && (s.restoring ==> s.revs == [] && s.regs == [] && s.pairing.NotPairing?)
  }

  lemma ExclusiveStep(s: State, l: Label)
    requires Exclusive(s) && Enabled(s, l) && Waits(l)
    ensures Exclusive(Next(s, l))
  {
    hide Next, Enabled, Exclusive;
    if IsRegistration(l) {
      ExclusiveRegistration(s, l);
    } else if IsRevocation(l) {
      ExclusiveRevocation(s, l);
    } else if IsRetry(l) {
      ExclusiveRetry(s, l);
    } else if IsPairing(l) {
      ExclusivePairing(s, l);
    } else {
      ExclusiveLaunch(s, l);
    }
  }

  lemma ExclusiveRegistration(s: State, l: Label)
    requires Exclusive(s) && Enabled(s, l) && IsRegistration(l)
    ensures Exclusive(Next(s, l))
  {
    RegistrationIs(s, l);
    hide Next, Enabled, Busy, AllEnded;
  }

  lemma ExclusiveRetry(s: State, l: Label)
    requires Exclusive(s) && Enabled(s, l) && IsRetry(l)
    ensures Exclusive(Next(s, l))
  {
    RetryIs(s, l);
    hide Next, Enabled, LivePending, Unanswered, Urls, Busy, Marked, Aged;
  }

  lemma ExclusiveLaunch(s: State, l: Label)
    requires Exclusive(s) && Enabled(s, l) && IsLaunch(l)
    ensures Exclusive(Next(s, l))
  {
    LaunchIs(s, l);
    hide Next, Enabled;
  }

  lemma ExclusiveRevocation(s: State, l: Label)
    requires Exclusive(s) && Enabled(s, l) && IsRevocation(l)
    ensures Exclusive(Next(s, l))
  {
    if l.StartUnpair? {
      RevocationIs(s, l);
      hide Next, Enabled;
    } else {
      ExclusiveMoves(s, l);
    }
  }

  /** A revocation that goes on starts no session, and is not busy if it was not. */
  lemma GoesOn(s: State, l: Label)
    requires Enabled(s, l) && IsRevocation(l) && !l.StartUnpair?
    ensures var t := Next(s, l);
      && l.i < |s.revs| && |t.revs| == |s.revs| && (Busy(t.revs[l.i]) ==> Busy(s.revs[l.i]))
      && (t.session == s.session || t.session == None) && t.sessions == s.sessions && t.restoring == s.restoring
      && t.retry == s.retry && t.pairing == s.pairing && |t.regs| == |s.regs|
  {
    RevocationIs(s, l);
    hide Next, Enabled, QueueRevocation, SaveFates, DropRevocations, Urls;
  }

  lemma ExclusiveMoves(s: State, l: Label)
    requires Exclusive(s) && Enabled(s, l) && IsRevocation(l) && !l.StartUnpair?
    ensures Exclusive(Next(s, l))
  {
    GoesOn(s, l);
    OneMoves(s, l);
    hide Next, Enabled, Busy;
  }

  lemma ExclusivePairing(s: State, l: Label)
    requires Exclusive(s) && Enabled(s, l) && IsPairing(l) && Waits(l)
    ensures Exclusive(Next(s, l))
  {
    PairingIs(s, l);
    hide Next, Enabled, DropRevocations, Urls;
  }

  /** Whoever but a pairing writes the queue is at work, and so no pairing is being stored. */
  lemma WritersAreBusy(s: State, l: Label)
    requires Exclusive(s) && Enabled(s, l) && (l.SaveWritten? || l.ForgetWritten? || l.RetryWritten?)
    ensures !s.pairing.Storing?
  {
    if l.RetryWritten? {
      RetryIs(s, l);
      hide Next, Enabled;
    } else {
      RevocationIs(s, l);
      hide Next, Enabled;
      assert Busy(s.revs[l.i]);
    }
  }

  /** While a pairing is being stored nothing else writes the queue. */
  lemma QueueStays(s: State, l: Label)
    requires Exclusive(s) && Enabled(s, l) && !IsPairing(l) && Next(s, l).pairing.Storing?
    ensures s.pairing == Next(s, l).pairing && Next(s, l).queue == s.queue
  {
    NextFollows(s, l);
    hide Next, Enabled, Exclusive, Issued;
    if l.SaveWritten? || l.ForgetWritten? || l.RetryWritten? {
      WritersAreBusy(s, l);
    }
  }

  // ----- no POST after an unpair's DELETE -----

  /** Nothing that has not already posted will ever post. */
  ghost predicate Quiet(s: State) {
    forall i: nat :: i < |s.regs| ==> s.regs[i].aborted || s.regs[i].phase.Over? || s.regs[i].phase.Posting?
  }

  /** The gate knows the newest registration for as long as it runs, and every
    * older one has been aborted or is over. */
  ghost predicate GateOk(s: State) {
    && (s.running.Some? ==> s.running.value + 1 == |s.regs|)
    && (s.regs != [] && !s.regs[|s.regs| - 1].phase.Over? ==> s.running == Some(|s.regs| - 1))
    && (forall i: nat :: i + 1 < |s.regs| ==> s.regs[i].aborted || s.regs[i].phase.Over?)
    && (forall i: nat :: i < |s.revs| && s.revs[i].phase.Settling? ==> s.revs[i].phase.reg + 1 == |s.regs|)
    && (forall i: nat :: i < |s.revs| && s.revs[i].phase.Sending? ==> Quiet(s))
  }

  /** After an unpair's DELETE nothing posts and no session starts. */
  ghost predicate LockOk(s: State) {
    && (Gone(s.log) ==> s.stored.None?)
    && (Locked(s.log) ==> Quiet(s) && NoSession(s) && !s.pairing.Activating? && (s.restoring ==> Gone(s.log)))
  }

  lemma GateRegistration(s: State, l: Label)
    requires Exclusive(s) && GateOk(s) && Enabled(s, l) && IsRegistration(l) && Disciplined(l)
    ensures GateOk(Next(s, l)) && (Quiet(s) && NoSession(s) ==> Quiet(Next(s, l)))
  {
    if l.StartRegistration? {
      GateStart(s, l);
    } else {
      GateProgress(s, l);
    }
  }

  lemma GateStart(s: State, l: Label)
    requires Exclusive(s) && GateOk(s) && Enabled(s, l) && l == StartRegistration(true)
    ensures GateOk(Next(s, l)) && !NoSession(s)
  {
    RegistrationIs(s, l);
    hide Next, Enabled;
    hide Quiet;
    forall i: nat | i < |s.revs| ensures !s.revs[i].phase.Settling? && !s.revs[i].phase.Sending? {
      assert !Busy(s.revs[i]);
    }
  }

  lemma GateProgress(s: State, l: Label)
    requires GateOk(s) && Enabled(s, l) && IsRegistration(l) && !l.StartRegistration?
    ensures GateOk(Next(s, l)) && (Quiet(s) ==> Quiet(Next(s, l)))
  {
    OneRegisters(s, l);
    NextFollows(s, l);
    var t := Next(s, l);
    hide Next, Enabled, Issued;
    assert t.revs == s.revs;
    assert Quiet(s) ==> Quiet(t);
  }

  lemma GateRevocation(s: State, l: Label)
    requires Exclusive(s) && GateOk(s) && Enabled(s, l) && IsRevocation(l)
    ensures GateOk(Next(s, l)) && (Quiet(s) ==> Quiet(Next(s, l)))
  {
    RevocationIs(s, l);
    hide Next, Enabled;
    if l.GateRead? || l.GateSettled? || l.GraceExpires? || l.IssueDelete? {
      GateWaits(s, l);
    } else {
      hide Quiet, QueueRevocation, SaveFates, DropRevocations, Urls, GateOk;
      GateFrame(s, Next(s, l));
    }
  }

  /** Steps that leave the registrations alone and bring no revocation to the
    * gate or past it. */
  lemma GateFrame(s: State, t: State)
    requires GateOk(s) && t.regs == s.regs && t.running == s.running
    requires forall i: nat :: i < |t.revs| && (t.revs[i].phase.Settling? || t.revs[i].phase.Sending?) ==>
      i < |s.revs| && t.revs[i].phase == s.revs[i].phase
    ensures GateOk(t) && (Quiet(s) ==> Quiet(t))
  {
  }

  lemma GateWaits(s: State, l: Label)
    requires Exclusive(s) && GateOk(s) && Enabled(s, l)
    requires l.GateRead? || l.GateSettled? || l.GraceExpires? || l.IssueDelete?
    ensures GateOk(Next(s, l)) && (Quiet(s) ==> Quiet(Next(s, l)))
  {
    hide Next, Enabled, GateOk, Quiet;
    if l.GraceExpires? {
      GateGrace(s, l.i);
    } else {
      GateMoves(s, l);
    }
  }

  lemma GateGrace(s: State, i: nat)
    requires GateOk(s) && Enabled(s, GraceExpires(i))
    ensures GateOk(Next(s, GraceExpires(i))) && (Quiet(s) ==> Quiet(Next(s, GraceExpires(i))))
  {
    RevocationIs(s, GraceExpires(i));
    hide Next, Enabled;
  }

  /** Once the newest registration is over nothing can post any more. */
  lemma QuietOnceOver(s: State)
    requires GateOk(s) && (s.regs != [] ==> s.regs[|s.regs| - 1].phase.Over?)
    ensures Quiet(s)
  {
    forall i: nat | i < |s.regs|
      ensures s.regs[i].aborted || s.regs[i].phase.Over?
    {
      assert i + 1 < |s.regs| || i == |s.regs| - 1;
    }
  }

  /** A revocation at the gate waits for the newest registration, and goes on only
    * when nothing can post. */
  lemma GatePasses(s: State, l: Label)
    requires GateOk(s) && Enabled(s, l) && (l.GateRead? || l.GateSettled? || l.IssueDelete?)
    ensures Next(s, l).regs == s.regs && Next(s, l).running == s.running
    ensures l.i < |s.revs| && |Next(s, l).revs| == |s.revs|
    ensures var phase := Next(s, l).revs[l.i].phase;
      (phase.Settling? ==> phase.reg + 1 == |s.regs|) && (phase.Sending? ==> Quiet(s))
  {
    RevocationIs(s, l);
    if l.GateSettled? || (l.GateRead? && s.running.None?) {
      QuietOnceOver(s);
    }
    hide Next, Enabled, Quiet;
  }

  lemma GateMoves(s: State, l: Label)
    requires GateOk(s) && Enabled(s, l) && (l.GateRead? || l.GateSettled? || l.IssueDelete?)
    ensures GateOk(Next(s, l)) && (Quiet(s) ==> Quiet(Next(s, l)))
  {
    GatePasses(s, l);
    OneMoves(s, l);
    var t := Next(s, l);
    assert Quiet(t) <==> Quiet(s);
    hide Next, Enabled, Quiet;
  }

  lemma GateOthers(s: State, l: Label)
    requires GateOk(s) && Enabled(s, l) && !IsRegistration(l) && !IsRevocation(l)
    ensures GateOk(Next(s, l)) && (Quiet(s) ==> Quiet(Next(s, l)))
  {
    NextFollows(s, l);
    hide Next, Enabled, GateOk, Quiet, Issued;
    if l.Crash? {
      GateEmpty(Next(s, l));
    } else {
      GateFrame(s, Next(s, l));
    }
  }

  lemma GateEmpty(s: State)
    requires s.regs == [] && s.revs == [] && s.running == None
    ensures GateOk(s) && Quiet(s)
  {
  }

  /** What a step may do to the lock's reasons, its own event aside. */
  lemma LockFrame(s: State, t: State)
    requires LockOk(s) && t.log == s.log && (Quiet(s) && NoSession(s) ==> Quiet(t) && NoSession(t))
    requires (s.stored.None? ==> t.stored.None?) && (t.pairing.Activating? ==> s.pairing.Activating?)
    requires t.restoring ==> s.restoring
    ensures LockOk(t)
  {
    hide Gone, Locked, Quiet;
  }

  lemma LockRegistration(s: State, l: Label)
    requires Exclusive(s) && GateOk(s) && LockOk(s) && Enabled(s, l) && IsRegistration(l) && Disciplined(l)
    ensures LockOk(Next(s, l))
  {
    RegistrationIs(s, l);
    hide Next, Enabled;
    hide Gone, Locked, Quiet, GateOk;
    GateRegistration(s, l);
    var t := Next(s, l);
    if l.Minted? && t.log != s.log {
      LockAppend(s.log, t.log[|s.log|]);
    }
  }

  lemma LockRevocation(s: State, l: Label)
    requires Exclusive(s) && GateOk(s) && LockOk(s) && Enabled(s, l) && IsRevocation(l)
    ensures LockOk(Next(s, l))
  {
    hide Next, Enabled, Exclusive, GateOk, LockOk;
    if l.IssueDelete? {
      LockDelete(s, l.i);
    } else if l.Erased? {
      LockErased(s, l.i);
    } else {
      LockRest(s, l);
    }
  }

  lemma LockErased(s: State, i: nat)
    requires Exclusive(s) && GateOk(s) && LockOk(s) && Enabled(s, Erased(i))
    ensures LockOk(Next(s, Erased(i)))
  {
    GateRevocation(s, Erased(i));
    RevocationIs(s, Erased(i));
    hide Next, Enabled, Gone, Locked, Quiet, GateOk, Exclusive;
    LockAppend(s.log, Erase(s.revs[i].session));
  }

  lemma LockRest(s: State, l: Label)
    requires Exclusive(s) && GateOk(s) && LockOk(s) && Enabled(s, l) && IsRevocation(l) && !l.IssueDelete? && !l.Erased?
    ensures LockOk(Next(s, l))
  {
    GateRevocation(s, l);
    RevocationIs(s, l);
    hide Next, Enabled, Gone, Locked, Quiet, GateOk, LockOk, QueueRevocation, SaveFates, DropRevocations, Urls;
    LockFrame(s, Next(s, l));
  }

  lemma LockDelete(s: State, i: nat)
    requires Exclusive(s) && GateOk(s) && LockOk(s) && Enabled(s, IssueDelete(i))
    ensures LockOk(Next(s, IssueDelete(i)))
  {
    RevocationIs(s, IssueDelete(i));
    hide Next, Enabled;
    LockAppend(s.log, Delete(s.revs[i].session, s.revs[i].config.url, true));
    assert Busy(s.revs[i]);
    hide Gone, Locked;
  }

  lemma LockOthers(s: State, l: Label)
    requires Exclusive(s) && LockOk(s) && Enabled(s, l) && !IsRegistration(l) && !IsRevocation(l) && GateOk(s)
    ensures LockOk(Next(s, l))
  {
    GateOthers(s, l);
    if IsRetry(l) {
      LockRetry(s, l);
    } else if IsPairing(l) {
      LockPairing(s, l);
    } else {
      LockLaunch(s, l);
    }
  }

  lemma LockRetry(s: State, l: Label)
    requires LockOk(s) && Enabled(s, l) && IsRetry(l)
    ensures LockOk(Next(s, l))
  {
    RetryIs(s, l);
    hide Next, Enabled;
    hide Gone, Locked, LivePending, Unanswered, Urls, Marked, Aged;
    if l.RetryDelete? {
      var e := s.retry.entries[l.j];
      LockAppend(s.log, Delete(e.session, e.config.url, false));
    }
  }

  lemma LockPairing(s: State, l: Label)
    requires Exclusive(s) && LockOk(s) && Enabled(s, l) && IsPairing(l)
    ensures LockOk(Next(s, l))
  {
    PairingIs(s, l);
    hide Next, Enabled;
    hide Gone, Locked, DropRevocations, Urls, Unfinished;
    if l.PairStored? {
      LockAppend(s.log, Paired(s.sessions + 1, s.pairing.config.url));
    } else if l.PairActivated? {
      LockAppend(s.log, Started(s.sessions + 1, s.pairing.config.url, true));
    }
  }

  lemma LockLaunch(s: State, l: Label)
    requires Exclusive(s) && LockOk(s) && Enabled(s, l) && IsLaunch(l)
    ensures LockOk(Next(s, l))
  {
    hide Next, Enabled, Exclusive, LockOk;
    if l.RestoreOk? {
      LockRestore(s);
    } else if l.Crash? {
      LockCrash(s);
    } else {
      LaunchIs(s, l);
      hide Quiet;
      LockFrame(s, Next(s, l));
    }
  }

  lemma LockRestore(s: State)
    requires Exclusive(s) && LockOk(s) && Enabled(s, RestoreOk)
    ensures LockOk(Next(s, RestoreOk))
  {
    LaunchIs(s, RestoreOk);
    hide Next, Enabled, Gone, Locked;
    LockAppend(s.log, Started(s.sessions + 1, s.stored.value.url, false));
  }

  lemma LockCrash(s: State)
    requires LockOk(s)
    ensures LockOk(Next(s, Crash))
  {
    LaunchIs(s, Crash);
    hide Next, Enabled, Gone, Locked;
    LockAppend(s.log, Crashed);
  }

  /** No post is issued while the log is locked. */
  ghost predicate PostsUnlocked(log: seq<Event>) {
    forall j: nat :: j < |log| && log[j].Post? ==> !Locked(log[..j])
  }

  lemma PostsAppend(log: seq<Event>, e: Event)
    requires PostsUnlocked(log) && (e.Post? ==> !Locked(log))
    ensures PostsUnlocked(log + [e])
  {
    hide Locked;
    assert forall j: nat :: j <= |log| ==> (log + [e])[..j] == log[..j];
    assert log[..|log|] == log;
  }

  lemma PostsStep(s: State, l: Label)
    requires LockOk(s) && PostsUnlocked(s.log) && Enabled(s, l)
    ensures PostsUnlocked(Next(s, l).log)
  {
    NextFollows(s, l);
    PostIsNotQuiet(s, l);
    hide Locked, Gone, PostsUnlocked, Next, Enabled, Issued, Quiet;
    var issued := Issued(s, l);
    if issued == [] {
      assert s.log + [] == s.log;
    } else {
      assert issued == [issued[0]];
      PostsAppend(s.log, issued[0]);
    }
  }

  /** A step issues one thing at most, and a POST only when nothing forbids it. */
  lemma PostIsNotQuiet(s: State, l: Label)
    requires Enabled(s, l)
    ensures |Issued(s, l)| <= 1
    ensures Issued(s, l) != [] && Issued(s, l)[0].Post? ==> !Quiet(s)
  {
  }

  ghost predicate Locks(s: State) {
    Exclusive(s) && GateOk(s) && LockOk(s) && PostsUnlocked(s.log)
  }

  lemma LocksStep(s: State, l: Label)
    requires Locks(s) && Enabled(s, l) && Disciplined(l)
    ensures Locks(Next(s, l))
  {
    hide Exclusive, GateOk, LockOk, PostsUnlocked, Next, Enabled;
    ExclusiveStep(s, l);
    PostsStep(s, l);
    if IsRegistration(l) {
      GateRegistration(s, l);
      LockRegistration(s, l);
    } else if IsRevocation(l) {
      GateRevocation(s, l);
      LockRevocation(s, l);
    } else {
      GateOthers(s, l);
      LockOthers(s, l);
    }
  }

  lemma {:induction false} RunsStayLocked(states: seq<State>, labels: seq<Label>)
    requires Run(states, labels) && Init(states[0]) && forall l <- labels :: Disciplined(l)
    ensures Locks(Last(states))
    decreases |labels|
  {
    hide Enabled, Next, Disciplined;
    if labels != [] {
      RunPrefix(states, labels);
      RunsStayLocked(states[..|labels|], labels[..|labels| - 1]);
      hide Locks;
      LocksStep(Last(states[..|labels|]), labels[|labels| - 1]);
    }
  }

  /** No registration POST is issued between an unpair's DELETE and the storing of
    * the next pairing, unless the app went down while the connection being left
    * was still stored. */
  lemma NoPostAfterUnpair(states: seq<State>, labels: seq<Label>, i: nat, j: nat)
    requires Run(states, labels) && Init(states[0]) && forall l <- labels :: Disciplined(l)
    requires i < j < |Last(states).log|
    requires Last(states).log[i].Delete? && Last(states).log[i].byUnpair && Last(states).log[j].Post?
    ensures exists k :: i < k < j && (Last(states).log[k].Paired? || CrashedBeforeErase(Last(states).log, k))
  {
    hide Enabled, Next, Disciplined, Exclusive, GateOk, LockOk, Init, Locked;
    RunsStayLocked(states, labels);
    var log := Last(states).log;
    assert log[..j][i] == log[i];
    WhatUnlocks(log[..j], i);
    var k :| i < k < |log[..j]| && (log[..j][k].Paired? || CrashedBeforeErase(log[..j], k));
    assert log[..j][..k] == log[..k];
    assert log[k].Paired? || CrashedBeforeErase(log, k);
  }
}
