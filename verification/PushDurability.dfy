/** No unpaired host is forgotten before its revocation has had an outcome.
  *
  * Crashes are allowed anywhere, and so are failing reads, writes and erases;
  * `Careful` excludes only steps that leave an obligation without anything that
  * keeps it. That its conditions are exact is shown in `PushExactness`.
  */
module PushDurability {
  import opened Basics
  import opened PendingRevocations
  import opened PushProtocol
  import opened PushObligations
  import O = PushOrdering
  import H = PushHistory

  ghost predicate AllGuarded(s: State) {
    forall l :: l in s.left ==> Guarded(s, l)
  }

  lemma GuardedAreKept(s: State)
    requires AllGuarded(s)
    ensures AllKept(s)
  {
    hide Guarded;
  }

  /** A revocation that serves a leave serves the earlier ones of its host. */
  lemma GuardsEarlier(s: State, o: Leave, l: Leave)
    requires Guarded(s, o) && Covers(o, l)
    ensures Guarded(s, l)
  {
    if Done(s, o) {
      var p :| p in s.fate && Covers(p.leave, o);
      assert Covers(p.leave, l);
    } else {
      var e :| e in s.queue && Covers(LeaveOf(e), o);
      assert Covers(LeaveOf(e), l);
    }
  }

  // ----- what writes the queue -----

  /** After a save a leave is guarded if and only if it had an outcome, the save
    * read an entry for it, or it is of the host the save is about. */
  lemma SaveGuards(s: State, i: nat, now: int, l: Leave)
    requires Enabled(s, SaveWritten(i, now))
    requires l.url == s.revs[i].config.url ==> l.session <= s.revs[i].session
    ensures Guarded(Next(s, SaveWritten(i, now)), l)
       <==> Done(s, l) || Known(s.revs[i].phase.read, l) || l.url == s.revs[i].config.url
  {
    RevocationIs(s, SaveWritten(i, now));
    var rev, t := s.revs[i], Next(s, SaveWritten(i, now));
    var expired, capped := ExpiredLeaves(rev.phase.read, now), CappedLeaves(rev.phase.read, rev.config, now, rev.session);
    assert t.fate == s.fate + (Marked(Expired, expired) + Marked(Capped, capped));
    assert t.queue == QueueRevocation(rev.phase.read, rev.config, now, rev.session);
    hide Next, Enabled;
    FatesAdd(s, t, Marked(Expired, expired) + Marked(Capped, capped), l);
    MarkedAmong(Expired, expired, l);
    MarkedAmong(Capped, capped, l);
    hide Marked, ExpiredLeaves, CappedLeaves, QueueRevocation, Covers, Known, Among;
    SaveKnowsWhatItRead(rev.phase.read, rev.config, now, rev.session, l);
    hide Done;
    assert (exists o :: o in Marked(Expired, expired) + Marked(Capped, capped) && Covers(o.leave, l))
      <==> Among(expired, l) || Among(capped, l);
  }

  /** The session an unpair at work leaves is the last one. */
  lemma OwnIsLast(s: State, i: nat, l: Leave)
    requires Ordered(s) && i < |s.revs| && O.Busy(s.revs[i]) && l in s.left + {LeaveBy(s.revs[i])}
    ensures l.session <= s.revs[i].session
  {
    BusyIsActive(s.revs[i]);
  }

  lemma SaveKeeps(s: State, i: nat, now: int)
    requires Durable(s) && Enabled(s, SaveWritten(i, now)) && Careful(s, SaveWritten(i, now))
    ensures AllGuarded(Next(s, SaveWritten(i, now)))
  {
    var l := SaveWritten(i, now);
    RevocationIs(s, l);
    NextStores(s, l);
    var t, rev := Next(s, l), s.revs[i];
    assert Knows(s, rev.phase.read, rev.config.url);
    hide Next, Enabled, Durable, Careful, Known, Done, Guarded;
    forall o | o in t.left
      ensures Guarded(t, o)
    {
      OwnIsLast(s, i, o);
      SaveGuards(s, i, now, o);
    }
  }

  lemma ForgetKeeps(s: State, i: nat)
    requires Durable(s) && Enabled(s, ForgetWritten(i))
    ensures AllGuarded(Next(s, ForgetWritten(i)))
  {
    var l := ForgetWritten(i);
    RevocationIs(s, l);
    var t, rev := Next(s, l), s.revs[i];
    assert t.queue == DropRevocations(rev.phase.read, rev.config.url) && t.fate == s.fate && t.left == s.left;
    assert Knows(s, rev.phase.read, rev.config.url) && Done(s, LeaveBy(rev));
    hide Next, Enabled, Durable, Known;
    forall o | o in t.left
      ensures Guarded(t, o)
    {
      OwnIsLast(s, i, o);
      DropKeeps(s, rev, o);
    }
  }

  /** Dropping a host's entries from what was read loses only that host. */
  lemma DropKeeps(s: State, rev: Revocation, l: Leave)
    requires Done(s, LeaveBy(rev)) && (l.url == rev.config.url ==> l.session <= rev.session)
    requires rev.phase.ForgetWriting? && (l.url != rev.config.url && !Done(s, l) ==> Known(rev.phase.read, l))
    ensures Done(s, l) || Known(DropRevocations(rev.phase.read, rev.config.url), l)
  {
    if l.url == rev.config.url {
      var o :| o in s.fate && Covers(o.leave, LeaveBy(rev));
      assert Covers(o.leave, l);
    } else if !Done(s, l) {
      var e :| e in rev.phase.read && Covers(LeaveOf(e), l);
      assert e in DropRevocations(rev.phase.read, rev.config.url);
    }
  }

  lemma RejectedKeeps(s: State, i: nat)
    requires Durable(s) && Enabled(s, SaveRejected(i)) && Careful(s, SaveRejected(i))
    ensures AllGuarded(Next(s, SaveRejected(i)))
  {
    var l := SaveRejected(i);
    RevocationIs(s, l);
    var t, own := Next(s, l), LeaveBy(s.revs[i]);
    assert t.queue == s.queue && t.fate == s.fate && t.left == s.left + {own};
    BusyIsEarly(s, i);
    BusyIsActive(s.revs[i]);
    assert Guarded(s, own);
    hide Next, Enabled, Careful, Known, Done, Held;
    forall o | o in t.left
      ensures Guarded(s, o)
    {
      OwnIsLast(s, i, o);
      if Held(s, o) {
        HeldIsOwn(s, i, o);
      }
      if o.url == own.url {
        GuardsEarlier(s, own, o);
      }
    }
  }

  /** What the write of the retry leaves guarded. */
  lemma RetryGuards(s: State, l: Leave)
    requires Enabled(s, RetryWritten)
    ensures Guarded(Next(s, RetryWritten), l) <==> Done(s, l) || RetryKeeps(s.retry, l)
  {
    RetryIs(s, RetryWritten);
    var t := Next(s, RetryWritten);
    assert t.fate == s.fate + Marked(Expired, Aged(s.retry));
    assert t.queue == Unanswered(s.retry.entries, s.retry.verdicts);
    hide Next, Enabled;
    FatesAdd(s, t, Marked(Expired, Aged(s.retry)), l);
    MarkedAmong(Expired, Aged(s.retry), l);
  }

  /** What the retry writes back or drops for its age it has read. */
  lemma RetryHasRead(r: Retry, l: Leave)
    requires r.Retrying? && (forall e :: e in r.entries ==> e in r.raw) && RetryKeeps(r, l)
    ensures Known(r.raw, l)
  {
    if Among(Aged(r), l) {
      var o :| o in Aged(r) && Covers(o, l);
    } else {
      var e :| e in Unanswered(r.entries, r.verdicts) && Covers(LeaveOf(e), l);
      assert e in r.raw;
    }
  }

  /** So it leaves guarded what had an outcome and what it has read. */
  lemma RetryGuardsWhatItRead(s: State, l: Leave)
    requires RetryOk(s) && Enabled(s, RetryWritten)
    ensures s.retry.Retrying?
    ensures Guarded(Next(s, RetryWritten), l) <==> Done(s, l) || Known(s.retry.raw, l)
  {
    RetryIs(s, RetryWritten);
    RetryGuards(s, l);
    hide Next, Enabled, RetryKeeps, Known, Done;
    if RetryKeeps(s.retry, l) {
      RetryHasRead(s.retry, l);
    }
  }

  lemma RetryLeavesAlone(s: State)
    requires Enabled(s, RetryWritten)
    ensures var t := Next(s, RetryWritten);
      t.left == s.left && t.stored == s.stored && t.revs == s.revs && t.pairing == s.pairing
  {
    RetryIs(s, RetryWritten);
    hide Next, Enabled, Unanswered, Marked, Aged;
  }

  lemma RetryWriteKeeps(s: State)
    requires Durable(s) && Enabled(s, RetryWritten) && Careful(s, RetryWritten)
    ensures AllKept(Next(s, RetryWritten))
  {
    var t := Next(s, RetryWritten);
    RetryLeavesAlone(s);
    assert RetryOk(s);
    hide Next, Enabled, Known, Done, Guarded, RetryKeeps, Ordered;
    forall l | l in t.left
      ensures Kept(t, l)
    {
      RetryGuardsWhatItRead(s, l);
    }
  }

  // ----- pairing -----

  lemma DroppingKeeps(s: State)
    requires Durable(s) && Enabled(s, PairForgotten)
    ensures AllKept(Next(s, PairForgotten))
  {
    PairingIs(s, PairForgotten);
    var t, url := Next(s, PairForgotten), s.pairing.config.url;
    assert t.queue == DropRevocations(s.queue, url) && t.fate == s.fate && t.left == s.left;
    hide Next, Enabled, Ordered, DropRevocations;
    forall l | l in t.left
      ensures Kept(t, l)
    {
      if l.url != url && !Done(s, l) && !Held(s, l) {
        var e :| e in s.queue && Covers(LeaveOf(e), l);
        assert e in t.queue;
      }
    }
  }

  lemma PairingKeeps(s: State)
    requires Durable(s) && Enabled(s, PairStored) && Careful(s, PairStored)
    ensures AllKept(Next(s, PairStored))
  {
    PairingIs(s, PairStored);
    var t := Next(s, PairStored);
    NextFollows(s, PairStored);
    var own := Outcome(Repaired, Leave(s.pairing.config.url, s.sessions));
    assert own in t.fate;
    assert t.queue == s.queue && t.left == s.left;
    DoneGrows(s, t);
    hide Next, Enabled, Known, TurnsOk, O.Exclusive;
    forall l | l in t.left
      ensures Kept(t, l)
    {
      if l.url == s.pairing.config.url {
        assert Covers(own.leave, l);
        assert Done(t, l);
      }
    }
  }

  lemma FailingKeeps(s: State)
    requires Durable(s) && Enabled(s, PairFails) && Careful(s, PairFails)
    ensures AllKept(Next(s, PairFails))
  {
    PairingIs(s, PairFails);
    var t := Next(s, PairFails);
    assert t == s.(pairing := NotPairing);
    hide Next, Enabled, Known, Ordered;
  }

  // ----- the launch -----

  lemma CrashKeeps(s: State)
    requires Durable(s) && Careful(s, Crash)
    ensures AllKept(Next(s, Crash))
  {
    LaunchIs(s, Crash);
    var t := Next(s, Crash);
    assert t.queue == s.queue && t.fate == s.fate && t.left == s.left && t.stored == s.stored && t.revs == [];
    hide Next, Enabled, Known, Ordered;
  }

  lemma RestoreKeepsHosts(s: State)
    requires Durable(s) && Enabled(s, RestoreFails) && Careful(s, RestoreFails)
    ensures AllKept(Next(s, RestoreFails))
  {
    LaunchIs(s, RestoreFails);
    var t := Next(s, RestoreFails);
    assert t == s.(stored := None, restoring := false);
    hide Next, Enabled, Known;
  }

  /** A host that turns the session away has had its outcome. */
  lemma TurnedAwayIsDone(s: State, t: State, l: Leave)
    requires Ordered(s) && s.session.Some? && Stored(s, l) && l.session <= s.sessions && t.fate == TurnedAway(s).fate
    ensures Done(t, l)
  {
    var own := Outcome(Rejected, Leave(s.session.value.config.url, s.session.value.id));
    assert own in t.fate && Covers(own.leave, l);
  }

  lemma UnauthorizedKeepsHosts(s: State)
    requires Durable(s) && Enabled(s, Unauthorized)
    ensures AllKept(Next(s, Unauthorized))
  {
    LaunchIs(s, Unauthorized);
    var t := Next(s, Unauthorized);
    assert t == TurnedAway(s).(stored := None);
    assert s.fate <= t.fate;
    DoneGrows(s, t);
    assert forall l :: l in s.left ==> l.session <= s.sessions;
    assert !s.pairing.Storing?;
    hide Next, Enabled, Known, Done, Ordered;
    forall l | l in t.left
      ensures Kept(t, l)
    {
      if Held(s, l) {
        TurnedAwayIsDone(s, t, l);
      }
    }
  }

  // ----- everything else -----

  /** Steps that write no queue, and neither end a pairing nor take what is held. */
  lemma KeptFrame(s: State, t: State)
    requires AllKept(s) && t.left == s.left && t.queue == s.queue && s.fate <= t.fate
    requires NoErase(s) ==> NoErase(t) && t.stored == s.stored
    requires s.pairing.Storing? ==> t.pairing == s.pairing
    ensures AllKept(t)
  {
    DoneGrows(s, t);
    hide Done, Known, NoErase;
  }

  /** The steps with a lemma of their own. */
  predicate Risky(l: Label) {
    l.SaveWritten? || l.SaveRejected? || l.ForgetWritten? || l.RetryWritten? || l.PairForgotten? || l.PairStored?
    || l.PairFails? || l.Crash? || l.RestoreFails? || l.Unauthorized?
  }

  /** A pairing that is being stored stays as it is until it has been. */
  lemma StoringStays(s: State, l: Label)
    requires Enabled(s, l) && !Risky(l) && s.pairing.Storing?
    ensures Next(s, l).pairing == s.pairing
  {
    if IsPairing(l) {
      PairingIs(s, l);
      hide Next, Enabled;
    } else {
      NextFollows(s, l);
      hide Next, Enabled, Issued;
    }
  }

  lemma ErasedIsErasing(s: State, i: nat)
    requires Enabled(s, Erased(i))
    ensures !NoErase(s)
  {
    RevocationIs(s, Erased(i));
  }

  lemma RestKeeps(s: State, l: Label)
    requires Durable(s) && Enabled(s, l) && !Risky(l)
    ensures AllKept(Next(s, l))
  {
    var t := Next(s, l);
    assert AllKept(s);
    hide Next, Enabled, Durable, AllKept, Issued, NoErase;
    NextFollows(s, l);
    NextStores(s, l);
    if s.pairing.Storing? {
      StoringStays(s, l);
    }
    if l.Erased? {
      ErasedIsErasing(s, l.i);
    }
    assert s.left + {} == s.left;
    KeptFrame(s, t);
  }

  lemma KeptStep(s: State, l: Label)
    requires Durable(s) && Enabled(s, l) && Careful(s, l)
    ensures AllKept(Next(s, l))
  {
    hide Next, Enabled, Durable, Careful, AllKept, AllGuarded;
    match l
    case SaveWritten(i, now) => {
      SaveKeeps(s, i, now);
      GuardedAreKept(Next(s, l));
    }
    case SaveRejected(i) => {
      RejectedKeeps(s, i);
      GuardedAreKept(Next(s, l));
    }
    case ForgetWritten(i) => {
      ForgetKeeps(s, i);
      GuardedAreKept(Next(s, l));
    }
    case RetryWritten => RetryWriteKeeps(s);
    case PairForgotten => DroppingKeeps(s);
    case PairStored => PairingKeeps(s);
    case PairFails => FailingKeeps(s);
    case Crash => CrashKeeps(s);
    case RestoreFails => RestoreKeepsHosts(s);
    case Unauthorized => UnauthorizedKeepsHosts(s);
    case _ => RestKeeps(s, l);
  }

  // ----- unpairs at work -----

  lemma BusyFrame(s: State, t: State)
    requires BusyOk(s) && s.fate <= t.fate && s.left <= t.left && |t.revs| == |s.revs|
    requires forall i: nat :: i < |s.revs| ==> LeaveBy(t.revs[i]) == LeaveBy(s.revs[i]) && t.revs[i].config == s.revs[i].config
    requires forall i: nat :: i < |s.revs| && O.Busy(t.revs[i]) ==>
      O.Busy(s.revs[i]) && (t.stored == s.stored || LeaveBy(t.revs[i]) in t.left || Done(t, LeaveBy(t.revs[i])))
    requires forall i: nat :: i < |s.revs| && t.revs[i].erasing ==> s.revs[i].erasing || LeaveBy(t.revs[i]) in t.left
    requires forall i: nat :: i < |s.revs| && (t.revs[i].phase.Forgetting? || t.revs[i].phase.ForgetWriting?) ==>
      s.revs[i].phase.Forgetting? || s.revs[i].phase.ForgetWriting? || Done(t, LeaveBy(t.revs[i]))
    ensures BusyOk(t)
  {
    DoneGrows(s, t);
    hide Done;
  }

  /** One revocation goes on and nothing is erased. */
  lemma BusyMove(s: State, t: State, i: nat)
    requires BusyOk(s) && s.fate <= t.fate && s.left <= t.left && t.stored == s.stored
    requires i < |s.revs| && |t.revs| == |s.revs| && t.revs == s.revs[i := t.revs[i]]
    requires t.revs[i] == s.revs[i].(phase := t.revs[i].phase, erasing := t.revs[i].erasing)
    requires O.Busy(t.revs[i]) ==> O.Busy(s.revs[i])
    requires t.revs[i].erasing ==> s.revs[i].erasing || LeaveBy(s.revs[i]) in t.left
    requires t.revs[i].phase.Forgetting? || t.revs[i].phase.ForgetWriting? ==>
      s.revs[i].phase.Forgetting? || s.revs[i].phase.ForgetWriting? || Done(t, LeaveBy(s.revs[i]))
    ensures BusyOk(t)
  {
    hide BusyOk, Done, O.Busy;
    BusyFrame(s, t);
  }

  lemma BusyStep(s: State, l: Label)
    requires Durable(s) && Enabled(s, l) && O.Waits(l)
    ensures BusyOk(Next(s, l))
  {
    hide Next, Enabled, Durable, BusyOk, O.Waits;
    if l.StartUnpair? {
      BusyStart(s);
    } else if l.Erased? {
      BusyErased(s, l.i);
    } else if l.DeleteAnswered? {
      BusyAnswered(s, l.i, l.ok);
    } else if IsRevocation(l) {
      BusyRevocation(s, l);
    } else if l.PairStored? {
      BusyStored(s);
    } else if IsLaunch(l) {
      BusyLaunch(s, l);
    } else {
      BusyOthers(s, l);
    }
  }

  lemma BusyStart(s: State)
    requires Durable(s) && Enabled(s, StartUnpair)
    ensures BusyOk(Next(s, StartUnpair))
  {
    RevocationIs(s, StartUnpair);
    var t := Next(s, StartUnpair);
    assert forall i: nat :: i < |s.revs| ==> t.revs[i] == s.revs[i];
    assert s.stored == Some(s.session.value.config);
    DoneGrows(s, t);
    hide Next, Enabled, Ordered, AllKept, CopiesOk, RetryOk, Done;
  }

  lemma BusyErased(s: State, i: nat)
    requires Durable(s) && Enabled(s, Erased(i))
    ensures BusyOk(Next(s, Erased(i)))
  {
    RevocationIs(s, Erased(i));
    var t := Next(s, Erased(i));
    hide Next, Enabled, AllKept, CopiesOk, RetryOk, Done, O.Exclusive, H.Bounded;
    forall j: nat | j < |s.revs| && O.Busy(s.revs[j])
      ensures LeaveBy(s.revs[j]) in t.left
    {
      BusyIsActive(s.revs[j]);
      assert Active(s.revs[i]);
      assert LeaveBy(s.revs[j]) == LeaveBy(s.revs[i]);
    }
    hide Ordered, BusyOk;
    BusyFrame(s, t);
  }

  lemma BusyAnswered(s: State, i: nat, ok: bool)
    requires Durable(s) && Enabled(s, DeleteAnswered(i, ok))
    ensures BusyOk(Next(s, DeleteAnswered(i, ok)))
  {
    var l := DeleteAnswered(i, ok);
    RevocationIs(s, l);
    var t := Next(s, l);
    if ok {
      assert Outcome(Acknowledged, LeaveBy(s.revs[i])) in t.fate;
      assert Done(t, LeaveBy(s.revs[i]));
    }
    hide Next, Enabled, Ordered, AllKept, CopiesOk, RetryOk, Done, BusyOk;
    BusyMove(s, t, i);
  }

  /** Only an acknowledged DELETE starts the forgetting of an entry. */
  lemma ForgettingBefore(s: State, l: Label)
    requires Enabled(s, l) && IsRevocation(l) && !l.StartUnpair? && !l.DeleteAnswered?
    ensures l.i < |s.revs| && |Next(s, l).revs| == |s.revs|
    ensures var phase := Next(s, l).revs[l.i].phase;
      phase.Forgetting? || phase.ForgetWriting? ==> s.revs[l.i].phase.Forgetting? || s.revs[l.i].phase.ForgetWriting?
  {
    RevocationIs(s, l);
    hide Next, Enabled, QueueRevocation, SaveFates, DropRevocations, Urls;
  }

  lemma BusyRevocation(s: State, l: Label)
    requires Durable(s) && Enabled(s, l) && IsRevocation(l) && !l.StartUnpair? && !l.Erased? && !l.DeleteAnswered?
    ensures BusyOk(Next(s, l))
  {
    OneMoves(s, l);
    ActiveBefore(s, l);
    ForgettingBefore(s, l);
    RevocationKeeps(s, l);
    assert BusyOk(s);
    hide Next, Enabled, Durable, Done, BusyOk, O.Busy;
    BusyMove(s, Next(s, l), l.i);
  }

  lemma BusyStored(s: State)
    requires Durable(s) && Enabled(s, PairStored)
    ensures BusyOk(Next(s, PairStored))
  {
    PairingIs(s, PairStored);
    hide Next, Enabled, AllKept, CopiesOk, RetryOk, Done, BusyOk, TurnsOk, H.Bounded, DropsOk;
    BusyFrame(s, Next(s, PairStored));
  }

  lemma BusyLaunch(s: State, l: Label)
    requires Durable(s) && Enabled(s, l) && IsLaunch(l)
    ensures BusyOk(Next(s, l))
  {
    LaunchIs(s, l);
    var t := Next(s, l);
    hide Next, Enabled, AllKept, CopiesOk, RetryOk, Done, H.Bounded, DropsOk;
    if !l.Crash? {
      forall i: nat | l.Unauthorized? && i < |s.revs| && O.Busy(s.revs[i])
        ensures Done(t, LeaveBy(s.revs[i]))
      {
        BusyIsTurnedAway(s, t, i);
      }
      hide BusyOk, TurnsOk;
      BusyFrame(s, t);
    }
  }

  lemma BusyIsTurnedAway(s: State, t: State, i: nat)
    requires Ordered(s) && s.session.Some? && i < |s.revs| && O.Busy(s.revs[i]) && t.fate == TurnedAway(s).fate
    ensures Done(t, LeaveBy(s.revs[i]))
  {
    BusyIsActive(s.revs[i]);
    TurnedAwayIsDone(s, t, LeaveBy(s.revs[i]));
  }

  lemma BusyOthers(s: State, l: Label)
    requires Durable(s) && Enabled(s, l) && !IsRevocation(l) && !IsLaunch(l) && !l.PairStored?
    ensures BusyOk(Next(s, l))
  {
    OthersTouch(s, l);
    NextStores(s, l);
    assert BusyOk(s);
    hide Next, Enabled, Durable, BusyOk, Done, NoErase, O.Busy;
    BusyFrame(s, Next(s, l));
  }

  // ----- copies of the queue -----

  lemma KnowsFrame(s: State, t: State, read: seq<Entry>, url: Url)
    requires Knows(s, read, url) && s.fate <= t.fate && forall l :: l in t.left ==> l in s.left || l.url == url
    ensures Knows(t, read, url)
  {
    DoneGrows(s, t);
    hide Done, Known;
  }

  lemma CopiesFrame(s: State, t: State)
    requires CopiesOk(s) && s.fate <= t.fate && |t.revs| == |s.revs|
    requires forall i: nat, l :: i < |s.revs| && Copying(t.revs[i].phase) && l in t.left ==>
      l in s.left || l.url == t.revs[i].config.url
    requires forall i: nat :: i < |s.revs| && (t.revs[i].phase.SaveWriting? || t.revs[i].phase.ForgetWriting?) ==>
      || (t.revs[i].phase == s.revs[i].phase && t.revs[i].config == s.revs[i].config)
      || (if Copying(t.revs[i].phase) then Knows(t, t.revs[i].phase.read, t.revs[i].config.url)
          else t.revs[i].phase.read == [])
    requires t.pairing.PairWriting? ==> t.pairing.read == t.queue
    ensures CopiesOk(t)
  {
    hide Knows;
    forall i: nat | i < |t.revs| && Copying(t.revs[i].phase)
      ensures Knows(t, t.revs[i].phase.read, t.revs[i].config.url)
    {
      if t.revs[i].phase == s.revs[i].phase && t.revs[i].config == s.revs[i].config {
        KnowsFrame(s, t, s.revs[i].phase.read, s.revs[i].config.url);
      }
    }
  }

  /** The queue itself knows every other host while an unpair is at work. */
  lemma QueueKnows(s: State, i: nat)
    requires Ordered(s) && AllKept(s) && i < |s.revs| && O.Busy(s.revs[i])
    ensures Knows(s, s.queue, s.revs[i].config.url)
  {
    BusyIsEarly(s, i);
    BusyIsActive(s.revs[i]);
    hide Ordered, Known, Done, Held;
    forall l | l in s.left && Held(s, l)
      ensures l.url == s.revs[i].config.url
    {
      HeldIsOwn(s, i, l);
    }
  }

  lemma CopiesStep(s: State, l: Label)
    requires Durable(s) && Enabled(s, l) && O.Waits(l)
    ensures CopiesOk(Next(s, l))
  {
    hide Next, Enabled, Durable, CopiesOk, O.Waits;
    if l.StartUnpair? {
      CopiesStart(s);
    } else if l.SaveWritten? || l.SaveRejected? {
      CopiesLeave(s, l);
    } else if l.SaveRead? || l.SaveReadFails? || l.ForgetRead? {
      CopiesRead(s, l);
    } else if IsRevocation(l) {
      CopiesRevocation(s, l);
    } else if l.Crash? {
      LaunchIs(s, l);
      CopiesNone(Next(s, l));
    } else if IsPairing(l) {
      CopiesPairing(s, l);
    } else {
      CopiesOthers(s, l);
    }
  }

  lemma CopiesNone(s: State)
    requires s.revs == [] && s.pairing.NotPairing?
    ensures CopiesOk(s)
  {
  }

  lemma CopiesStart(s: State)
    requires Durable(s) && Enabled(s, StartUnpair)
    ensures CopiesOk(Next(s, StartUnpair))
  {
    RevocationIs(s, StartUnpair);
    var t := Next(s, StartUnpair);
    assert forall i: nat :: i < |s.revs| ==> t.revs[i] == s.revs[i];
    hide Next, Enabled, Ordered, AllKept, BusyOk, RetryOk, Knows;
    forall i: nat | i < |s.revs| && Copying(s.revs[i].phase)
      ensures Knows(t, s.revs[i].phase.read, s.revs[i].config.url)
    {
      KnowsFrame(s, t, s.revs[i].phase.read, s.revs[i].config.url);
    }
  }

  /** The copies the others hold are of a queue about the same host. */
  lemma CopiesLeave(s: State, l: Label)
    requires Durable(s) && Enabled(s, l) && (l.SaveWritten? || l.SaveRejected?)
    ensures CopiesOk(Next(s, l))
  {
    assert CopiesOk(s) && O.Exclusive(s);
    CopiesAreOfOneHost(s, l);
    hide Next, Enabled, Durable, CopiesOk, Knows, O.Exclusive, O.Busy;
    SavingIsBusy(s, l);
    RevocationKeeps(s, l);
    BusyIsEarly(s, l.i);
    CopiesFrame(s, Next(s, l));
  }

  lemma CopiesAreOfOneHost(s: State, l: Label)
    requires TurnsOk(s) && Enabled(s, l) && (l.SaveWritten? || l.SaveRejected?)
    ensures l.i < |s.revs| && |Next(s, l).revs| == |s.revs|
    ensures forall j: nat :: j < |s.revs| && (Next(s, l).revs[j].phase.SaveWriting? || Next(s, l).revs[j].phase.ForgetWriting?) ==>
      Next(s, l).revs[j] == s.revs[j] && s.revs[j].config == s.revs[l.i].config
  {
    hide Next, Enabled, TurnsOk;
    SavingIsBusy(s, l);
    OneMoves(s, l);
    LeavingReadsNothing(s, l);
    var t := Next(s, l);
    forall j: nat | j < |s.revs| && (t.revs[j].phase.SaveWriting? || t.revs[j].phase.ForgetWriting?)
      ensures t.revs[j] == s.revs[j] && s.revs[j].config == s.revs[l.i].config
    {
      BusyHaveOneHost(s, l.i, j);
    }
  }

  lemma LeavingReadsNothing(s: State, l: Label)
    requires Enabled(s, l) && (l.SaveWritten? || l.SaveRejected?)
    ensures l.i < |Next(s, l).revs| && Next(s, l).revs[l.i].phase.AtGate?
  {
    RevocationIs(s, l);
    hide Next, Enabled, QueueRevocation, SaveFates;
  }

  lemma SavingIsBusy(s: State, l: Label)
    requires Enabled(s, l) && (l.SaveWritten? || l.SaveRejected?)
    ensures l.i < |s.revs| && O.Busy(s.revs[l.i])
  {
    RevocationIs(s, l);
  }

  lemma BusyHaveOneHost(s: State, i: nat, j: nat)
    requires TurnsOk(s) && i < |s.revs| && j < |s.revs| && O.Busy(s.revs[i]) && O.Busy(s.revs[j])
    ensures s.revs[i].config == s.revs[j].config
  {
    BusyIsActive(s.revs[i]);
    BusyIsActive(s.revs[j]);
  }

  /** What is read is the queue, or nothing. */
  lemma ReadingMoves(s: State, l: Label)
    requires Enabled(s, l) && (l.SaveRead? || l.SaveReadFails? || l.ForgetRead?)
    ensures l.i < |s.revs| && O.Busy(s.revs[l.i]) && l.i < |Next(s, l).revs|
    ensures var phase := Next(s, l).revs[l.i].phase;
      && Next(s, l) == Move(s, l.i, phase)
      && (Copying(phase) ==> phase.read == s.queue) && (phase.SaveWriting? && phase.failed ==> phase.read == [])
  {
    RevocationIs(s, l);
    hide Next, Enabled, Urls;
  }

  lemma CopiesRead(s: State, l: Label)
    requires Durable(s) && Enabled(s, l) && (l.SaveRead? || l.SaveReadFails? || l.ForgetRead?)
    ensures CopiesOk(Next(s, l))
  {
    var t, i := Next(s, l), l.i;
    ReadingMoves(s, l);
    QueueKnows(s, i);
    BusyIsEarly(s, i);
    assert CopiesOk(s);
    hide Next, Enabled, Durable, CopiesOk;
    KnowsFrame(s, t, s.queue, s.revs[i].config.url);
    hide Knows;
    CopiesFrame(s, t);
  }

  lemma CopiesRevocation(s: State, l: Label)
    requires Durable(s) && Enabled(s, l) && IsRevocation(l) && !l.StartUnpair? && !l.SaveWritten? && !l.SaveRejected?
    requires !l.SaveRead? && !l.SaveReadFails? && !l.ForgetRead?
    ensures CopiesOk(Next(s, l))
  {
    OneMoves(s, l);
    RevocationKeeps(s, l);
    CopiedBefore(s, l);
    assert CopiesOk(s) && (s.pairing.PairWriting? ==> s.pairing.read == s.queue);
    hide Next, Enabled, Durable, CopiesOk, Knows;
    CopiesFrame(s, Next(s, l));
  }

  /** Steps that read nothing bring no copy, and a forgetting writes while no pairing reads. */
  lemma CopiedBefore(s: State, l: Label)
    requires O.Exclusive(s) && Enabled(s, l) && IsRevocation(l) && !l.StartUnpair?
    requires !l.SaveRead? && !l.SaveReadFails? && !l.ForgetRead?
    ensures l.i < |s.revs| && l.i < |Next(s, l).revs|
    ensures var phase := Next(s, l).revs[l.i].phase;
      phase.SaveWriting? || phase.ForgetWriting? ==> phase == s.revs[l.i].phase
    ensures l.ForgetWritten? ==> !s.pairing.PairWriting?
  {
    RevocationIs(s, l);
    if l.ForgetWritten? {
      BusyIsEarly(s, l.i);
    }
    hide Next, Enabled, QueueRevocation, SaveFates, DropRevocations, Urls, O.Exclusive;
  }

  lemma CopiesPairing(s: State, l: Label)
    requires Durable(s) && Enabled(s, l) && IsPairing(l)
    ensures CopiesOk(Next(s, l))
  {
    OthersTouch(s, l);
    if Next(s, l).pairing.PairWriting? {
      PairingReadsTheQueue(s, l);
    }
    assert CopiesOk(s);
    hide Next, Enabled, Durable, CopiesOk, Knows;
    CopiesFrame(s, Next(s, l));
  }

  lemma PairingReadsTheQueue(s: State, l: Label)
    requires Enabled(s, l) && IsPairing(l) && Next(s, l).pairing.PairWriting?
    ensures Next(s, l).pairing.read == Next(s, l).queue
  {
    PairingIs(s, l);
    hide Next, Enabled, DropRevocations, Urls, Unfinished;
  }

  lemma CopiesOthers(s: State, l: Label)
    requires Durable(s) && Enabled(s, l) && !IsRevocation(l) && !IsPairing(l) && !l.Crash?
    ensures CopiesOk(Next(s, l))
  {
    var t := Next(s, l);
    assert CopiesOk(s) && (s.pairing.PairWriting? ==> s.pairing.read == s.queue);
    OthersTouch(s, l);
    PairingKeepsItsCopy(s, l);
    hide Next, Enabled, Durable, CopiesOk, Knows;
    CopiesFrame(s, t);
  }

  lemma PairingKeepsItsCopy(s: State, l: Label)
    requires O.Exclusive(s) && Enabled(s, l) && !IsRevocation(l) && !IsPairing(l) && !l.Crash?
    ensures Next(s, l).pairing == s.pairing && (s.pairing.PairWriting? ==> Next(s, l).queue == s.queue)
  {
    NextFollows(s, l);
    if l.RetryWritten? {
      RetryIs(s, l);
    }
    hide Next, Enabled, Issued, O.Busy;
  }

  // ----- the retry -----

  /** Before the first answer everything read is still with the retry. */
  lemma RetryHasAll(pending: seq<Entry>, now: int, l: Leave)
    requires Known(pending, l)
    ensures RetryKeeps(Retrying(pending, LivePending(pending, now), {}, map[]), l)
  {
    var r := Retrying(pending, LivePending(pending, now), {}, map[]);
    var e :| e in pending && Covers(LeaveOf(e), l);
    if IsLive(e, now) {
      var j: nat :| j < |r.entries| && r.entries[j] == e;
      assert Unsettled(r.verdicts, j);
      assert e in Unanswered(r.entries, r.verdicts);
    } else {
      assert LeaveOf(e) in Aged(r);
    }
  }

  /** An answer settles its own entry and no other. */
  lemma AnswerKeeps(r: Retry, j: nat, verdict: Verdict, l: Leave)
    requires r.Retrying? && j < |r.entries| && j !in r.verdicts && RetryKeeps(r, l)
    ensures RetryKeeps(r.(verdicts := r.verdicts[j := verdict]), l) || (!verdict.NotNow? && Covers(LeaveOf(r.entries[j]), l))
  {
    var after := r.verdicts[j := verdict];
    if !Among(Aged(r), l) {
      var e :| e in Unanswered(r.entries, r.verdicts) && Covers(LeaveOf(e), l);
      var k: nat :| k < |r.entries| && r.entries[k] == e && Unsettled(r.verdicts, k);
      if k != j || verdict.NotNow? {
        assert Unsettled(after, k);
        assert e in Unanswered(r.entries, after);
      }
    }
  }

  /** What the retry has read stays true of steps that leave it alone, if each host
    * that is no longer held had an outcome or an entry, or has been left since. */
  lemma RetryFrame(s: State, t: State)
    requires RetryOk(s) && s.retry.Retrying? && s.fate <= t.fate && s.left <= t.left
    requires t.retry.Retrying? && t.retry.raw == s.retry.raw && t.retry.entries == s.retry.entries
    requires t.launched == s.launched && (t.restoring ==> s.restoring && t.queue == s.queue)
    requires forall l :: Done(s, l) || RetryKeeps(s.retry, l) ==> Done(t, l) || RetryKeeps(t.retry, l)
    requires forall l :: l in t.left ==> l in s.left || LeftSince(t, l.url)
    requires forall l :: l in s.left && Held(s, l) ==>
      Held(t, l) || Done(t, l) || Known(t.retry.raw, l) || LeftSince(t, l.url)
    ensures RetryOk(t)
  {
    DoneGrows(s, t);
    assert forall url :: LeftSince(s, url) ==> LeftSince(t, url);
    hide Done, RetryKeeps, Known, LeftSince, Held;
  }

  lemma RetryStep(s: State, l: Label)
    requires Durable(s) && Enabled(s, l) && Careful(s, l)
    ensures RetryOk(Next(s, l))
  {
    hide Next, Enabled, Durable, RetryOk, Careful;
    if Next(s, l).retry.Retrying? {
      if l.RetryRead? {
        RetryReadStep(s, l.now);
      } else if l.RetryAnswered? {
        RetryAnsweredStep(s, l.j, l.verdict);
      } else if IsRetry(l) {
        RetryOwnRest(s, l);
      } else if IsRevocation(l) {
        RetryRevocation(s, l);
      } else {
        RetryOthers(s, l);
      }
    } else {
      NotRetrying(Next(s, l));
    }
  }

  lemma NotRetrying(s: State)
    requires !s.retry.Retrying?
    ensures RetryOk(s)
  {
  }

  lemma RetryReadStep(s: State, now: int)
    requires Durable(s) && Enabled(s, RetryRead(now)) && Next(s, RetryRead(now)).retry.Retrying?
    ensures RetryOk(Next(s, RetryRead(now)))
  {
    RetryIs(s, RetryRead(now));
    var t := Next(s, RetryRead(now));
    assert t == s.(retry := Retrying(s.queue, LivePending(s.queue, now), {}, map[]));
    assert !s.pairing.Storing? && AllKept(s);
    hide Next, Enabled, Durable, Known, Done, RetryKeeps, NoErase;
    forall l | Known(s.queue, l)
      ensures RetryKeeps(t.retry, l)
    {
      RetryHasAll(s.queue, now, l);
    }
    assert forall l :: Done(t, l) <==> Done(s, l) by {
      DoneGrows(s, t);
      DoneGrows(t, s);
    }
  }

  lemma RetryAnsweredStep(s: State, j: nat, verdict: Verdict)
    requires Durable(s) && Enabled(s, RetryAnswered(j, verdict))
    ensures RetryOk(Next(s, RetryAnswered(j, verdict)))
  {
    var l := RetryAnswered(j, verdict);
    RetryIs(s, l);
    var t := Next(s, l);
    NextFollows(s, l);
    NextStores(s, l);
    var leave := LeaveOf(s.retry.entries[j]);
    assert t.retry == s.retry.(verdicts := s.retry.verdicts[j := verdict]);
    assert !verdict.NotNow? ==> Outcome(Acknowledged, leave) in t.fate || Outcome(Rejected, leave) in t.fate;
    assert RetryOk(s) && s.left + {} == s.left && t.revs == s.revs;
    hide Next, Enabled, Durable, RetryKeeps, Known, RetryOk, Issued, LeftSince;
    DoneGrows(s, t);
    forall o | RetryKeeps(s.retry, o)
      ensures Done(t, o) || RetryKeeps(t.retry, o)
    {
      AnswerKeeps(s.retry, j, verdict, o);
    }
    hide Done;
    RetryFrame(s, t);
  }

  lemma RetryOwnRest(s: State, l: Label)
    requires Durable(s) && Enabled(s, l) && (l.RetryDelete? || l.RetryWritten? || l.RetryFails?)
    requires Next(s, l).retry.Retrying?
    ensures RetryOk(Next(s, l))
  {
    RetryIs(s, l);
    var t := Next(s, l);
    assert t == s.(retry := s.retry.(sent := t.retry.sent), log := t.log);
    assert RetryOk(s);
    hide Next, Enabled, Durable, Known, Done, LeftSince, RetryOk, Unanswered;
    assert forall o :: RetryKeeps(t.retry, o) <==> RetryKeeps(s.retry, o);
    hide RetryKeeps;
    DoneGrows(s, t);
    RetryFrame(s, t);
  }

  /** Whoever is held when an unpair issues its erase has been left since. */
  lemma LeavingIsSince(s: State, t: State, i: nat, url: Url)
    requires Ordered(s) && i < |s.revs| && O.Busy(s.revs[i]) && t.launched == s.launched
    requires LeaveBy(s.revs[i]) in t.left && url == s.revs[i].config.url
    ensures LeftSince(t, url)
  {
    BusyIsActive(s.revs[i]);
    assert LeaveBy(s.revs[i]).url == url;
  }

  lemma RetryRevocation(s: State, l: Label)
    requires Durable(s) && Enabled(s, l) && IsRevocation(l) && Next(s, l).retry.Retrying?
    ensures RetryOk(Next(s, l))
  {
    var t := Next(s, l);
    NextFollows(s, l);
    NextStores(s, l);
    RevocationLeavesRetry(s, l);
    assert RetryOk(s) && Ordered(s);
    hide Next, Enabled, Durable, RetryOk, Ordered, Known, RetryKeeps, Done, Issued, LeftSince, NoErase;
    if l.SaveWritten? || l.SaveRejected? {
      SavingIsBusy(s, l);
      BusyIsActive(s.revs[l.i]);
      LeavingIsSince(s, t, l.i, s.revs[l.i].config.url);
      forall o | o in s.left && Held(s, o)
        ensures LeftSince(t, o.url)
      {
        OrderedTurns(s);
        HeldIsOwn(s, l.i, o);
      }
    } else if l.Erased? {
      ErasedIsErasing(s, l.i);
    }
    DoneGrows(s, t);
    RetryFrame(s, t);
  }

  lemma OrderedTurns(s: State)
    requires Ordered(s)
    ensures TurnsOk(s)
  {
  }

  lemma RevocationLeavesRetry(s: State, l: Label)
    requires O.Exclusive(s) && Enabled(s, l) && IsRevocation(l)
    ensures var t := Next(s, l); t.retry == s.retry && t.launched == s.launched && !t.restoring
  {
    RevocationIs(s, l);
    hide Next, Enabled, QueueRevocation, SaveFates, DropRevocations, Urls;
  }

  /** What the launch and the pairing do to a retry at work: nothing but to go on. */
  ghost predicate LeavesRetry(s: State, l: Label, t: State) {
    && t.retry == s.retry && t.launched == s.launched && (t.restoring ==> s.restoring)
    && !l.PairStored? && !l.PairForgotten? && !l.Crash?
    && (l.RestoreFails? ==> s.restoring)
    && (l.Unauthorized? ==> s.session.Some? && t.fate == TurnedAway(s).fate)
  }

  lemma LaunchLeavesRetry(s: State, l: Label)
    requires Enabled(s, l) && IsLaunch(l) && Next(s, l).retry.Retrying?
    ensures LeavesRetry(s, l, Next(s, l))
  {
    LaunchIs(s, l);
    hide Next, Enabled;
  }

  lemma PairingLeavesRetry(s: State, l: Label)
    requires O.Exclusive(s) && Enabled(s, l) && IsPairing(l) && Next(s, l).retry.Retrying?
    ensures LeavesRetry(s, l, Next(s, l))
  {
    PairingIs(s, l);
    hide Next, Enabled, DropRevocations, Urls, Unfinished, O.Busy;
  }

  lemma OthersLeaveRetry(s: State, l: Label)
    requires O.Exclusive(s) && Enabled(s, l) && !IsRevocation(l) && !IsRetry(l) && Next(s, l).retry.Retrying?
    ensures LeavesRetry(s, l, Next(s, l))
  {
    hide Next, Enabled, O.Exclusive;
    if IsLaunch(l) {
      LaunchLeavesRetry(s, l);
    } else if IsPairing(l) {
      PairingLeavesRetry(s, l);
    } else {
      NextFollows(s, l);
      hide Issued;
    }
  }

  /** Who is held stays held, or has had an outcome, or is with the retry. */
  lemma HeldStays(s: State, l: Label, t: State, o: Leave)
    requires Durable(s) && Careful(s, l) && LeavesRetry(s, l, t) && s.retry.Retrying? && o in s.left && Held(s, o)
    requires (t.stored == s.stored && (NoErase(s) ==> NoErase(t))) || l.RestoreFails? || l.Unauthorized?
    ensures Held(t, o) || Done(s, o) || Done(t, o) || Known(t.retry.raw, o)
  {
    if l.Unauthorized? {
      hide Known, NoErase, Done;
      TurnedAwayIsDone(s, t, o);
    } else if l.RestoreFails? {
      hide Known, NoErase, Done, TurnsOk, O.Exclusive, H.Bounded, RetryKeeps;
      assert Guarded(s, o);
    }
  }

  lemma QueueUntouched(s: State, l: Label)
    requires Enabled(s, l) && !IsRevocation(l) && !IsRetry(l) && LeavesRetry(s, l, Next(s, l))
    ensures var t := Next(s, l);
      t.queue == s.queue && ((t.stored == s.stored && (NoErase(s) ==> NoErase(t))) || l.RestoreFails? || l.Unauthorized?)
  {
    NextFollows(s, l);
    NextStores(s, l);
    hide Next, Enabled, Issued, NoErase;
  }

  lemma RetryOthers(s: State, l: Label)
    requires Durable(s) && Enabled(s, l) && Careful(s, l) && !IsRevocation(l) && !IsRetry(l) && Next(s, l).retry.Retrying?
    ensures RetryOk(Next(s, l))
  {
    var t := Next(s, l);
    OthersTouch(s, l);
    OthersLeaveRetry(s, l);
    QueueUntouched(s, l);
    assert RetryOk(s);
    hide Next, Enabled, Known, RetryKeeps, Done, LeftSince, NoErase, RetryOk, Durable, Careful;
    DoneGrows(s, t);
    forall o | o in s.left && Held(s, o)
      ensures Held(t, o) || Done(t, o) || Known(t.retry.raw, o)
    {
      HeldStays(s, l, t, o);
    }
    hide Held;
    RetryFrame(s, t);
  }

  // ----- every careful run -----

  lemma DurableStep(s: State, l: Label)
    requires Durable(s) && Enabled(s, l) && Careful(s, l)
    ensures Durable(Next(s, l))
  {
    assert O.Waits(l) && Ordered(s);
    hide Next, Enabled, Careful, O.Waits, Ordered, AllKept, BusyOk, CopiesOk, RetryOk;
    OrderedStep(s, l);
    KeptStep(s, l);
    BusyStep(s, l);
    CopiesStep(s, l);
    RetryStep(s, l);
  }

  ghost predicate CarefulRun(states: seq<State>, labels: seq<Label>)
    requires |states| == |labels| + 1
  {
    forall i :: 0 <= i < |labels| ==> Careful(states[i], labels[i])
  }

  lemma {:induction false} RunsStayDurable(states: seq<State>, labels: seq<Label>, n: nat)
    requires Run(states, labels) && Init(states[0]) && n < |states|
    requires forall i :: 0 <= i < n ==> Careful(states[i], labels[i])
    ensures Durable(states[n])
  {
    hide Enabled, Next, Careful;
    if n == 0 {
      InitDurable(states[0]);
    } else {
      RunsStayDurable(states, labels, n - 1);
      hide Durable;
      DurableStep(states[n - 1], labels[n - 1]);
    }
  }

  /** At every moment of every careful run, crashes included, a host that an unpair
    * has left is in the queue, or its revocation has had an outcome, or it is still
    * the one stored, or its pairing is being stored; and while an unpair is under
    * way its connection is still stored, or it is queued or has had an outcome. */
  lemma UnpairedHostsAreNotForgotten(states: seq<State>, labels: seq<Label>)
    requires Run(states, labels) && Init(states[0]) && CarefulRun(states, labels)
    ensures var s := Last(states);
      && (forall l :: l in s.left ==> Known(s.queue, l) || Done(s, l) || Held(s, l) || BeingPaired(s, l))
      && (forall i: nat :: i < |s.revs| && !s.revs[i].phase.Ended? ==>
            var l := LeaveBy(s.revs[i]);
            s.stored == Some(s.revs[i].config) || Known(s.queue, l) || Done(s, l))
  {
    RunsStayDurable(states, labels, |labels|);
    hide Run, Init, CarefulRun, Known, Done, BeingPaired, Ordered, CopiesOk, RetryOk, NoErase;
    var s := Last(states);
    forall i: nat | i < |s.revs| && !s.revs[i].phase.Ended? && s.stored != Some(s.revs[i].config)
      ensures Known(s.queue, LeaveBy(s.revs[i])) || Done(s, LeaveBy(s.revs[i]))
    {
      BusyIsKept(s, i);
    }
  }

  lemma BusyIsKept(s: State, i: nat)
    requires Durable(s) && i < |s.revs| && O.Busy(s.revs[i]) && s.stored != Some(s.revs[i].config)
    ensures Guarded(s, LeaveBy(s.revs[i]))
  {
    BusyIsEarly(s, i);
    BusyIsActive(s.revs[i]);
    hide Done, Known, RetryOk, CopiesOk;
  }
}
