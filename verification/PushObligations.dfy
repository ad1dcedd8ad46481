/** What the app owes the hosts it has left, and what keeps it from forgetting.
  *
  * An obligation is a session that an unpair has left, from the moment its save
  * has settled, and for ever: a crash does not end it. It is kept while the queue
  * holds an entry for that host of that session or a later one, once it has had
  * an outcome, while the connection stored is still one to that host, and while
  * that host is being paired.
  */
module PushObligations {
  import opened Basics
  import opened PendingRevocations
  import opened PushProtocol
  import O = PushOrdering
  import H = PushHistory

  ghost predicate Done(s: State, l: Leave) {
    exists o :: o in s.fate && Covers(o.leave, l)
  }

  ghost predicate Guarded(s: State, l: Leave) {
    Done(s, l) || Known(s.queue, l)
  }

  /** The stored connection is to its host. */
  predicate Stored(s: State, l: Leave) {
    s.stored.Some? && s.stored.value.url == l.url
  }

  /** And nothing is about to erase it: the next launch will find it. */
  predicate Held(s: State, l: Leave) {
    Stored(s, l) && NoErase(s)
  }

  /** Its entry has been dropped for a pairing that is not stored yet. */
  ghost predicate BeingPaired(s: State, l: Leave) {
    s.pairing.Storing? && s.pairing.dropped && s.pairing.config.url == l.url
  }

  ghost predicate Kept(s: State, l: Leave) {
    Guarded(s, l) || Held(s, l) || BeingPaired(s, l)
  }

  /** Nobody that was left is forgotten. */
  ghost predicate AllKept(s: State) {
    forall l :: l in s.left ==> Kept(s, l)
  }

  /** `read` has an entry for every obligation to another host without an outcome. */
  ghost predicate Knows(s: State, read: seq<Entry>, url: Url) {
    forall l :: l in s.left && l.url != url && !Done(s, l) ==> Known(read, l)
  }

  /** A session with this host has been left since the launch. */
  ghost predicate LeftSince(s: State, url: Url) {
    exists o :: o in s.left && o.url == url && s.launched < o.session
  }

  /** Every host left since the launch has had an outcome, was in the queue when the
    * retry read it, or is the one stored. */
  ghost predicate RetryLosesNobody(s: State)
    requires s.retry.Retrying?
  {
    forall l :: l in s.left && LeftSince(s, l.url) ==> Done(s, l) || Known(s.retry.raw, l) || Held(s, l)
  }

  /** The steps that may lose a host, each with the condition under which it does
    * not: the write of an unpair whose read failed, and an unpair whose write
    * fails; the write of the retry; a pairing that does not get past the dropping
    * of its host's entry; and what replaces or erases the connection to a host that
    * was left, stored still because its erase failed or did not take place. */
  ghost predicate Careful(s: State, l: Label) {
    match l
    case SettleBoundExpires => false
    case SaveWritten(i, _) =>
      i < |s.revs| && s.revs[i].phase.SaveWriting? && s.revs[i].phase.failed ==> Knows(s, [], s.revs[i].config.url)
    case SaveRejected(i) => i < |s.revs| ==> Guarded(s, LeaveBy(s.revs[i]))
    case RetryWritten => s.retry.Retrying? ==> RetryLosesNobody(s)
    case Crash => forall l :: l in s.left && BeingPaired(s, l) ==> Done(s, l) || Stored(s, l)
    case PairFails => forall l :: l in s.left && BeingPaired(s, l) ==> Done(s, l) || Held(s, l)
    case PairStored =>
      s.pairing.Storing? ==>
        forall l :: l in s.left && Stored(s, l) && l.url != s.pairing.config.url ==> Guarded(s, l)
    case RestoreFails => forall l :: l in s.left && Stored(s, l) ==> Guarded(s, l)
    case _ => true
  }

  // ----- the invariant -----

  ghost predicate Active(r: Revocation) {
    O.Busy(r) || r.erasing
  }

  ghost predicate StillStored(s: State, config: Config) {
    s.stored == Some(config) && NoErase(s)
  }

  /** Unfinished revocations are all of the session left last, and only its
    * connection can still be stored. */
  ghost predicate TurnsOk(s: State) {
    && (forall i: nat :: i < |s.revs| && Active(s.revs[i]) ==>
          s.revs[i].session == s.sessions && s.launched < s.sessions
          && (s.stored.Some? ==> s.stored.value == s.revs[i].config))
    && (forall i: nat, j: nat :: i < |s.revs| && j < |s.revs| && Active(s.revs[i]) && Active(s.revs[j]) ==>
          s.revs[i].config == s.revs[j].config)
    && (s.session.Some? ==> s.launched < s.sessions && StillStored(s, s.session.value.config))
    && (s.session.Some? ==>
          forall i: nat :: i < |s.revs| && Active(s.revs[i]) ==> s.revs[i].config == s.session.value.config)
    && (s.pairing.Activating? ==> StillStored(s, s.pairing.config))
  }

  /** An unpair at work has left, unless its connection is still stored. */
  ghost predicate BusyOk(s: State) {
    && (forall i: nat :: i < |s.revs| && O.Busy(s.revs[i]) ==>
          s.stored == Some(s.revs[i].config) || LeaveBy(s.revs[i]) in s.left || Done(s, LeaveBy(s.revs[i])))
    && (forall i: nat :: i < |s.revs| && s.revs[i].erasing ==> LeaveBy(s.revs[i]) in s.left)
    && (forall i: nat :: i < |s.revs| && (s.revs[i].phase.Forgetting? || s.revs[i].phase.ForgetWriting?) ==>
          Done(s, LeaveBy(s.revs[i])))
  }

  /** Holding a copy of the queue that will be written back. */
  predicate Copying(phase: RevPhase) {
    (phase.SaveWriting? && !phase.failed) || phase.ForgetWriting?
  }

  /** A copy of the queue about to be written back loses nobody. */
  ghost predicate CopiesOk(s: State) {
    && (forall i: nat :: i < |s.revs| && Copying(s.revs[i].phase) ==>
          Knows(s, s.revs[i].phase.read, s.revs[i].config.url))
    && (forall i: nat :: i < |s.revs| && s.revs[i].phase.SaveWriting? && s.revs[i].phase.failed ==> s.revs[i].phase.read == [])
    && (s.pairing.PairWriting? ==> s.pairing.read == s.queue)
  }

  /** The retry will write `l` back, or drop it for its age. */
  ghost predicate RetryKeeps(r: Retry, l: Leave)
    requires r.Retrying?
  {
    Known(Unanswered(r.entries, r.verdicts), l) || Among(Aged(r), l)
  }

  /** What the retry has read stays with it until it has had an outcome; and it has
    * read every host not left since, but for the one stored. */
  ghost predicate RetryOk(s: State) {
    s.retry.Retrying? ==>
      && (forall l :: Known(s.retry.raw, l) ==> Done(s, l) || RetryKeeps(s.retry, l))
      && (forall e :: e in s.retry.entries ==> e in s.retry.raw)
      && (s.restoring ==> s.retry.raw == s.queue)
      && (forall l :: l in s.left ==> Done(s, l) || Known(s.retry.raw, l) || Held(s, l) || LeftSince(s, l.url))
  }

  /** A host that is being paired has no entry. */
  ghost predicate DropsOk(s: State) {
    s.pairing.Storing? && s.pairing.dropped ==> s.pairing.config.url !in Urls(s.queue)
  }

  /** What every step keeps that lets pairing wait for revocations. */
  ghost predicate Ordered(s: State) {
    O.Exclusive(s) && H.Bounded(s) && TurnsOk(s) && DropsOk(s)
  }

  /** What every careful step keeps. */
  ghost predicate Durable(s: State) {
    Ordered(s) && AllKept(s) && BusyOk(s) && CopiesOk(s) && RetryOk(s)
  }

  lemma InitDurable(s: State)
    requires Init(s)
    ensures Durable(s)
  {
  }

  // ----- turns -----

  lemma TurnsFrame(s: State, t: State)
    requires TurnsOk(s) && t.sessions == s.sessions && t.launched == s.launched && |t.revs| == |s.revs|
    requires t.stored == s.stored || t.stored == None
    requires t.session.None? || (s.session.Some? && t.session.value.config == s.session.value.config)
    requires forall i: nat :: i < |s.revs| ==> t.revs[i].config == s.revs[i].config && t.revs[i].session == s.revs[i].session
    requires forall i: nat :: i < |s.revs| && Active(t.revs[i]) ==> Active(s.revs[i])
    requires t.session.Some? || t.pairing.Activating? ==> t.stored == s.stored && (NoErase(s) ==> NoErase(t))
    requires t.pairing.Activating? ==> t.pairing == s.pairing
    ensures TurnsOk(t)
  {
    hide Active, NoErase;
  }

  lemma TurnsRevocation(s: State, l: Label)
    requires O.Exclusive(s) && TurnsOk(s) && Enabled(s, l) && IsRevocation(l)
    ensures TurnsOk(Next(s, l))
  {
    hide Next, Enabled, TurnsOk, O.Exclusive;
    if l.StartUnpair? {
      TurnsStart(s);
    } else if l.SaveWritten? || l.SaveRejected? {
      TurnsLeave(s, l);
    } else if l.Erased? {
      TurnsErased(s, l.i);
    } else {
      TurnsRest(s, l);
    }
  }

  lemma TurnsStart(s: State)
    requires O.Exclusive(s) && TurnsOk(s) && Enabled(s, StartUnpair)
    ensures TurnsOk(Next(s, StartUnpair))
  {
    RevocationIs(s, StartUnpair);
    hide Next, Enabled;
  }

  lemma TurnsLeave(s: State, l: Label)
    requires O.Exclusive(s) && TurnsOk(s) && Enabled(s, l) && (l.SaveWritten? || l.SaveRejected?)
    ensures TurnsOk(Next(s, l))
  {
    RevocationIs(s, l);
    hide Next, Enabled, QueueRevocation, SaveFates, TurnsOk, NoErase;
    assert O.Busy(s.revs[l.i]) && !s.pairing.Activating?;
    TurnsFrame(s, Next(s, l));
  }

  lemma TurnsErased(s: State, i: nat)
    requires TurnsOk(s) && Enabled(s, Erased(i))
    ensures TurnsOk(Next(s, Erased(i)))
  {
    RevocationIs(s, Erased(i));
    hide Next, Enabled, TurnsOk;
    ErasingMeansLeft(s, i);
    TurnsFrame(s, Next(s, Erased(i)));
  }

  /** Only a save makes a revocation active in a new way. */
  lemma ActiveBefore(s: State, l: Label)
    requires Enabled(s, l) && IsRevocation(l) && !l.StartUnpair?
    ensures l.i < |s.revs| && |Next(s, l).revs| == |s.revs|
    ensures var rev := Next(s, l).revs[l.i];
      && (O.Busy(rev) ==> O.Busy(s.revs[l.i]))
      && (rev.erasing ==> s.revs[l.i].erasing || l.SaveWritten? || l.SaveRejected?)
  {
    RevocationIs(s, l);
    hide Next, Enabled, QueueRevocation, SaveFates, DropRevocations, Urls;
  }

  lemma TurnsRest(s: State, l: Label)
    requires TurnsOk(s) && Enabled(s, l) && IsRevocation(l)
    requires !l.StartUnpair? && !l.SaveWritten? && !l.SaveRejected? && !l.Erased?
    ensures TurnsOk(Next(s, l))
  {
    NextStores(s, l);
    OneMoves(s, l);
    ActiveBefore(s, l);
    RevocationTouches(s, l);
    hide Next, Enabled, TurnsOk, NoErase, O.Busy;
    TurnsFrame(s, Next(s, l));
  }

  lemma ErasingMeansLeft(s: State, i: nat)
    requires TurnsOk(s) && i < |s.revs| && s.revs[i].erasing
    ensures s.session.None? && !s.pairing.Activating?
  {
  }

  lemma TurnsOthers(s: State, l: Label)
    requires O.Exclusive(s) && TurnsOk(s) && H.Bounded(s) && Enabled(s, l) && !IsRevocation(l) && O.Waits(l)
    ensures TurnsOk(Next(s, l))
  {
    hide Next, Enabled, O.Exclusive, TurnsOk, H.Bounded, O.Waits;
    if IsPairing(l) {
      TurnsPairing(s, l);
    } else if IsLaunch(l) {
      TurnsLaunch(s, l);
    } else {
      NextFollows(s, l);
      hide Issued;
      TurnsFrame(s, Next(s, l));
    }
  }

  lemma TurnsLaunch(s: State, l: Label)
    requires O.Exclusive(s) && TurnsOk(s) && H.Bounded(s) && Enabled(s, l) && IsLaunch(l)
    ensures TurnsOk(Next(s, l))
  {
    LaunchIs(s, l);
    hide Next, Enabled;
  }

  lemma TurnsPairing(s: State, l: Label)
    requires O.Exclusive(s) && TurnsOk(s) && H.Bounded(s) && Enabled(s, l) && IsPairing(l) && O.Waits(l)
    ensures TurnsOk(Next(s, l))
  {
    PairingIs(s, l);
    hide Next, Enabled, DropRevocations, Urls, Unfinished;
    if !l.PairStored? && !l.PairActivated? {
      hide TurnsOk;
      TurnsFrame(s, Next(s, l));
    }
  }

  lemma BusyIsActive(r: Revocation)
    requires O.Busy(r)
    ensures Active(r)
  {
  }

  lemma BusyIsEarly(s: State, i: nat)
    requires O.Exclusive(s) && i < |s.revs| && O.Busy(s.revs[i])
    ensures !s.pairing.PairWriting? && !s.pairing.Storing? && !s.pairing.Activating?
  {
  }

  /** While an unpair is at work no host but its own can be held. */
  lemma HeldIsOwn(s: State, i: nat, l: Leave)
    requires TurnsOk(s) && i < |s.revs| && Active(s.revs[i]) && Held(s, l)
    ensures l.url == s.revs[i].config.url
  {
  }

  lemma DropsStep(s: State, l: Label)
    requires O.Exclusive(s) && DropsOk(s) && Enabled(s, l)
    ensures DropsOk(Next(s, l))
  {
    if IsPairing(l) {
      PairingIs(s, l);
      hide Next, Enabled, Unfinished;
    } else if Next(s, l).pairing.Storing? {
      O.QueueStays(s, l);
      hide Next, Enabled, Urls, O.Exclusive;
    }
  }

  lemma OrderedStep(s: State, l: Label)
    requires Ordered(s) && Enabled(s, l) && O.Waits(l)
    ensures Ordered(Next(s, l))
  {
    hide Next, Enabled, O.Exclusive, H.Bounded, TurnsOk, DropsOk, O.Waits;
    O.ExclusiveStep(s, l);
    H.BoundedStep(s, l);
    DropsStep(s, l);
    if IsRevocation(l) {
      TurnsRevocation(s, l);
    } else {
      TurnsOthers(s, l);
    }
  }

  // ----- outcomes -----

  lemma DoneGrows(s: State, t: State)
    requires s.fate <= t.fate
    ensures forall l :: Done(s, l) ==> Done(t, l)
  {
  }

  lemma FatesAdd(s: State, t: State, more: set<Outcome>, l: Leave)
    requires t.fate == s.fate + more
    ensures Done(t, l) <==> Done(s, l) || exists o :: o in more && Covers(o.leave, l)
  {
  }

  lemma MarkedAmong(fate: Fate, leaves: set<Leave>, l: Leave)
    ensures (exists o :: o in Marked(fate, leaves) && Covers(o.leave, l)) <==> Among(leaves, l)
  {
    if o :| o in leaves && Covers(o, l) {
      assert Outcome(fate, o) in Marked(fate, leaves);
    }
  }

  /** Nothing of a host without an entry is known. */
  lemma UnknownHost(pending: seq<Entry>, l: Leave)
    requires l.url !in Urls(pending)
    ensures !Known(pending, l)
  {
    assert forall e <- pending :: e.config.url in Urls(pending);
  }
}
