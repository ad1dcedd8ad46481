/** What holds of every run of the push machine, without any condition.
  *
  * Nothing is of a session that has not begun, and no copy of the queue holds
  * more than five entries; and whatever is recorded has its event in the log.
  */
module PushHistory {
  import opened Basics
  import opened PendingRevocations
  import opened PushProtocol

  // ----- bounds -----

  /** The copy of the queue a revocation is about to write back. */
  function CopyOf(r: Revocation): seq<Entry> {
    match r.phase
    case SaveWriting(read, _) => read
    case ForgetWriting(read) => read
    case _ => []
  }

  /** At most five entries, of sessions up to `n`. */
  ghost predicate Fits(pending: seq<Entry>, n: nat) {
    |pending| <= MAX_PENDING && forall e :: e in pending ==> e.session <= n
  }

  ghost predicate Bounded(s: State) {
    && s.launched <= s.sessions
    && (s.session.Some? ==> s.session.value.id <= s.sessions)
    && (forall l :: l in s.left ==> l.session <= s.sessions)
    && Fits(s.queue, s.sessions)
    && (s.retry.Retrying? ==> Fits(s.retry.entries, s.sessions))
    && (s.pairing.PairWriting? ==> Fits(s.pairing.read, s.sessions))
    && (forall i: nat :: i < |s.revs| ==> s.revs[i].session <= s.sessions && Fits(CopyOf(s.revs[i]), s.sessions))
  }

  lemma NothingFits(n: nat)
    ensures Fits([], n)
  {
  }

  lemma DropFits(pending: seq<Entry>, url: Url, n: nat)
    requires Fits(pending, n)
    ensures Fits(DropRevocations(pending, url), n)
  {
    DropIsShort(pending, url);
  }

  lemma SaveFits(pending: seq<Entry>, config: Config, now: int, session: nat, n: nat)
    requires Fits(pending, n) && session <= n
    ensures Fits(QueueRevocation(pending, config, now, session), n)
  {
    CapDropsOnlyTheOldestOfFive(pending, config, now, session);
    NewEntryIsLast(pending, config, now, session);
    hide QueueRevocation;
  }

  lemma {:induction false} UnansweredIsShort(entries: seq<Entry>, verdicts: map<nat, Verdict>)
    ensures |Unanswered(entries, verdicts)| <= |entries|
  {
    if entries != [] {
      UnansweredIsShort(entries[..|entries| - 1], verdicts);
    }
  }

  lemma BoundedStep(s: State, l: Label)
    requires Bounded(s) && Enabled(s, l)
    ensures Bounded(Next(s, l))
  {
    hide Next, Enabled, Bounded;
    match PartOf(l)
    case OfRegistration => BoundedRegistration(s, l);
    case OfRevocation => BoundedRevocation(s, l);
    case OfRetry => BoundedRetry(s, l);
    case OfPairing => BoundedPairing(s, l);
    case OfLaunch => BoundedLaunch(s, l);
  }

  lemma BoundedRegistration(s: State, l: Label)
    requires Bounded(s) && Enabled(s, l) && IsRegistration(l)
    ensures Bounded(Next(s, l))
  {
    NextFollows(s, l);
    hide Next, Enabled, Fits, Issued;
  }

  lemma BoundedRevocation(s: State, l: Label)
    requires Bounded(s) && Enabled(s, l) && IsRevocation(l)
    ensures Bounded(Next(s, l))
  {
    hide Next, Enabled, Bounded;
    if l.SaveWritten? {
      BoundedSave(s, l.i, l.now);
    } else if l.ForgetWritten? {
      BoundedForget(s, l.i);
    } else if l.StartUnpair? || l.SaveRead? || l.ForgetRead? {
      BoundedRead(s, l);
    } else {
      BoundedRest(s, l);
    }
  }

  lemma BoundedRead(s: State, l: Label)
    requires Bounded(s) && Enabled(s, l) && (l.StartUnpair? || l.SaveRead? || l.ForgetRead?)
    ensures Bounded(Next(s, l))
  {
    hide Next, Enabled, Bounded;
    if l.StartUnpair? {
      BoundedStart(s);
    } else {
      BoundedCopy(s, l);
    }
  }

  lemma BoundedStart(s: State)
    requires Bounded(s) && Enabled(s, StartUnpair)
    ensures Bounded(Next(s, StartUnpair))
  {
    RevocationIs(s, StartUnpair);
    hide Next, Enabled, Fits;
    NothingFits(s.sessions);
  }

  lemma BoundedCopy(s: State, l: Label)
    requires Bounded(s) && Enabled(s, l) && (l.SaveRead? || l.ForgetRead?)
    ensures Bounded(Next(s, l))
  {
    RevocationIs(s, l);
    var t := Next(s, l);
    assert t == Move(s, l.i, t.revs[l.i].phase);
    assert CopyOf(t.revs[l.i]) == s.queue || CopyOf(t.revs[l.i]) == [];
    hide Next, Enabled, Fits, CopyOf, Urls;
    NothingFits(s.sessions);
  }

  lemma BoundedRest(s: State, l: Label)
    requires Bounded(s) && Enabled(s, l) && IsRevocation(l)
    requires !l.SaveWritten? && !l.ForgetWritten? && !l.StartUnpair? && !l.SaveRead? && !l.ForgetRead?
    ensures Bounded(Next(s, l))
  {
    RevocationIs(s, l);
    assert l.SaveRejected? ==> s.revs[l.i].session <= s.sessions;
    assert forall o :: o in s.left ==> o.session <= s.sessions;
    hide Next, Enabled, Fits, Bounded;
    BoundedFrame(s, Next(s, l));
  }

  lemma BoundedFrame(s: State, t: State)
    requires Bounded(s) && Fits(t.queue, s.sessions) && t.retry == s.retry && t.pairing == s.pairing
    requires forall l :: l in t.left ==> l.session <= s.sessions
    requires t.sessions == s.sessions && t.launched == s.launched && |t.revs| == |s.revs|
    requires t.session.Some? ==> t.session == s.session
    requires forall i: nat :: i < |s.revs| ==>
      t.revs[i].session == s.revs[i].session && (CopyOf(t.revs[i]) == CopyOf(s.revs[i]) || CopyOf(t.revs[i]) == [])
    ensures Bounded(t)
  {
    NothingFits(s.sessions);
    hide Fits, CopyOf;
  }

  lemma BoundedSave(s: State, i: nat, now: int)
    requires Bounded(s) && Enabled(s, SaveWritten(i, now))
    ensures Bounded(Next(s, SaveWritten(i, now)))
  {
    RevocationIs(s, SaveWritten(i, now));
    var rev, t := s.revs[i], Next(s, SaveWritten(i, now));
    assert t == LeaveSession(s, i).(queue := QueueRevocation(rev.phase.read, rev.config, now, rev.session), fate := t.fate);
    assert rev.session <= s.sessions && Fits(CopyOf(rev), s.sessions);
    assert forall o :: o in s.left ==> o.session <= s.sessions;
    hide Next, Enabled, Fits, SaveFates, QueueRevocation, Bounded;
    SaveFits(rev.phase.read, rev.config, now, rev.session, s.sessions);
    HasNoCopy(t.revs[i]);
    hide CopyOf;
    BoundedFrame(s, t);
  }

  lemma BoundedForget(s: State, i: nat)
    requires Bounded(s) && Enabled(s, ForgetWritten(i))
    ensures Bounded(Next(s, ForgetWritten(i)))
  {
    RevocationIs(s, ForgetWritten(i));
    var rev, t := s.revs[i], Next(s, ForgetWritten(i));
    assert t == Move(s, i, Ended).(queue := DropRevocations(rev.phase.read, rev.config.url));
    assert Fits(CopyOf(rev), s.sessions);
    assert forall o :: o in s.left ==> o.session <= s.sessions;
    hide Next, Enabled, Fits, DropRevocations, Bounded;
    DropFits(rev.phase.read, rev.config.url, s.sessions);
    HasNoCopy(t.revs[i]);
    hide CopyOf;
    BoundedFrame(s, t);
  }

  lemma HasNoCopy(r: Revocation)
    requires r.phase.AtGate? || r.phase.Ended?
    ensures CopyOf(r) == []
  {
  }

  lemma BoundedRetry(s: State, l: Label)
    requires Bounded(s) && Enabled(s, l) && IsRetry(l)
    ensures Bounded(Next(s, l))
  {
    RetryIs(s, l);
    if l.RetryRead? {
      LiveIsShort(s.queue, l.now);
    } else if l.RetryWritten? {
      UnansweredIsShort(s.retry.entries, s.retry.verdicts);
    }
    hide Next, Enabled, Marked, Aged, LivePending, Unanswered;
  }

  lemma BoundedPairing(s: State, l: Label)
    requires Bounded(s) && Enabled(s, l) && IsPairing(l)
    ensures Bounded(Next(s, l))
  {
    PairingIs(s, l);
    if l.PairForgotten? {
      DropFits(s.pairing.read, s.pairing.config.url, s.sessions);
    }
    hide Next, Enabled, Unfinished, Urls, DropRevocations;
  }

  lemma BoundedLaunch(s: State, l: Label)
    requires Bounded(s) && Enabled(s, l) && IsLaunch(l)
    ensures Bounded(Next(s, l))
  {
    LaunchIs(s, l);
    hide Next, Enabled;
  }

  lemma {:induction false} RunsStayBounded(states: seq<State>, labels: seq<Label>)
    requires Run(states, labels) && Init(states[0])
    ensures Bounded(Last(states))
    decreases |labels|
  {
    hide Enabled, Next;
    if labels != [] {
      RunPrefix(states, labels);
      RunsStayBounded(states[..|labels|], labels[..|labels| - 1]);
      hide Bounded;
      BoundedStep(Last(states[..|labels|]), labels[|labels| - 1]);
    }
  }

  /** In every run a save pushes out at most one host: the oldest of five it has
    * read, all live and of other hosts. The queue never exceeds five. */
  lemma ASaveCapsOnlyTheOldestOfFive(states: seq<State>, labels: seq<Label>, i: nat, now: int)
    requires Run(states, labels) && Init(states[0]) && Enabled(Last(states), SaveWritten(i, now))
    ensures var rev := Last(states).revs[i];
      var read := rev.phase.read;
      var full := |read| == MAX_PENDING && Others(read, rev.config.url, now) == read;
      && |Next(Last(states), SaveWritten(i, now)).queue| <= MAX_PENDING
      && CappedLeaves(read, rev.config, now, rev.session) <= if full then {LeaveOf(read[0])} else {}
  {
    RunsStayBounded(states, labels);
    hide Run, Init;
    var s := Last(states);
    RevocationIs(s, SaveWritten(i, now));
    assert Fits(CopyOf(s.revs[i]), s.sessions);
    CapDropsOnlyTheOldestOfFive(s.revs[i].phase.read, s.revs[i].config, now, s.revs[i].session);
    hide Next, Enabled, Others, CappedLeaves, QueueRevocation, Bounded;
  }

  // ----- what stands behind what is recorded -----

  ghost predicate Deleted(log: seq<Event>, l: Leave) {
    Delete(l.session, l.url, true) in log || Delete(l.session, l.url, false) in log
  }

  ghost predicate Happened(log: seq<Event>, o: Outcome) {
    && (o.fate.Acknowledged? ==> Deleted(log, o.leave))
    && (o.fate.Repaired? ==> Paired(o.leave.session + 1, o.leave.url) in log)
  }

  /** How a session begins: its connection is stored, or restored. */
  function Begun(session: nat, url: Url, paired: bool): Event {
    if paired then Paired(session, url) else Started(session, url, false)
  }

  /** A session has its beginning in the log, and so has a registration for it; an
    * outcome and a sent request have theirs. */
  ghost predicate Backed(s: State) {
    && (forall i: nat :: i < |s.regs| ==> Begun(s.regs[i].session, s.regs[i].url, s.regs[i].paired) in s.log)
    && (s.session.Some? ==> Begun(s.session.value.id, s.session.value.config.url, s.session.value.paired) in s.log)
    && (s.pairing.Activating? ==> Paired(s.sessions + 1, s.pairing.config.url) in s.log)
    && (s.restoring ==> s.pairing.NotPairing? && s.session.None? && s.regs == [])
    && (forall o :: o in s.fate ==> Happened(s.log, o))
    && (forall i: nat :: i < |s.revs| && s.revs[i].phase.Deleting? ==> Deleted(s.log, LeaveBy(s.revs[i])))
    && (s.retry.Retrying? ==> forall j: nat :: j < |s.retry.entries| && j in s.retry.sent ==>
          Deleted(s.log, LeaveOf(s.retry.entries[j])))
  }

  lemma LogGrows(log: seq<Event>, more: seq<Event>)
    ensures forall o :: Happened(log, o) ==> Happened(log + more, o)
    ensures forall l :: Deleted(log, l) ==> Deleted(log + more, l)
    ensures forall e :: e in log || e in more ==> e in log + more
  {
  }

  lemma MarkedHappened(log: seq<Event>, fate: Fate, leaves: set<Leave>)
    requires !fate.Acknowledged? && !fate.Repaired?
    ensures forall o :: o in Marked(fate, leaves) ==> Happened(log, o)
  {
  }

  lemma BackedStep(s: State, l: Label)
    requires Backed(s) && Enabled(s, l)
    ensures Backed(Next(s, l))
  {
    hide Next, Enabled, Backed;
    match PartOf(l)
    case OfRegistration => BackedRegistration(s, l);
    case OfRevocation => BackedRevocation(s, l);
    case OfRetry => BackedRetry(s, l);
    case OfPairing => BackedPairing(s, l);
    case OfLaunch => BackedLaunch(s, l);
  }

  /** What was in the log stays there. */
  ghost predicate Grown(s: State, t: State) {
    && (forall o :: Happened(s.log, o) ==> Happened(t.log, o))
    && (forall l :: Deleted(s.log, l) ==> Deleted(t.log, l))
    && (forall e :: e in s.log ==> e in t.log)
  }

  lemma StepGrows(s: State, l: Label)
    requires Enabled(s, l)
    ensures Grown(s, Next(s, l))
  {
    NextFollows(s, l);
    LogGrows(s.log, Issued(s, l));
    hide Next, Enabled, Issued, Happened, Deleted;
  }

  /** Steps that add nothing to back but a request or an outcome that is in the log. */
  lemma BackedFrame(s: State, t: State)
    requires Backed(s) && Grown(s, t) && t.retry == s.retry && t.pairing == s.pairing && |t.regs| == |s.regs|
    requires forall i: nat :: i < |t.regs| ==> t.regs[i].(aborted := s.regs[i].aborted) == s.regs[i]
    requires t.sessions == s.sessions && (t.restoring ==> s.restoring)
    requires t.session.Some? ==> s.session.Some? && t.session.value.(leaving := s.session.value.leaving) == s.session.value
    requires forall o :: o in t.fate ==> o in s.fate || Happened(t.log, o)
    requires forall i: nat :: i < |t.revs| && t.revs[i].phase.Deleting? ==>
      (i < |s.revs| && t.revs[i].(erasing := s.revs[i].erasing) == s.revs[i]) || Deleted(t.log, LeaveBy(t.revs[i]))
    ensures Backed(t)
  {
    hide Happened, Deleted;
  }

  /** A registration that starts is for the session there is; those that run keep theirs. */
  lemma RegistrationsKeepTheirSession(s: State, l: Label)
    requires Enabled(s, l) && IsRegistration(l)
    ensures var t := Next(s, l);
      forall i: nat :: i < |t.regs| ==>
        if i < |s.regs| then t.regs[i].(phase := s.regs[i].phase, aborted := s.regs[i].aborted) == s.regs[i]
        else s.session.Some? && t.regs[i].session == s.session.value.id && t.regs[i].url == s.session.value.config.url
             && t.regs[i].paired == s.session.value.paired
  {
    if l.StartRegistration? {
      RegistrationIs(s, l);
    } else {
      OneRegisters(s, l);
    }
    hide Next, Enabled;
  }

  lemma BackedRegistration(s: State, l: Label)
    requires Backed(s) && Enabled(s, l) && IsRegistration(l)
    ensures Backed(Next(s, l))
  {
    StepGrows(s, l);
    NextFollows(s, l);
    RegistrationsKeepTheirSession(s, l);
    hide Next, Enabled, Issued, Happened, Deleted;
  }

  lemma BackedRevocation(s: State, l: Label)
    requires Backed(s) && Enabled(s, l) && IsRevocation(l)
    ensures Backed(Next(s, l))
  {
    hide Next, Enabled, Backed;
    if l.IssueDelete? || l.DeleteAnswered? {
      BackedDelete(s, l);
    } else if l.StartUnpair? || l.GraceExpires? {
      BackedBegin(s, l);
    } else {
      BackedRest(s, l);
    }
  }

  lemma BackedBegin(s: State, l: Label)
    requires Backed(s) && Enabled(s, l) && (l.StartUnpair? || l.GraceExpires?)
    ensures Backed(Next(s, l))
  {
    StepGrows(s, l);
    RevocationIs(s, l);
    hide Next, Enabled, Backed, Happened, Deleted;
    BackedFrame(s, Next(s, l));
  }

  /** The other steps of a revocation leave registrations and sessions, and wait for no answer. */
  lemma RevocationRest(s: State, l: Label)
    requires Enabled(s, l) && IsRevocation(l) && !l.IssueDelete? && !l.DeleteAnswered? && !l.StartUnpair? && !l.GraceExpires?
    ensures var t := Next(s, l);
      && t.retry == s.retry && t.pairing == s.pairing && t.regs == s.regs && t.sessions == s.sessions
      && t.restoring == s.restoring && (t.session == s.session || t.session.None?)
      && (t.fate == s.fate || l.SaveWritten?)
  {
    RevocationIs(s, l);
    hide Next, Enabled, QueueRevocation, SaveFates, DropRevocations, Urls;
  }

  /** Only its request puts a revocation to waiting for an answer. */
  lemma StillWaiting(s: State, l: Label)
    requires Enabled(s, l) && IsRevocation(l) && !l.IssueDelete? && !l.StartUnpair?
    ensures l.i < |s.revs| && l.i < |Next(s, l).revs|
    ensures Next(s, l).revs[l.i].phase.Deleting? ==> Next(s, l).revs[l.i].phase == s.revs[l.i].phase
  {
    RevocationIs(s, l);
    hide Next, Enabled, QueueRevocation, SaveFates, DropRevocations, Urls;
  }

  lemma BackedRest(s: State, l: Label)
    requires Backed(s) && Enabled(s, l) && IsRevocation(l)
    requires !l.IssueDelete? && !l.DeleteAnswered? && !l.StartUnpair? && !l.GraceExpires?
    ensures Backed(Next(s, l))
  {
    StepGrows(s, l);
    OneMoves(s, l);
    RevocationRest(s, l);
    StillWaiting(s, l);
    if l.SaveWritten? {
      SavedHappened(s, l);
    }
    hide Next, Enabled, Backed, Happened, Deleted;
    BackedFrame(s, Next(s, l));
  }

  /** A request is in the log, and so an acknowledgement has one behind it. */
  lemma DeleteIsBacked(s: State, l: Label)
    requires Backed(s) && Enabled(s, l) && (l.IssueDelete? || l.DeleteAnswered?)
    ensures var t := Next(s, l);
      && (l.IssueDelete? ==> l.i < |s.revs| && Deleted(t.log, LeaveBy(s.revs[l.i])))
      && (forall o :: o in t.fate ==> o in s.fate || Happened(t.log, o))
  {
    RevocationIs(s, l);
    hide Next, Enabled;
  }

  lemma BackedDelete(s: State, l: Label)
    requires Backed(s) && Enabled(s, l) && (l.IssueDelete? || l.DeleteAnswered?)
    ensures Backed(Next(s, l))
  {
    StepGrows(s, l);
    DeleteIsBacked(s, l);
    OneMoves(s, l);
    RevocationIs(s, l);
    hide Next, Enabled, Backed, Happened, Deleted;
    BackedFrame(s, Next(s, l));
  }

  lemma SavedHappened(s: State, l: Label)
    requires Enabled(s, l) && l.SaveWritten?
    ensures forall o :: o in Next(s, l).fate ==> o in s.fate || Happened(Next(s, l).log, o)
  {
    RevocationIs(s, l);
    var rev, t := s.revs[l.i], Next(s, l);
    var expired, capped :=
      ExpiredLeaves(rev.phase.read, l.now), CappedLeaves(rev.phase.read, rev.config, l.now, rev.session);
    assert t.fate == s.fate + (Marked(Expired, expired) + Marked(Capped, capped));
    MarkedHappened(t.log, Expired, expired);
    MarkedHappened(t.log, Capped, capped);
    hide Next, Enabled, Happened, Marked, ExpiredLeaves, CappedLeaves;
  }

  lemma BackedRetry(s: State, l: Label)
    requires Backed(s) && Enabled(s, l) && IsRetry(l)
    ensures Backed(Next(s, l))
  {
    StepGrows(s, l);
    RetryIs(s, l);
    if l.RetryWritten? {
      MarkedHappened(s.log, Expired, Aged(s.retry));
    } else if l.RetryDelete? {
      assert Deleted(Next(s, l).log, LeaveOf(s.retry.entries[l.j]));
    }
    hide Next, Enabled, Deleted, LivePending, Unanswered, Marked, Aged;
  }

  lemma BackedPairing(s: State, l: Label)
    requires Backed(s) && Enabled(s, l) && IsPairing(l)
    ensures Backed(Next(s, l))
  {
    StepGrows(s, l);
    PairingIs(s, l);
    if l.PairStored? {
      var t, config := Next(s, l), s.pairing.config;
      assert t.log[|s.log|] == Paired(s.sessions + 1, config.url);
      assert Happened(t.log, Outcome(Repaired, Leave(config.url, s.sessions)));
    }
    hide Next, Enabled, Happened, Deleted, DropRevocations, Urls, Unfinished;
  }

  lemma BackedLaunch(s: State, l: Label)
    requires Backed(s) && Enabled(s, l) && IsLaunch(l)
    ensures Backed(Next(s, l))
  {
    StepGrows(s, l);
    LaunchIs(s, l);
    hide Next, Enabled, Deleted;
  }

  // ----- posts and outcomes in the log of a run -----

  ghost predicate PostsFollow(log: seq<Event>) {
    forall j: nat :: j < |log| && log[j].Post? ==> Begun(log[j].session, log[j].url, log[j].paired) in log[..j]
  }

  lemma PostsFollowStep(s: State, l: Label)
    requires Backed(s) && PostsFollow(s.log) && Enabled(s, l)
    ensures PostsFollow(s.log + Issued(s, l))
  {
    var log, more := s.log, s.log + Issued(s, l);
    assert |Issued(s, l)| <= 1;
    assert |more| > |log| && more[|log|].Post? ==> l.Minted? && more[|log|] == Issued(s, l)[0];
    assert forall j: nat :: j <= |log| ==> more[..j] == log[..j];
    assert log[..|log|] == log;
    hide Enabled, Next;
  }

  lemma {:induction false} RunsAreBacked(states: seq<State>, labels: seq<Label>)
    requires Run(states, labels) && Init(states[0])
    ensures Backed(Last(states)) && PostsFollow(Last(states).log)
    decreases |labels|
  {
    hide Enabled, Next;
    if labels != [] {
      RunPrefix(states, labels);
      RunsAreBacked(states[..|labels|], labels[..|labels| - 1]);
      var s, l := Last(states[..|labels|]), labels[|labels| - 1];
      hide Backed, PostsFollow, Issued;
      BackedStep(s, l);
      PostsFollowStep(s, l);
      NextFollows(s, l);
    }
  }

  /** In every run, a leave counts as acknowledged only once its DELETE has been
    * issued, and as paired again only once the new connection has been stored. */
  lemma OutcomesHaveHappened(states: seq<State>, labels: seq<Label>, o: Outcome)
    requires Run(states, labels) && Init(states[0]) && o in Last(states).fate
    ensures o.fate.Acknowledged? ==> Deleted(Last(states).log, o.leave)
    ensures o.fate.Repaired? ==> Paired(o.leave.session + 1, o.leave.url) in Last(states).log
  {
    RunsAreBacked(states, labels);
    hide Run, Init, Deleted;
    assert Happened(Last(states).log, o);
  }
}
