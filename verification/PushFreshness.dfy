/** After a pairing or a restore, no DELETE of an earlier session of its host.
  *
  * Once a pairing of host `u` has been stored as session `k`, every revocation
  * for `u` that is queued, being retried or under way is of session `k` or a
  * later one, over crashes and relaunches too; and so once a connection to a host
  * that is not queued has been restored.
  */
module PushFreshness {
  import opened Basics
  import opened PendingRevocations
  import opened PushProtocol
  import opened PushHistory
  import O = PushOrdering

  /** Everything in `pending` for `url` is of session `k` or later. */
  ghost predicate NoneOlder(pending: seq<Entry>, k: nat, url: Url) {
    forall e :: e in pending && e.config.url == url ==> k <= e.session
  }

  /** Every DELETE still to come for `url` is of session `k` or later. */
  ghost predicate Safe(s: State, k: nat, url: Url) {
    && NoneOlder(s.queue, k, url)
    && (s.retry.Retrying? ==> NoneOlder(s.retry.entries, k, url))
    && (s.pairing.PairWriting? ==> NoneOlder(s.pairing.read, k, url))
    && (forall i: nat :: i < |s.revs| && O.Busy(s.revs[i]) ==>
          (s.revs[i].config.url == url ==> k <= s.revs[i].session) && NoneOlder(CopyOf(s.revs[i]), k, url))
  }

  ghost predicate PairedSafe(s: State) {
    forall p: nat :: p < |s.log| && s.log[p].Paired? ==>
      s.log[p].session <= s.sessions + 1 && (s.session.Some? ==> s.log[p].session <= s.sessions)
      && Safe(s, s.log[p].session, s.log[p].url)
  }

  /** No DELETE in the log is of a session before a pairing of its host. */
  ghost predicate InOrder(log: seq<Event>) {
    forall p: nat, j: nat :: p < j < |log| && log[p].Paired? && log[j].Delete? && log[p].url == log[j].url ==>
      log[p].session <= log[j].session
  }

  ghost predicate DroppedOk(s: State) {
    s.pairing.Storing? ==> s.pairing.config.url !in Urls(s.queue)
  }

  ghost predicate Fresh(s: State) {
    PairedSafe(s) && InOrder(s.log) && DroppedOk(s)
  }

  // ----- what a step does to what is safe -----

  lemma SafeRevocation(s: State, l: Label, k: nat, url: Url)
    requires O.Exclusive(s) && Safe(s, k, url) && Enabled(s, l) && IsRevocation(l)
    requires s.session.Some? ==> k <= s.sessions
    ensures Safe(Next(s, l), k, url)
  {
    hide Next, Enabled, Safe, O.Exclusive;
    if l.SaveWritten? {
      SafeSave(s, l.i, l.now, k, url);
    } else if l.ForgetWritten? {
      SafeForget(s, l.i, k, url);
    } else {
      SafeRest(s, l, k, url);
    }
  }

  lemma SafeForget(s: State, i: nat, k: nat, url: Url)
    requires Safe(s, k, url) && Enabled(s, ForgetWritten(i))
    ensures Safe(Next(s, ForgetWritten(i)), k, url)
  {
    RevocationIs(s, ForgetWritten(i));
    hide Next, Enabled;
    assert O.Busy(s.revs[i]) && NoneOlder(CopyOf(s.revs[i]), k, url);
    SafeFrame(s, Next(s, ForgetWritten(i)), k, url);
  }

  lemma SafeRest(s: State, l: Label, k: nat, url: Url)
    requires O.Exclusive(s) && Safe(s, k, url) && Enabled(s, l) && IsRevocation(l) && !l.SaveWritten? && !l.ForgetWritten?
    requires s.session.Some? ==> k <= s.sessions
    ensures Safe(Next(s, l), k, url)
  {
    hide Next, Enabled, Safe, O.Exclusive;
    if l.StartUnpair? || l.SaveRead? || l.ForgetRead? {
      SafeRead(s, l, k, url);
    } else {
      RevocationKeeps(s, l);
      RetryKept(s, l);
      OneMoves(s, l);
      NoNewCopy(s, l);
      SafeQueue(s, k, url);
      hide NoneOlder, CopyOf, O.Busy;
      SafeFrame(s, Next(s, l), k, url);
    }
  }

  lemma SafeQueue(s: State, k: nat, url: Url)
    requires Safe(s, k, url)
    ensures NoneOlder(s.queue, k, url)
  {
  }

  lemma RetryKept(s: State, l: Label)
    requires Enabled(s, l) && IsRevocation(l)
    ensures Next(s, l).retry == s.retry
  {
    RevocationIs(s, l);
    hide Next, Enabled, QueueRevocation, SaveFates, DropRevocations, Urls;
  }

  lemma NoNewCopy(s: State, l: Label)
    requires Enabled(s, l) && IsRevocation(l) && !l.StartUnpair? && !l.SaveRead? && !l.ForgetRead?
    ensures l.i < |s.revs| && l.i < |Next(s, l).revs|
    ensures var rev := Next(s, l).revs[l.i];
      (O.Busy(rev) ==> O.Busy(s.revs[l.i])) && (rev.phase == s.revs[l.i].phase || CopyOf(rev) == [])
  {
    RevocationIs(s, l);
    hide Next, Enabled, QueueRevocation, SaveFates, DropRevocations, Urls;
  }

  lemma SafeRead(s: State, l: Label, k: nat, url: Url)
    requires O.Exclusive(s) && Safe(s, k, url) && Enabled(s, l) && (l.StartUnpair? || l.SaveRead? || l.ForgetRead?)
    requires s.session.Some? ==> k <= s.sessions
    ensures Safe(Next(s, l), k, url)
  {
    RevocationIs(s, l);
    hide Next, Enabled, NoneOlder, Urls;
    NoCopy(k, url);
  }

  lemma NoCopy(k: nat, url: Url)
    ensures NoneOlder([], k, url)
  {
  }

  /** Revocations that go on or end, and a queue without older entries. */
  lemma SafeFrame(s: State, t: State, k: nat, url: Url)
    requires Safe(s, k, url) && NoneOlder(t.queue, k, url) && t.retry == s.retry && t.pairing == s.pairing
    requires |t.revs| == |s.revs|
    requires forall i: nat :: i < |s.revs| && O.Busy(t.revs[i]) ==>
      O.Busy(s.revs[i]) && t.revs[i].config == s.revs[i].config && t.revs[i].session == s.revs[i].session
      && (t.revs[i].phase == s.revs[i].phase || CopyOf(t.revs[i]) == [])
    ensures Safe(t, k, url)
  {
    NoCopy(k, url);
    hide NoneOlder;
  }

  lemma SafeSame(s: State, t: State, k: nat, url: Url)
    requires Safe(s, k, url) && t.queue == s.queue && t.retry == s.retry && t.pairing == s.pairing && t.revs == s.revs
    ensures Safe(t, k, url)
  {
    hide NoneOlder;
  }

  lemma SafeSave(s: State, i: nat, now: int, k: nat, url: Url)
    requires Safe(s, k, url) && Enabled(s, SaveWritten(i, now))
    ensures Safe(Next(s, SaveWritten(i, now)), k, url)
  {
    RevocationIs(s, SaveWritten(i, now));
    var rev, t := s.revs[i], Next(s, SaveWritten(i, now));
    assert O.Busy(rev) && NoneOlder(CopyOf(rev), k, url);
    NewEntryIsLast(rev.phase.read, rev.config, now, rev.session);
    assert t.queue == QueueRevocation(rev.phase.read, rev.config, now, rev.session);
    hide Next, Enabled, QueueRevocation, SaveFates;
    assert NoneOlder(t.queue, k, url);
    SafeFrame(s, t, k, url);
  }

  lemma SafeRetry(s: State, l: Label, k: nat, url: Url)
    requires Safe(s, k, url) && Enabled(s, l) && IsRetry(l)
    ensures Safe(Next(s, l), k, url)
  {
    RetryIs(s, l);
    hide Next, Enabled, Marked, Aged, LivePending, Unanswered;
  }

  lemma SafePairing(s: State, l: Label, k: nat, url: Url)
    requires Safe(s, k, url) && Enabled(s, l) && IsPairing(l)
    ensures Safe(Next(s, l), k, url)
  {
    PairingIs(s, l);
    hide Next, Enabled, Unfinished, Urls;
  }

  lemma SafeLaunch(s: State, l: Label, k: nat, url: Url)
    requires Safe(s, k, url) && Enabled(s, l) && IsLaunch(l)
    ensures Safe(Next(s, l), k, url)
  {
    LaunchIs(s, l);
    hide Next, Enabled;
  }

  lemma SafeStep(s: State, l: Label, k: nat, url: Url)
    requires O.Exclusive(s) && Safe(s, k, url) && Enabled(s, l) && (s.session.Some? ==> k <= s.sessions)
    ensures Safe(Next(s, l), k, url)
  {
    hide O.Exclusive, Safe, Next, Enabled;
    match PartOf(l)
    case OfRegistration => {
      NextFollows(s, l);
      hide Issued;
      SafeSame(s, Next(s, l), k, url);
    }
    case OfRevocation => SafeRevocation(s, l, k, url);
    case OfRetry => SafeRetry(s, l, k, url);
    case OfPairing => SafePairing(s, l, k, url);
    case OfLaunch => SafeLaunch(s, l, k, url);
  }

  // ----- what a step adds to the log -----

  /** What `e` needs when it is issued. */
  ghost predicate Timely(s: State, t: State, e: Event) {
    && (e.Delete? ==> forall k: nat :: Safe(s, k, e.url) ==> k <= e.session)
    && (e.Paired? ==> e.session == t.sessions + 1 && t.session.None? && Safe(t, e.session, e.url))
  }

  ghost predicate AddsTimely(s: State, l: Label)
    requires Enabled(s, l)
  {
    |Issued(s, l)| <= 1 && (Issued(s, l) != [] ==> Timely(s, Next(s, l), Issued(s, l)[0]))
  }

  lemma NewIsTimely(s: State, l: Label)
    requires O.Exclusive(s) && DroppedOk(s) && Enabled(s, l)
    ensures AddsTimely(s, l)
  {
    if l.IssueDelete? {
      hide Next, AddsTimely, Enabled;
      RevocationIsTimely(s, l.i);
    } else if l.RetryDelete? {
      hide Next, AddsTimely, Enabled;
      RetryIsTimely(s, l.j);
    } else if l.PairStored? {
      hide Next, AddsTimely, Enabled;
      StoredIsTimely(s);
    } else {
      hide Next, Safe, O.Exclusive;
    }
  }

  lemma RevocationIsTimely(s: State, i: nat)
    requires Enabled(s, IssueDelete(i))
    ensures AddsTimely(s, IssueDelete(i))
  {
    RevocationIs(s, IssueDelete(i));
    hide Next, Enabled;
    assert O.Busy(s.revs[i]);
  }

  lemma RetryIsTimely(s: State, j: nat)
    requires Enabled(s, RetryDelete(j))
    ensures AddsTimely(s, RetryDelete(j))
  {
    RetryIs(s, RetryDelete(j));
    hide Next, Enabled;
    assert s.retry.entries[j] in s.retry.entries;
  }

  lemma StoredIsTimely(s: State)
    requires O.Exclusive(s) && DroppedOk(s) && Enabled(s, PairStored)
    ensures AddsTimely(s, PairStored)
  {
    PairingIs(s, PairStored);
    hide Next;
    assert forall e <- s.queue :: e.config.url in Urls(s.queue);
  }

  lemma InOrderStep(s: State, l: Label)
    requires PairedSafe(s) && InOrder(s.log) && Enabled(s, l) && AddsTimely(s, l)
    ensures InOrder(s.log + Issued(s, l))
  {
    hide Safe, Enabled, Next, Issued;
  }

  lemma PairedSafeStep(s: State, l: Label)
    requires O.Exclusive(s) && PairedSafe(s) && Enabled(s, l) && AddsTimely(s, l)
    ensures PairedSafe(Next(s, l))
  {
    var t := Next(s, l);
    NextFollows(s, l);
    hide O.Exclusive, Safe, Next, Enabled, Issued;
    forall p: nat | p < |s.log| && s.log[p].Paired?
      ensures Safe(t, s.log[p].session, s.log[p].url)
    {
      SafeStep(s, l, s.log[p].session, s.log[p].url);
    }
    forall p: nat | p < |t.log| && t.log[p].Paired?
      ensures t.log[p].session <= t.sessions + 1 && (t.session.Some? ==> t.log[p].session <= t.sessions)
      ensures Safe(t, t.log[p].session, t.log[p].url)
    {
      if p < |s.log| {
        assert t.log[p] == s.log[p];
      } else {
        assert t.log[p] == Issued(s, l)[0];
      }
    }
  }

  lemma DroppedStep(s: State, l: Label)
    requires O.Exclusive(s) && DroppedOk(s) && Enabled(s, l) && O.MissesNothing(s, l)
    ensures DroppedOk(Next(s, l))
  {
    if IsPairing(l) {
      PairingIs(s, l);
      hide Next, Enabled, Unfinished;
    } else if Next(s, l).pairing.Storing? {
      O.QueueStays(s, l);
      hide Next, Enabled, Urls, O.Exclusive;
    }
  }

  lemma FreshStep(s: State, l: Label)
    requires O.Exclusive(s) && Fresh(s) && Enabled(s, l) && O.MissesNothing(s, l)
    ensures Fresh(Next(s, l))
  {
    hide O.Exclusive, PairedSafe, InOrder, DroppedOk, AddsTimely, Next, Enabled, O.MissesNothing;
    NewIsTimely(s, l);
    NextFollows(s, l);
    InOrderStep(s, l);
    PairedSafeStep(s, l);
    DroppedStep(s, l);
  }

  ghost predicate MissNothing(states: seq<State>, labels: seq<Label>)
    requires |states| == |labels| + 1
  {
    forall i :: 0 <= i < |labels| ==> O.Waits(labels[i]) && O.MissesNothing(states[i], labels[i])
  }

  lemma {:induction false} RunsStayFresh(states: seq<State>, labels: seq<Label>)
    requires Run(states, labels) && Init(states[0]) && MissNothing(states, labels)
    ensures O.Exclusive(Last(states)) && Fresh(Last(states))
    decreases |labels|
  {
    hide Enabled, Next, O.Waits, O.MissesNothing;
    if labels != [] {
      RunPrefix(states, labels);
      var n := |labels| - 1;
      assert O.Waits(labels[n]) && O.MissesNothing(states[n], labels[n]);
      RunsStayFresh(states[..n + 1], labels[..n]);
      hide O.Exclusive, Fresh;
      O.ExclusiveStep(states[n], labels[n]);
      FreshStep(states[n], labels[n]);
    }
  }

  /** Once a pairing of a host has been stored as session `k`, no DELETE for that
    * host is issued for the unpair of an earlier session: not by an unpair, not by
    * a retry, in this launch or any later one. */
  lemma NoOlderDeleteAfterPairing(states: seq<State>, labels: seq<Label>, i: nat, j: nat)
    requires Run(states, labels) && Init(states[0]) && MissNothing(states, labels)
    requires i < j < |Last(states).log|
    requires Last(states).log[i].Paired? && Last(states).log[j].Delete?
    requires Last(states).log[i].url == Last(states).log[j].url
    ensures Last(states).log[i].session <= Last(states).log[j].session
  {
    hide Run, Init, O.Exclusive, MissNothing;
    RunsStayFresh(states, labels);
  }

  // ----- after a restore -----

  /** The host of a connection that is restored is not queued. */
  ghost predicate RestoresClean(s: State, l: Label) {
    l.RestoreOk? && s.stored.Some? ==> s.stored.value.url !in Urls(s.queue)
  }

  /** While a connection is being restored the retry holds nothing that is not queued. */
  ghost predicate RetriesQueued(s: State) {
    s.restoring && s.retry.Retrying? ==> forall e :: e in s.retry.entries ==> e in s.queue
  }

  lemma RetriesQueuedStep(s: State, l: Label)
    requires O.Exclusive(s) && RetriesQueued(s) && Enabled(s, l)
    ensures RetriesQueued(Next(s, l))
  {
    hide Next, Enabled, O.Exclusive, RetriesQueued;
    if IsRetry(l) {
      RetriesQueuedRetry(s, l);
    } else if IsRegistration(l) {
      NextFollows(s, l);
      hide Issued;
      SameRetriesQueued(s, Next(s, l));
    } else if IsRevocation(l) {
      NotRestoring(s, l);
    } else {
      RetriesQueuedLaunch(s, l);
    }
  }

  lemma SameRetriesQueued(s: State, t: State)
    requires RetriesQueued(s) && t.restoring == s.restoring && t.retry == s.retry && t.queue == s.queue
    ensures RetriesQueued(t)
  {
  }

  lemma RetriesQueuedRetry(s: State, l: Label)
    requires RetriesQueued(s) && Enabled(s, l) && IsRetry(l)
    ensures RetriesQueued(Next(s, l))
  {
    RetryIs(s, l);
    hide Next, Enabled, Unanswered, Marked, Aged;
  }

  lemma NotRestoring(s: State, l: Label)
    requires O.Exclusive(s) && Enabled(s, l) && IsRevocation(l)
    ensures RetriesQueued(Next(s, l))
  {
    RevocationIs(s, l);
    hide Next, Enabled, QueueRevocation, SaveFates, DropRevocations, Urls;
    assert !Next(s, l).restoring;
  }

  lemma RetriesQueuedLaunch(s: State, l: Label)
    requires O.Exclusive(s) && RetriesQueued(s) && Enabled(s, l) && (IsPairing(l) || IsLaunch(l))
    ensures RetriesQueued(Next(s, l))
  {
    if IsPairing(l) {
      PairingIs(s, l);
      hide Next, Enabled, DropRevocations, Urls, Unfinished, O.Busy;
    } else {
      LaunchIs(s, l);
      hide Next, Enabled, O.Exclusive;
    }
  }

  lemma {:induction false} RunsStayExclusive(states: seq<State>, labels: seq<Label>, n: nat)
    requires Run(states, labels) && Init(states[0]) && O.AllWait(labels) && n < |states|
    ensures O.Exclusive(states[n]) && RetriesQueued(states[n])
  {
    hide Enabled, Next, O.Waits;
    if n > 0 {
      RunsStayExclusive(states, labels, n - 1);
      hide O.Exclusive, RetriesQueued, Init;
      assert labels[n - 1] in labels;
      O.ExclusiveStep(states[n - 1], labels[n - 1]);
      RetriesQueuedStep(states[n - 1], labels[n - 1]);
    }
  }

  /** A host that is not queued when its connection is restored has nothing older
    * that could still be sent. */
  lemma RestoredIsSafe(s: State)
    requires O.Exclusive(s) && RetriesQueued(s) && Enabled(s, RestoreOk) && RestoresClean(s, RestoreOk)
    ensures s.stored.Some? && Safe(Next(s, RestoreOk), s.sessions + 1, s.stored.value.url)
  {
    LaunchIs(s, RestoreOk);
    hide Next, Enabled;
    assert forall e <- s.queue :: e.config.url in Urls(s.queue);
  }

  /** A DELETE is of no session before one its host is safe from. */
  lemma DeletesAreTimely(s: State, l: Label, k: nat)
    requires Enabled(s, l) && Issued(s, l) != [] && Issued(s, l)[0].Delete? && Safe(s, k, Issued(s, l)[0].url)
    ensures k <= Issued(s, l)[0].session
  {
    if l.IssueDelete? {
      RevocationIsTimely(s, l.i);
    } else {
      RetryIsTimely(s, l.j);
    }
    hide Enabled, Next, Safe;
  }

  /** From a moment at which `url` is safe from sessions before `k`, no DELETE of one
    * is issued for it. */
  lemma {:induction false} StaysSafe(states: seq<State>, labels: seq<Label>, n: nat, m: nat, k: nat, url: Url)
    requires Run(states, labels) && Init(states[0]) && O.AllWait(labels) && n <= m < |states|
    requires Safe(states[n], k, url) && k <= states[n].sessions
    ensures Safe(states[m], k, url) && k <= states[m].sessions && |states[n].log| <= |states[m].log|
    ensures forall j: nat :: |states[n].log| <= j < |states[m].log| && states[m].log[j].Delete? && states[m].log[j].url == url ==>
      k <= states[m].log[j].session
    decreases m
  {
    hide Enabled, Next, O.Waits, Init, Safe;
    if n < m {
      StaysSafe(states, labels, n, m - 1, k, url);
      RunsStayExclusive(states, labels, m - 1);
      hide O.Exclusive, Issued, O.AllWait;
      var s, l, t := states[m - 1], labels[m - 1], states[m];
      SafeStep(s, l, k, url);
      NextFollows(s, l);
      assert |Issued(s, l)| <= 1 by {
        O.PostIsNotQuiet(s, l);
      }
      if Issued(s, l) != [] && Issued(s, l)[0].Delete? && Issued(s, l)[0].url == url {
        DeletesAreTimely(s, l, k);
      }
    }
  }

  /** A session that is not paired has been begun by a restore. */
  lemma {:induction false} RestoredBy(states: seq<State>, labels: seq<Label>, p: nat) returns (n: nat)
    requires Run(states, labels) && p < |Last(states).log| && Init(states[0])
    requires Last(states).log[p].Started? && !Last(states).log[p].paired
    ensures n < |labels| && labels[n] == RestoreOk && |states[n].log| == p
    ensures states[n].stored.Some? && Last(states).log[p] == Started(states[n].sessions + 1, states[n].stored.value.url, false)
    decreases |labels|
  {
    hide Enabled, Next;
    if labels == [] {
      assert false;
    } else {
      RunPrefix(states, labels);
      hide Init;
      var s, l := Last(states[..|labels|]), labels[|labels| - 1];
      NextFollows(s, l);
      if p < |s.log| {
        n := RestoredBy(states[..|labels|], labels[..|labels| - 1], p);
      } else {
        RestoreStarts(s, l, p);
        n := |labels| - 1;
      }
    }
  }

  lemma RestoreStarts(s: State, l: Label, p: nat)
    requires Enabled(s, l) && |s.log| <= p < |s.log| + |Issued(s, l)|
    requires (s.log + Issued(s, l))[p].Started? && !(s.log + Issued(s, l))[p].paired
    ensures l == RestoreOk && p == |s.log|
    ensures s.stored.Some? && (s.log + Issued(s, l))[p] == Started(s.sessions + 1, s.stored.value.url, false)
  {
    hide Next;
    if l.RestoreOk? {
      LaunchIs(s, l);
    }
    hide Enabled;
  }

  ghost predicate RestoreClean(states: seq<State>, labels: seq<Label>)
    requires |states| == |labels| + 1
  {
    O.AllWait(labels) && forall i :: 0 <= i < |labels| ==> RestoresClean(states[i], labels[i])
  }

  /** Once a connection has been restored as session `k`, its host not being queued,
    * no DELETE for that host is issued for the unpair of an earlier session. */
  lemma NoOlderDeleteAfterRestore(states: seq<State>, labels: seq<Label>, i: nat, j: nat)
    requires Run(states, labels) && Init(states[0]) && RestoreClean(states, labels)
    requires i < j < |Last(states).log|
    requires Last(states).log[i].Started? && !Last(states).log[i].paired && Last(states).log[j].Delete?
    requires Last(states).log[i].url == Last(states).log[j].url
    ensures Last(states).log[i].session <= Last(states).log[j].session
  {
    hide Init, O.AllWait, RestoresClean;
    var n := RestoredBy(states, labels, i);
    RunsStayExclusive(states, labels, n);
    assert states[n + 1] == Next(states[n], RestoreOk) && RestoresClean(states[n], RestoreOk);
    RestoredIsSafe(states[n]);
    NextFollows(states[n], RestoreOk);
    hide Enabled, Next, Safe, O.Exclusive;
    StaysSafe(states, labels, n + 1, |labels|, states[n].sessions + 1, states[n].stored.value.url);
  }

  // ----- and after a POST -----

  /** So after the POST of any session, no DELETE of an earlier session of its host
    * is issued. */
  lemma NoOlderDeleteAfterPost(states: seq<State>, labels: seq<Label>, i: nat, j: nat)
    requires Run(states, labels) && Init(states[0]) && i < j < |Last(states).log|
    requires Last(states).log[i].Post? && Last(states).log[j].Delete?
    requires if Last(states).log[i].paired then MissNothing(states, labels) else RestoreClean(states, labels)
    requires Last(states).log[i].url == Last(states).log[j].url
    ensures Last(states).log[i].session <= Last(states).log[j].session
  {
    assert states != [];
    hide Run, Init, MissNothing, RestoreClean, Backed;
    RunsAreBacked(states, labels);
    var log := Last(states).log;
    var p :| 0 <= p < |log[..i]| && log[..i][p] == Begun(log[i].session, log[i].url, log[i].paired);
    if log[i].paired {
      NoOlderDeleteAfterPairing(states, labels, p, j);
    } else {
      NoOlderDeleteAfterRestore(states, labels, p, j);
    }
  }
}
