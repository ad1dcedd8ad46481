/** Runs that break the guarantees once their conditions are dropped. */
module PushRuns {
  import opened Basics
  import opened PendingRevocations
  import opened PushProtocol
  import opened PushObligations
  import H = PushHistory
  import O = PushOrdering
  import F = PushFreshness

  const HOST: Config := Config("host", "token")
  const OTHER: Config := Config("other", "token")

  const BLANK: State := State(None, [], true, None, [], None, [], Unread, NotPairing, 0, 0, [], {}, {})

  // ----- pieces of runs -----

  /** The pair screen, up to what it reads. */
  lemma StartPairing(labels: seq<Label>, s: State, config: Config, settled: Label)
    requires Leads(labels, s) && s.pairing.NotPairing? && s.session.None? && !s.restoring
    requires settled.SettleBoundExpires? || (settled.PairSettled? && s.retry.RetryDone? && Unfinished(s.revs) == {})
    ensures Leads(labels + [PairStart(config), settled], s.(pairing := PairReading(config)))
  {
    hide Leads, Unfinished;
    var t := s.(pairing := AwaitingRevocations(config, Unfinished(s.revs), !s.retry.RetryDone?));
    Step(labels, s, PairStart(config), t);
    Step(labels + [PairStart(config)], t, settled, s.(pairing := PairReading(config)));
    assert labels + [PairStart(config)] + [settled] == labels + [PairStart(config), settled];
  }

  /** It finds nothing of its host in the queue, or cannot read it. */
  lemma NothingToForget(labels: seq<Label>, s: State, read: Label)
    requires Leads(labels, s) && s.pairing.PairReading?
    requires read.PairReadFails? || (read.PairRead? && s.pairing.config.url !in Urls(s.queue))
    ensures Leads(labels + [read], s.(pairing := Storing(s.pairing.config, false)))
  {
    hide Leads, Urls;
    Step(labels, s, read, s.(pairing := Storing(s.pairing.config, false)));
  }

  /** It drops its host's entry. */
  lemma ForgetForPairing(labels: seq<Label>, s: State)
    requires Leads(labels, s) && s.pairing.PairReading? && s.pairing.config.url in Urls(s.queue)
    ensures Leads(labels + [PairRead, PairForgotten],
                  s.(pairing := Storing(s.pairing.config, true), queue := DropRevocations(s.queue, s.pairing.config.url)))
  {
    var config := s.pairing.config;
    hide Leads, Urls, DropRevocations;
    var t := s.(pairing := PairWriting(config, s.queue));
    Step(labels, s, PairRead, t);
    Step(labels + [PairRead], t, PairForgotten,
         s.(pairing := Storing(config, true), queue := DropRevocations(s.queue, config.url)));
    assert labels + [PairRead] + [PairForgotten] == labels + [PairRead, PairForgotten];
  }

  /** The connection has been stored and its session begun. */
  function Activated(s: State, config: Config): State {
    s.(stored := Some(config), pairing := NotPairing, sessions := s.sessions + 1,
       session := Some(Session(s.sessions + 1, config, true, false)),
       log := s.log + [Paired(s.sessions + 1, config.url), Started(s.sessions + 1, config.url, true)],
       fate := s.fate + {Outcome(Repaired, Leave(config.url, s.sessions))})
  }

  /** The connection has been stored. */
  function PairedWith(s: State, config: Config): State {
    s.(stored := Some(config), pairing := Activating(config), log := s.log + [Paired(s.sessions + 1, config.url)],
       fate := s.fate + {Outcome(Repaired, Leave(config.url, s.sessions))})
  }

  lemma StorePairing(labels: seq<Label>, s: State)
    requires Leads(labels, s) && s.pairing.Storing? && NoErase(s)
    ensures Leads(labels + [PairStored, PairActivated], Activated(s, s.pairing.config))
  {
    var config := s.pairing.config;
    StoreStep(s);
    ActivateStep(s, config);
    hide Leads, Enabled, Next, PairedWith, Activated, NoErase;
    Step(labels, s, PairStored, PairedWith(s, config));
    Step(labels + [PairStored], PairedWith(s, config), PairActivated, Activated(s, config));
    assert labels + [PairStored] + [PairActivated] == labels + [PairStored, PairActivated];
  }

  lemma StoreStep(s: State)
    requires s.pairing.Storing? && NoErase(s)
    ensures Enabled(s, PairStored) && Next(s, PairStored) == PairedWith(s, s.pairing.config)
  {
    hide NoErase;
  }

  lemma ActivateStep(s: State, config: Config)
    ensures Enabled(PairedWith(s, config), PairActivated)
    ensures Next(PairedWith(s, config), PairActivated) == Activated(s, config)
  {
    assert Activated(s, config).log == PairedWith(s, config).log + [Started(s.sessions + 1, config.url, true)];
  }

  /** A pairing of a host that the queue does not hold, or seems not to. */
  lemma Pair(labels: seq<Label>, s: State, config: Config, settled: Label, read: Label)
    requires Leads(labels, s) && s.pairing.NotPairing? && s.session.None? && !s.restoring && NoErase(s)
    requires settled.SettleBoundExpires? || (settled.PairSettled? && s.retry.RetryDone? && Unfinished(s.revs) == {})
    requires read.PairReadFails? || (read.PairRead? && config.url !in Urls(s.queue))
    ensures Leads(labels + [PairStart(config), settled, read, PairStored, PairActivated], Activated(s, config))
  {
    hide Enabled, Next, Leads, Unfinished, Urls;
    StartPairing(labels, s, config, settled);
    var all := labels + [PairStart(config), settled];
    NothingToForget(all, s.(pairing := PairReading(config)), read);
    StorePairing(all + [read], s.(pairing := Storing(config, false)));
    assert all + [read] + [PairStored, PairActivated]
        == labels + [PairStart(config), settled, read, PairStored, PairActivated];
  }

  function OwnRevocation(s: State, phase: RevPhase, erasing: bool): Revocation
    requires s.session.Some?
  {
    Revocation(s.session.value.id, s.session.value.config, phase, erasing)
  }

  /** The session has been left: `read` is what the save made of the queue. */
  function LeftBehind(s: State, read: seq<Entry>): State
    requires s.session.Some?
  {
    var session := s.session.value;
    s.(session := None, queue := QueueRevocation(read, session.config, 0, session.id),
       revs := s.revs + [OwnRevocation(s, AtGate, true)], left := s.left + {Leave(session.config.url, session.id)},
       fate := s.fate + SaveFates(read, session.config, 0, session.id))
  }

  function AboutToSave(s: State, phase: RevPhase): State
    requires s.session.Some?
  {
    s.(session := Some(s.session.value.(leaving := true)), revs := s.revs + [OwnRevocation(s, phase, false)])
  }

  lemma BeginUnpair(labels: seq<Label>, s: State, read: Label)
    requires Leads(labels, s) && s.session.Some? && (read.SaveRead? || read.SaveReadFails?) && read.i == |s.revs|
    ensures var phase := if read.SaveRead? then SaveWriting(s.queue, false) else SaveWriting([], true);
      Leads(labels + [StartUnpair, read], AboutToSave(s, phase))
  {
    hide Leads;
    var phase := if read.SaveRead? then SaveWriting(s.queue, false) else SaveWriting([], true);
    var t, u := AboutToSave(s, SaveReading), AboutToSave(s, phase);
    Step(labels, s, StartUnpair, t);
    assert u.revs == t.revs[|s.revs| := OwnRevocation(s, phase, false)];
    Step(labels + [StartUnpair], t, read, u);
    assert labels + [StartUnpair] + [read] == labels + [StartUnpair, read];
  }

  lemma SaveLeaves(s: State, phase: RevPhase)
    requires s.session.Some? && phase.SaveWriting?
    ensures var t, l := AboutToSave(s, phase), SaveWritten(|s.revs|, 0);
      Enabled(t, l) && Next(t, l) == LeftBehind(s, phase.read)
  {
    hide QueueRevocation, SaveFates;
    var t := AboutToSave(s, phase);
    assert LeftBehind(s, phase.read).revs == t.revs[|s.revs| := OwnRevocation(s, AtGate, true)];
  }

  lemma Unpair(labels: seq<Label>, s: State, read: Label)
    requires Leads(labels, s) && s.session.Some? && (read.SaveRead? || read.SaveReadFails?) && read.i == |s.revs|
    ensures Leads(labels + [StartUnpair, read, SaveWritten(read.i, 0)], LeftBehind(s, if read.SaveRead? then s.queue else []))
  {
    var phase := if read.SaveRead? then SaveWriting(s.queue, false) else SaveWriting([], true);
    SaveLeaves(s, phase);
    hide Leads, Enabled, Next, LeftBehind, AboutToSave;
    BeginUnpair(labels, s, read);
    Step(labels + [StartUnpair, read], AboutToSave(s, phase), SaveWritten(read.i, 0), LeftBehind(s, phase.read));
    assert labels + [StartUnpair, read] + [SaveWritten(read.i, 0)] == labels + [StartUnpair, read, SaveWritten(read.i, 0)];
  }

  function WithErased(s: State, i: nat): State
    requires i < |s.revs|
  {
    s.(stored := None, log := s.log + [Erase(s.revs[i].session)], revs := s.revs[i := s.revs[i].(erasing := false)])
  }

  function WithDelete(s: State, i: nat): State
    requires i < |s.revs|
  {
    s.(revs := s.revs[i := s.revs[i].(phase := Deleting)],
       log := s.log + [Delete(s.revs[i].session, s.revs[i].config.url, true)])
  }

  lemma EraseStored(labels: seq<Label>, s: State, i: nat)
    requires Leads(labels, s) && i < |s.revs| && s.revs[i].erasing
    ensures Leads(labels + [Erased(i)], WithErased(s, i))
  {
    hide Leads;
    Step(labels, s, Erased(i), WithErased(s, i));
  }

  /** The DELETE of revocation `i`, with no registration running. */
  lemma SendDelete(labels: seq<Label>, s: State, i: nat)
    requires Leads(labels, s) && i < |s.revs| && s.revs[i].phase.AtGate? && s.running.None?
    ensures Leads(labels + [GateRead(i), IssueDelete(i)], WithDelete(s, i))
  {
    hide Leads;
    var t := Move(s, i, Sending);
    Step(labels, s, GateRead(i), t);
    assert WithDelete(s, i).revs == t.revs[i := s.revs[i].(phase := Deleting)];
    Step(labels + [GateRead(i)], t, IssueDelete(i), WithDelete(s, i));
    assert labels + [GateRead(i)] + [IssueDelete(i)] == labels + [GateRead(i), IssueDelete(i)];
  }

  /** The first registration of a launch, with its POST. */
  function Registered(s: State, phase: RegPhase): State
    requires s.session.Some?
  {
    var session := s.session.value;
    s.(regs := [Registration(session.id, session.config.url, session.paired, phase, false)], running := Some(0),
       log := if phase.Posting? then s.log + [Post(session.id, session.config.url, session.paired)] else s.log)
  }

  const REGISTER: seq<Label> := [StartRegistration(true), PermissionAnswered(0, true), Minted(0, true)]

  lemma Register(labels: seq<Label>, s: State)
    requires Leads(labels, s) && s.session.Some? && !s.session.value.leaving && s.regs == []
    ensures Leads(labels + REGISTER, Registered(s, Posting))
  {
    hide Leads;
    Step(labels, s, StartRegistration(true), Registered(s, Asking));
    Step(labels + [StartRegistration(true)], Registered(s, Asking), PermissionAnswered(0, true), Registered(s, Minting));
    Step(labels + [StartRegistration(true)] + [PermissionAnswered(0, true)], Registered(s, Minting), Minted(0, true),
         Registered(s, Posting));
    assert labels + [StartRegistration(true)] + [PermissionAnswered(0, true)] + [Minted(0, true)] == labels + REGISTER;
  }

  /** What a crash leaves. */
  function Relaunched(s: State): State {
    BLANK.(stored := s.stored, queue := s.queue, sessions := s.sessions, launched := s.sessions,
           log := s.log + [Crashed], left := s.left, fate := s.fate)
  }

  lemma GoDown(labels: seq<Label>, s: State)
    requires Leads(labels, s)
    ensures Leads(labels + [Crash], Relaunched(s))
  {
    hide Leads;
    Step(labels, s, Crash, Relaunched(s));
  }

  // ----- where the runs begin -----

  const OPENING: seq<Label> :=
    [RestoreFails, RetryRead(0), PairStart(HOST), PairSettled, PairRead, PairStored, PairActivated]

  /** The host has been paired on the first launch. */
  const PAIRED: State :=
    BLANK.(restoring := false, retry := RetryDone, stored := Some(HOST), sessions := 1,
           session := Some(Session(1, HOST, true, false)),
           log := [Paired(1, "host"), Started(1, "host", true)], fate := {Outcome(Repaired, Leave("host", 0))})

  lemma PairOnce()
    ensures Leads(OPENING, PAIRED)
  {
    var s := BLANK.(restoring := false, retry := RetryDone);
    Launch();
    assert Unfinished([]) == {} && Urls([]) == {};
    hide Enabled, Next, Leads, Unfinished, Urls;
    Pair([RestoreFails, RetryRead(0)], s, HOST, PairSettled, PairRead);
    assert [RestoreFails, RetryRead(0)] + [PairStart(HOST), PairSettled, PairRead, PairStored, PairActivated] == OPENING;
    assert Activated(s, HOST) == PAIRED;
  }

  /** Nothing to restore and nothing to retry. */
  lemma Launch()
    ensures Leads([RestoreFails, RetryRead(0)], BLANK.(restoring := false, retry := RetryDone))
  {
    assert Run([BLANK], []) && Last([BLANK]) == BLANK;
    assert Leads([], BLANK);
    assert LivePending([], 0) == [];
    hide Leads, LivePending;
    Step([], BLANK, RestoreFails, BLANK.(restoring := false));
    Step([] + [RestoreFails], BLANK.(restoring := false), RetryRead(0), BLANK.(restoring := false, retry := RetryDone));
    assert [] + [RestoreFails] + [RetryRead(0)] == [RestoreFails, RetryRead(0)];
  }

  const QUEUED: seq<Entry> := [Entry(HOST, 0, 1)]

  /** Its unpair has saved the revocation; the erase is under way. */
  const LEAVING: State :=
    PAIRED.(session := None, queue := QUEUED, revs := [Revocation(1, HOST, AtGate, true)], left := {Leave("host", 1)})

  const UNPAIR: seq<Label> := [StartUnpair, SaveRead(0), SaveWritten(0, 0)]

  lemma FirstSave(config: Config, session: nat)
    ensures QueueRevocation([], config, 0, session) == [Entry(config, 0, session)]
    ensures SaveFates([], config, 0, session) == {}
  {
    assert Others([], config.url, 0) == [];
    assert ExpiredLeaves([], 0) == {} && CappedLeaves([], config, 0, session) == {};
  }

  lemma UnpairOnce()
    ensures Leads(OPENING + UNPAIR, LEAVING)
  {
    PairOnce();
    FirstSave(HOST, 1);
    hide Enabled, Next, Leads, QueueRevocation, SaveFates;
    Unpair(OPENING, PAIRED, SaveRead(0));
    assert LeftBehind(PAIRED, []) == LEAVING;
  }

  /** The host did not answer: it waits in the queue. */
  const WAITING: State :=
    PAIRED.(session := None, stored := None, queue := QUEUED, left := {Leave("host", 1)},
            revs := [Revocation(1, HOST, Ended, false)],
            log := PAIRED.log + [Erase(1), Delete(1, "host", true)])

  const ASKED: seq<Label> := [Erased(0), GateRead(0), IssueDelete(0)]

  const UNANSWERED: seq<Label> := [Erased(0), GateRead(0), IssueDelete(0), DeleteAnswered(0, false)]

  lemma AwaitAnswer()
    ensures Leads(OPENING + UNPAIR + ASKED, WAITING.(revs := [Revocation(1, HOST, Deleting, false)]))
  {
    UnpairOnce();
    hide Enabled, Next, Leads;
    var s := WithErased(LEAVING, 0);
    EraseStored(OPENING + UNPAIR, LEAVING, 0);
    SendDelete(OPENING + UNPAIR + [Erased(0)], s, 0);
    assert OPENING + UNPAIR + [Erased(0)] + [GateRead(0), IssueDelete(0)] == OPENING + UNPAIR + ASKED;
    assert WithDelete(s, 0) == WAITING.(revs := [Revocation(1, HOST, Deleting, false)]);
  }

  lemma WaitInQueue()
    ensures Leads(OPENING + UNPAIR + UNANSWERED, WAITING)
  {
    AwaitAnswer();
    hide Leads;
    Step(OPENING + UNPAIR + ASKED, WAITING.(revs := [Revocation(1, HOST, Deleting, false)]), DeleteAnswered(0, false), WAITING);
    assert OPENING + UNPAIR + ASKED + [DeleteAnswered(0, false)] == OPENING + UNPAIR + UNANSWERED;
  }

  lemma HostIsQueued()
    ensures Urls(QUEUED) == {"host"} && Unfinished(WAITING.revs) == {}
  {
  }

  // ----- order -----

  const OLD: Registration := Registration(1, "host", true, Minting, false)

  const TWO_REGISTRATIONS: seq<Label> :=
    [StartRegistration(true), PermissionAnswered(0, true), StartRegistration(false), PermissionAnswered(1, false)]

  lemma RegisterTwice()
    ensures Leads(OPENING + TWO_REGISTRATIONS, PAIRED.(regs := [OLD, OLD.(phase := Over)]))
  {
    PairOnce();
    hide Leads;
    var s := PAIRED.(regs := [OLD.(phase := Asking)], running := Some(0));
    Step(OPENING, PAIRED, StartRegistration(true), s);
    assert OPENING + [StartRegistration(true)] == OPENING + TWO_REGISTRATIONS[..1];
    Step(OPENING + TWO_REGISTRATIONS[..1], s, PermissionAnswered(0, true), s.(regs := [OLD]));
    var t := s.(regs := [OLD, OLD.(phase := Asking)], running := Some(1));
    assert OPENING + TWO_REGISTRATIONS[..1] + [PermissionAnswered(0, true)] == OPENING + TWO_REGISTRATIONS[..2];
    Step(OPENING + TWO_REGISTRATIONS[..2], s.(regs := [OLD]), StartRegistration(false), t);
    assert OPENING + TWO_REGISTRATIONS[..2] + [StartRegistration(false)] == OPENING + TWO_REGISTRATIONS[..3];
    Step(OPENING + TWO_REGISTRATIONS[..3], t, PermissionAnswered(1, false), PAIRED.(regs := [OLD, OLD.(phase := Over)]));
    assert OPENING + TWO_REGISTRATIONS[..3] + [PermissionAnswered(1, false)] == OPENING + TWO_REGISTRATIONS;
  }

  /** Were a registration started without aborting the one before it, the gate
    * would wait for the newer one only, and the older could still post after
    * the unpair's DELETE. */
  lemma WithoutAbortAPostCanFollow()
    ensures exists t ::
      Leads(OPENING + TWO_REGISTRATIONS + UNPAIR + [GateRead(0), IssueDelete(0), Minted(0, true)], t)
      && t.log == PAIRED.log + [Delete(1, "host", true), Post(1, "host", true)]
  {
    RegisterTwice();
    FirstSave(HOST, 1);
    hide Leads, QueueRevocation, SaveFates;
    var s, labels := PAIRED.(regs := [OLD, OLD.(phase := Over)]), OPENING + TWO_REGISTRATIONS;
    Unpair(labels, s, SaveRead(0));
    var left := LeftBehind(s, []);
    SendDelete(labels + UNPAIR, left, 0);
    var asked := WithDelete(left, 0);
    var t := asked.(regs := [OLD.(phase := Posting), OLD.(phase := Over)], log := asked.log + [Post(1, "host", true)]);
    Step(labels + UNPAIR + [GateRead(0), IssueDelete(0)], asked, Minted(0, true), t);
    assert labels + UNPAIR + [GateRead(0), IssueDelete(0)] + [Minted(0, true)]
        == labels + UNPAIR + [GateRead(0), IssueDelete(0), Minted(0, true)];
  }

  /** The exemption of `NoPostAfterUnpair` is exact: from every moment at which a
    * connection is stored, a crash lets the next launch restore it and register
    * with its host, with no pairing in between. */
  lemma ARelaunchRegistersWhatIsStored(labels: seq<Label>, s: State) returns (t: State)
    requires Leads(labels, s) && s.stored.Some?
    ensures Leads(labels + [Crash, RestoreOk] + REGISTER, t)
    ensures var n, url := s.sessions + 1, s.stored.value.url;
      t.log == s.log + [Crashed, Started(n, url, false), Post(n, url, false)]
    ensures t.retry.Unread? && t.queue == s.queue
  {
    hide Leads;
    var down := Relaunched(s);
    GoDown(labels, s);
    RestoreAndRegister(labels + [Crash], down);
    assert labels + [Crash] + [RestoreOk] == labels + [Crash, RestoreOk];
    t := Registered(Restored(down), Posting);
  }

  /** The stored connection has been restored. */
  function Restored(s: State): State
    requires s.stored.Some?
  {
    s.(restoring := false, sessions := s.sessions + 1,
       session := Some(Session(s.sessions + 1, s.stored.value, false, false)),
       log := s.log + [Started(s.sessions + 1, s.stored.value.url, false)])
  }

  lemma RestoreAndRegister(labels: seq<Label>, s: State)
    requires Leads(labels, s) && s.restoring && s.stored.Some? && s.regs == []
    ensures Leads(labels + [RestoreOk] + REGISTER, Registered(Restored(s), Posting))
  {
    hide Leads;
    Step(labels, s, RestoreOk, Restored(s));
    Register(labels + [RestoreOk], Restored(s));
  }

  /** So an unpair whose DELETE has gone out before the erase has taken effect can
    * be undone by a crash. */
  lemma ARelaunchCanRegisterAgain()
    ensures exists t ::
      Leads(OPENING + UNPAIR + [GateRead(0), IssueDelete(0)] + [Crash, RestoreOk] + REGISTER, t)
      && t.log == PAIRED.log + [Delete(1, "host", true), Crashed, Started(2, "host", false), Post(2, "host", false)]
  {
    UnpairOnce();
    hide Enabled, Next, Leads;
    SendDelete(OPENING + UNPAIR, LEAVING, 0);
    var t := ARelaunchRegistersWhatIsStored(OPENING + UNPAIR + [GateRead(0), IssueDelete(0)], WithDelete(LEAVING, 0));
  }

  /** Were pairing to give up waiting for the revocation under way, the DELETE of
    * the session before could follow the new session's POST. */
  lemma WithoutSettlingAnOlderDeleteCanFollow()
    ensures exists t ::
      Leads(OPENING + UNPAIR + [Erased(0)] + [PairStart(HOST), SettleBoundExpires, PairRead, PairForgotten]
            + [PairStored, PairActivated] + [GateRead(0)] + REGISTER + [IssueDelete(0)], t)
      && t.log == PAIRED.log + [Erase(1), Paired(2, "host"), Started(2, "host", true), Post(2, "host", true),
                                Delete(1, "host", true)]
  {
    UnpairOnce();
    hide Enabled, Next, Leads;
    var s := WithErased(LEAVING, 0);
    EraseStored(OPENING + UNPAIR, LEAVING, 0);
    PairImpatiently(OPENING + UNPAIR + [Erased(0)], s);
    var again := Activated(s.(queue := []), HOST);
    var labels := OPENING + UNPAIR + [Erased(0)] + [PairStart(HOST), SettleBoundExpires, PairRead, PairForgotten]
                  + [PairStored, PairActivated];
    var t := DeleteTooLate(labels, again);
  }

  lemma PairImpatiently(labels: seq<Label>, s: State)
    requires Leads(labels, s) && s == WithErased(LEAVING, 0)
    ensures Leads(labels + [PairStart(HOST), SettleBoundExpires, PairRead, PairForgotten] + [PairStored, PairActivated],
                  Activated(s.(queue := []), HOST))
  {
    HostIsQueued();
    assert DropRevocations(QUEUED, "host") == [];
    hide Enabled, Next, Leads, Urls, DropRevocations;
    StartPairing(labels, s, HOST, SettleBoundExpires);
    ForgetForPairing(labels + [PairStart(HOST), SettleBoundExpires], s.(pairing := PairReading(HOST)));
    assert labels + [PairStart(HOST), SettleBoundExpires] + [PairRead, PairForgotten]
        == labels + [PairStart(HOST), SettleBoundExpires, PairRead, PairForgotten];
    StorePairing(labels + [PairStart(HOST), SettleBoundExpires, PairRead, PairForgotten],
                 s.(pairing := Storing(HOST, true), queue := []));
  }

  lemma DeleteTooLate(labels: seq<Label>, s: State) returns (t: State)
    requires Leads(labels, s) && s.revs == [Revocation(1, HOST, AtGate, false)]
    requires s.regs == [] && s.running == None && s.session == Some(Session(2, HOST, true, false))
    ensures Leads(labels + [GateRead(0)] + REGISTER + [IssueDelete(0)], t)
    ensures t.log == s.log + [Post(2, "host", true), Delete(1, "host", true)]
  {
    hide Leads;
    var waited := s.(revs := [Revocation(1, HOST, Sending, false)]);
    Step(labels, s, GateRead(0), waited);
    Register(labels + [GateRead(0)], waited);
    t := IssueAtLast(labels + [GateRead(0)] + REGISTER, Registered(waited, Posting));
  }

  lemma IssueAtLast(labels: seq<Label>, s: State) returns (t: State)
    requires Leads(labels, s) && s.revs == [Revocation(1, HOST, Sending, false)]
    ensures Leads(labels + [IssueDelete(0)], t) && t.log == s.log + [Delete(1, "host", true)]
  {
    hide Leads;
    t := s.(revs := [Revocation(1, HOST, Deleting, false)], log := s.log + [Delete(1, "host", true)]);
    Step(labels, s, IssueDelete(0), t);
  }

  /** Were the queue unreadable for the pairing of a host that is in it, the retry
    * of a later launch would take its new registration down. */
  lemma WithoutReadingAnOlderDeleteCanFollow()
    ensures exists t ::
      Leads(OPENING + UNPAIR + UNANSWERED + [PairStart(HOST), PairSettled, PairReadFails, PairStored, PairActivated]
            + REGISTER + [Crash] + [RetryRead(0), RetryDelete(0)], t)
      && t.log == WAITING.log + [Paired(2, "host"), Started(2, "host", true), Post(2, "host", true), Crashed,
                                 Delete(1, "host", false)]
  {
    WaitInQueue();
    HostIsQueued();
    hide Enabled, Next, Leads, Unfinished, Urls;
    var labels := OPENING + UNPAIR + UNANSWERED;
    Pair(labels, WAITING, HOST, PairSettled, PairReadFails);
    var s := Activated(WAITING, HOST);
    Register(labels + [PairStart(HOST), PairSettled, PairReadFails, PairStored, PairActivated], s);
    RetryAfterCrash(labels + [PairStart(HOST), PairSettled, PairReadFails, PairStored, PairActivated] + REGISTER,
                    Registered(s, Posting));
  }

  /** A launch retries entry `j` of what is queued. */
  function Retried(s: State, entries: seq<Entry>, j: nat): State
    requires j < |entries|
  {
    s.(retry := Retrying(s.queue, entries, {j}, map[]),
       log := s.log + [Delete(entries[j].session, entries[j].config.url, false)])
  }

  lemma RetryOne(labels: seq<Label>, s: State, now: int, j: nat)
    requires Leads(labels, s) && s.retry.Unread? && j < |LivePending(s.queue, now)|
    ensures Leads(labels + [RetryRead(now), RetryDelete(j)], Retried(s, LivePending(s.queue, now), j))
  {
    var entries := LivePending(s.queue, now);
    hide Leads, LivePending;
    var reading := s.(retry := Retrying(s.queue, entries, {}, map[]));
    Step(labels, s, RetryRead(now), reading);
    assert {} + {j} == {j};
    Step(labels + [RetryRead(now)], reading, RetryDelete(j), Retried(s, entries, j));
    assert labels + [RetryRead(now)] + [RetryDelete(j)] == labels + [RetryRead(now), RetryDelete(j)];
  }

  lemma RetryAfterCrash(labels: seq<Label>, s: State)
    requires Leads(labels, s) && s.queue == QUEUED
    ensures Leads(labels + [Crash] + [RetryRead(0), RetryDelete(0)], Retried(Relaunched(s), QUEUED, 0))
  {
    HostIsLive();
    hide Enabled, Next, Leads, LivePending;
    GoDown(labels, s);
    RetryOne(labels + [Crash], Relaunched(s), 0, 0);
  }

  /** The erases under way come to an end. */
  lemma {:induction false} FinishErases(labels: seq<Label>, s: State, n: nat)
    returns (more: seq<Label>, erased: seq<Event>, t: State)
    requires Leads(labels, s) && n <= |s.revs| && forall i: nat :: n <= i < |s.revs| ==> !s.revs[i].erasing
    ensures Leads(labels + more, t) && NoErase(t)
    ensures forall l <- more :: l.Erased?
    ensures t == s.(stored := t.stored, revs := t.revs, log := s.log + erased) && forall e <- erased :: e.Erase?
    decreases n
  {
    hide Leads;
    if n == 0 {
      more, erased, t := [], [], s;
      assert labels + [] == labels && s.log + [] == s.log;
    } else if s.revs[n - 1].erasing {
      EraseStored(labels, s, n - 1);
      var rest, others;
      rest, others, t := FinishErases(labels + [Erased(n - 1)], WithErased(s, n - 1), n - 1);
      more, erased := [Erased(n - 1)] + rest, [Erase(s.revs[n - 1].session)] + others;
      assert labels + [Erased(n - 1)] + rest == labels + more;
      assert s.log + [Erase(s.revs[n - 1].session)] + others == s.log + erased;
    } else {
      more, erased, t := FinishErases(labels, s, n - 1);
    }
  }

  /** The condition of `NoOlderDeleteAfterPairing` is exact: from every moment at
    * which the queue holds the host being paired and reading it fails, the pairing
    * can be stored, once the erases under way are over, and a later launch issue the
    * older DELETE after it. */
  lemma AFailedReadLetsAnOlderDeleteThrough(labels: seq<Label>, s: State)
    returns (more: seq<Label>, erased: seq<Event>, now: int, j: nat, e: Entry, t: State)
    requires Leads(labels, s) && Enabled(s, PairReadFails) && !O.MissesNothing(s, PairReadFails)
    ensures Leads(labels + [PairReadFails] + more + [PairStored, PairActivated] + [Crash] + [RetryRead(now), RetryDelete(j)], t)
    ensures (forall l <- more :: l.Erased?) && (forall d <- erased :: d.Erase?)
    ensures e.config.url == s.pairing.config.url && e.session < s.sessions + 1
    ensures var n, url := s.sessions + 1, e.config.url;
      t.log == s.log + erased + [Paired(n, url), Started(n, url, true), Crashed, Delete(e.session, url, false)]
  {
    hide Enabled, Next, Leads, LivePending, H.Bounded, O.MissesNothing, Urls;
    ReadingPairing(s);
    LedIsBounded(labels, s);
    now, j, e := OldEntry(s, s.pairing.config.url);
    var u;
    more, erased, u := FailAndErase(labels, s);
    t := StoreAndRetry(labels + [PairReadFails] + more, u, now, j, e);
  }

  lemma FailAndErase(labels: seq<Label>, s: State) returns (more: seq<Label>, erased: seq<Event>, t: State)
    requires Leads(labels, s) && s.pairing.PairReading?
    ensures Leads(labels + [PairReadFails] + more, t) && NoErase(t)
    ensures (forall l <- more :: l.Erased?) && (forall d <- erased :: d.Erase?)
    ensures t.pairing == Storing(s.pairing.config, false) && t.log == s.log + erased
    ensures t.queue == s.queue && t.sessions == s.sessions
  {
    hide Enabled, Next, Leads, NoErase;
    var u := s.(pairing := Storing(s.pairing.config, false));
    NothingToForget(labels, s, PairReadFails);
    more, erased, t := FinishErases(labels + [PairReadFails], u, |u.revs|);
  }

  lemma ReadingPairing(s: State)
    requires Enabled(s, PairReadFails) && !O.MissesNothing(s, PairReadFails)
    ensures s.pairing.PairReading? && s.pairing.config.url in Urls(s.queue)
  {
    PairingIs(s, PairReadFails);
  }

  lemma StoreAndRetry(labels: seq<Label>, s: State, now: int, j: nat, e: Entry) returns (t: State)
    requires Leads(labels, s) && s.pairing.Storing? && NoErase(s)
    requires j < |LivePending(s.queue, now)| && LivePending(s.queue, now)[j] == e
    ensures Leads(labels + [PairStored, PairActivated] + [Crash] + [RetryRead(now), RetryDelete(j)], t)
    ensures var n, url := s.sessions + 1, s.pairing.config.url;
      t.log == s.log + [Paired(n, url), Started(n, url, true), Crashed, Delete(e.session, e.config.url, false)]
  {
    hide Enabled, Next, Leads, LivePending;
    StorePairing(labels, s);
    var paired := Activated(s, s.pairing.config);
    t := GoDownAndRetry(labels + [PairStored, PairActivated], paired, now, j);
  }

  lemma GoDownAndRetry(labels: seq<Label>, s: State, now: int, j: nat) returns (t: State)
    requires Leads(labels, s) && j < |LivePending(s.queue, now)|
    ensures Leads(labels + [Crash] + [RetryRead(now), RetryDelete(j)], t)
    ensures var e := LivePending(s.queue, now)[j];
      t.log == s.log + [Crashed, Delete(e.session, e.config.url, false)]
  {
    hide Enabled, Next, Leads, LivePending;
    GoDown(labels, s);
    RetryOne(labels + [Crash], Relaunched(s), now, j);
    t := Retried(Relaunched(s), LivePending(s.queue, now), j);
  }

  lemma LedIsBounded(labels: seq<Label>, s: State)
    requires Leads(labels, s)
    ensures H.Bounded(s)
  {
    var states :| Run(states, labels) && states != [] && Init(states[0]) && Last(states) == s;
    H.RunsStayBounded(states, labels);
  }

  /** An entry of a queued host, and a moment at which it is live. */
  lemma OldEntry(s: State, url: Url) returns (now: int, j: nat, e: Entry)
    requires H.Bounded(s) && url in Urls(s.queue)
    ensures j < |LivePending(s.queue, now)| && LivePending(s.queue, now)[j] == e
    ensures e.config.url == url && e.session <= s.sessions
  {
    e :| e in s.queue && e.config.url == url;
    now := e.queuedAt;
    assert IsLive(e, now);
    var entries := LivePending(s.queue, now);
    j :| 0 <= j < |entries| && entries[j] == e;
  }

  /** And so is that of `NoOlderDeleteAfterRestore`: from every moment at which a
    * connection is restored whose host is queued, its session can register and a
    * later launch issue the older DELETE after that. */
  lemma ARestoreLetsAnOlderDeleteThrough(labels: seq<Label>, s: State)
    returns (now: int, j: nat, e: Entry, t: State)
    requires Leads(labels, s) && Enabled(s, RestoreOk) && !F.RestoresClean(s, RestoreOk)
    ensures Leads(labels + [RestoreOk] + REGISTER + [Crash] + [RetryRead(now), RetryDelete(j)], t)
    ensures e.session < s.sessions + 1
    ensures var n, url := s.sessions + 1, e.config.url;
      t.log == s.log + [Started(n, url, false), Post(n, url, false), Crashed, Delete(e.session, url, false)]
  {
    hide Enabled, Next, Leads, LivePending, H.Bounded, F.RestoresClean, Urls;
    RestoringQueued(s);
    LedIsBounded(labels, s);
    now, j, e := OldEntry(s, s.stored.value.url);
    RestoringHasNoRegistration(labels, s);
    RestoreAndRegister(labels, s);
    var restored := Registered(Restored(s), Posting);
    t := GoDownAndRetry(labels + [RestoreOk] + REGISTER, restored, now, j);
  }

  lemma RestoringQueued(s: State)
    requires Enabled(s, RestoreOk) && !F.RestoresClean(s, RestoreOk)
    ensures s.restoring && s.stored.Some? && s.stored.value.url in Urls(s.queue)
  {
    LaunchIs(s, RestoreOk);
  }

  lemma RestoringHasNoRegistration(labels: seq<Label>, s: State)
    requires Leads(labels, s) && s.restoring
    ensures s.regs == []
  {
    var states :| Run(states, labels) && states != [] && Init(states[0]) && Last(states) == s;
    H.RunsAreBacked(states, labels);
  }

  /** An unpair cut off between its save and its erase is restored by the next launch,
    * and the retry then takes the restored session's registration down. */
  lemma ARestoredSessionCanBeTakenDown()
    ensures exists t ::
      Leads(OPENING + UNPAIR + [Crash, RestoreOk] + REGISTER + [RetryRead(0), RetryDelete(0)], t)
      && t.log == PAIRED.log + [Crashed, Started(2, "host", false), Post(2, "host", false), Delete(1, "host", false)]
  {
    UnpairOnce();
    HostIsLive();
    hide Enabled, Next, Leads, LivePending;
    var s := ARelaunchRegistersWhatIsStored(OPENING + UNPAIR, LEAVING);
    RetryOne(OPENING + UNPAIR + [Crash, RestoreOk] + REGISTER, s, 0, 0);
  }

  /** A launch that cannot reach the host it has stored discards the connection, and
    * queues no revocation for it: nothing was unpaired. */
  lemma AFailedRestoreQueuesNothing()
    ensures exists t ::
      Leads(OPENING + REGISTER + [Crash] + [RestoreFails], t)
      && t.log == PAIRED.log + [Post(1, "host", true), Crashed] && t.stored == None && t.queue == [] && t.left == {}
  {
    PairOnce();
    hide Leads;
    Register(OPENING, PAIRED);
    GoDown(OPENING + REGISTER, Registered(PAIRED, Posting));
    var s := Relaunched(Registered(PAIRED, Posting));
    Step(OPENING + REGISTER + [Crash], s, RestoreFails, s.(stored := None, restoring := false));
  }

  // ----- durability -----

  /** Left, neither stored nor queued nor being paired, and without an outcome. */
  ghost predicate Forgotten(s: State, l: Leave) {
    l in s.left && !Kept(s, l)
  }

  lemma Lost(s: State, l: Leave)
    requires l in s.left && !Stored(s, l) && !s.pairing.Storing?
    requires (forall e <- s.queue :: e.config.url != l.url) && (forall o <- s.fate :: !Covers(o.leave, l))
    ensures Forgotten(s, l)
  {
  }

  /** A crash between dropping a host's entry for its pairing and storing that
    * pairing: the host is neither stored nor queued, and keeps its registration. */
  lemma ACrashInPairingForgetsTheHost()
    ensures exists t ::
      Leads(OPENING + UNPAIR + UNANSWERED + [PairStart(HOST), PairSettled] + [PairRead, PairForgotten] + [Crash], t)
      && Forgotten(t, Leave("host", 1))
  {
    WaitInQueue();
    HostIsQueued();
    assert DropRevocations(QUEUED, "host") == [];
    hide Enabled, Next, Leads, Unfinished, Urls, DropRevocations;
    var labels, s := OPENING + UNPAIR + UNANSWERED, WAITING;
    StartPairing(labels, s, HOST, PairSettled);
    ForgetForPairing(labels + [PairStart(HOST), PairSettled], s.(pairing := PairReading(HOST)));
    var dropped := s.(pairing := Storing(HOST, true), queue := []);
    GoDown(labels + [PairStart(HOST), PairSettled] + [PairRead, PairForgotten], dropped);
    Lost(Relaunched(dropped), Leave("host", 1));
  }

  /** An unpair whose read of the queue fails takes it for empty, and its save
    * overwrites the host that was waiting. */
  lemma AFailedReadForgetsTheQueue()
    ensures exists t ::
      Leads(OPENING + UNPAIR + UNANSWERED + [PairStart(OTHER), PairSettled, PairRead, PairStored, PairActivated]
            + [StartUnpair, SaveReadFails(1), SaveWritten(1, 0)] + [Erased(1)], t)
      && t.queue == [Entry(OTHER, 0, 2)] && Forgotten(t, Leave("host", 1))
  {
    WaitInQueue();
    HostIsQueued();
    hide Enabled, Next, Leads, Unfinished, Urls, Forgotten;
    Pair(OPENING + UNPAIR + UNANSWERED, WAITING, OTHER, PairSettled, PairRead);
    var t := UnpairUnread(OPENING + UNPAIR + UNANSWERED + [PairStart(OTHER), PairSettled, PairRead, PairStored, PairActivated],
                          Activated(WAITING, OTHER), 1);
  }

  /** An unpair of the other host that cannot read the queue. */
  lemma UnpairUnread(labels: seq<Label>, s: State, i: nat) returns (t: State)
    requires Leads(labels, s) && s.session == Some(Session(2, OTHER, true, false)) && |s.revs| == i
    requires Leave("host", 1) in s.left && !s.pairing.Storing? && forall o <- s.fate :: !Covers(o.leave, Leave("host", 1))
    ensures Leads(labels + [StartUnpair, SaveReadFails(i), SaveWritten(i, 0)] + [Erased(i)], t)
    ensures t.queue == [Entry(OTHER, 0, 2)] && Forgotten(t, Leave("host", 1))
  {
    FirstSave(OTHER, 2);
    hide Enabled, Next, Leads, QueueRevocation, SaveFates, Forgotten;
    Unpair(labels, s, SaveReadFails(i));
    var left := LeftBehind(s, []);
    EraseStored(labels + [StartUnpair, SaveReadFails(i), SaveWritten(i, 0)], left, i);
    t := WithErased(left, i);
    Lost(t, Leave("host", 1));
  }

  // ----- hosts left but stored still -----

  /** The app went down before the erase, and the next launch could not restore the
    * connection; the retry was not answered and wrote the entry back. */
  const DISCARDED: State :=
    BLANK.(restoring := false, retry := RetryDone, queue := QUEUED, sessions := 1, launched := 1,
           log := PAIRED.log + [Crashed], left := {Leave("host", 1)}, fate := PAIRED.fate)

  const DISCARD: seq<Label> := [Crash] + [RestoreFails] + [RetryRead(0), RetryAnswered(0, NotNow), RetryWritten]

  lemma DiscardOnce()
    ensures Leads(OPENING + UNPAIR + DISCARD, DISCARDED)
  {
    UnpairOnce();
    hide Leads;
    var labels, down := OPENING + UNPAIR + [Crash], Relaunched(LEAVING).(stored := None, restoring := false);
    GoDown(OPENING + UNPAIR, LEAVING);
    Step(labels, Relaunched(LEAVING), RestoreFails, down);
    RetryInVain(labels + [RestoreFails], down);
    assert labels + [RestoreFails] + [RetryRead(0), RetryAnswered(0, NotNow), RetryWritten] == OPENING + UNPAIR + DISCARD;
  }

  /** The retry reads the one entry, gets no answer and writes it back. */
  lemma RetryInVain(labels: seq<Label>, s: State)
    requires Leads(labels, s) && s.retry.Unread? && s.queue == QUEUED
    ensures Leads(labels + [RetryRead(0), RetryAnswered(0, NotNow), RetryWritten], s.(retry := RetryDone))
  {
    HostIsLive();
    NothingAnswered();
    hide Leads, LivePending, Unanswered, Aged;
    var read, answered := Retrying(QUEUED, QUEUED, {}, map[]), Retrying(QUEUED, QUEUED, {}, map[0 := NotNow]);
    Step(labels, s, RetryRead(0), s.(retry := read));
    assert map[][0 as nat := NotNow] == map[0 := NotNow];
    Step(labels + [RetryRead(0)], s.(retry := read), RetryAnswered(0, NotNow), s.(retry := answered));
    Step(labels + [RetryRead(0)] + [RetryAnswered(0, NotNow)], s.(retry := answered), RetryWritten, s.(retry := RetryDone));
    assert labels + [RetryRead(0)] + [RetryAnswered(0, NotNow)] + [RetryWritten]
        == labels + [RetryRead(0), RetryAnswered(0, NotNow), RetryWritten];
  }

  lemma HostIsLive()
    ensures LivePending(QUEUED, 0) == QUEUED
  {
  }

  lemma NothingAnswered()
    ensures Unanswered(QUEUED, map[0 := NotNow]) == QUEUED
    ensures Aged(Retrying(QUEUED, QUEUED, {}, map[0 := NotNow])) == {} && Marked(Expired, {}) == {}
  {
    assert QUEUED[..0] == [];
  }

  /** An unpair cut off before its erase, whose connection the next launch cannot
    * restore and so discards, is as forgetful as any other: dropped for a pairing
    * that a crash cuts off in its turn, its host is nowhere any more. */
  lemma ADiscardedHostCanBeForgotten()
    ensures exists t ::
      Leads(OPENING + UNPAIR + DISCARD + [PairStart(HOST), PairSettled] + [PairRead, PairForgotten] + [Crash], t)
      && t.stored == None && t.queue == [] && Forgotten(t, Leave("host", 1))
  {
    DiscardOnce();
    HostIsQueued();
    assert Unfinished([]) == {} && DropRevocations(QUEUED, "host") == [];
    hide Enabled, Next, Leads, Unfinished, Urls, DropRevocations, Forgotten;
    var labels, s := OPENING + UNPAIR + DISCARD, DISCARDED;
    StartPairing(labels, s, HOST, PairSettled);
    ForgetForPairing(labels + [PairStart(HOST), PairSettled], s.(pairing := PairReading(HOST)));
    var dropped := s.(pairing := Storing(HOST, true), queue := []);
    GoDown(labels + [PairStart(HOST), PairSettled] + [PairRead, PairForgotten], dropped);
    Lost(Relaunched(dropped), Leave("host", 1));
  }

  /** Or a failed read for the unpair of another host overwrites its entry. */
  lemma AFailedReadForgetsADiscardedHost()
    ensures exists t ::
      Leads(OPENING + UNPAIR + DISCARD + [PairStart(OTHER), PairSettled, PairRead, PairStored, PairActivated]
            + [StartUnpair, SaveReadFails(0), SaveWritten(0, 0)] + [Erased(0)], t)
      && t.queue == [Entry(OTHER, 0, 2)] && Forgotten(t, Leave("host", 1))
  {
    DiscardOnce();
    HostIsQueued();
    assert Unfinished([]) == {};
    hide Enabled, Next, Leads, Unfinished, Urls, Forgotten;
    Pair(OPENING + UNPAIR + DISCARD, DISCARDED, OTHER, PairSettled, PairRead);
    var t := UnpairUnread(OPENING + UNPAIR + DISCARD + [PairStart(OTHER), PairSettled, PairRead, PairStored, PairActivated],
                          Activated(DISCARDED, OTHER), 0);
  }

  /** The erase of an unpair has failed, and its host has not answered. */
  const UNERASED: State := WAITING.(stored := Some(HOST), log := PAIRED.log + [Delete(1, "host", true)])

  const FAIL_TO_ERASE: seq<Label> := [EraseFails(0)] + [GateRead(0), IssueDelete(0)] + [DeleteAnswered(0, false)]

  const DROP: seq<Label> := [PairStart(HOST), PairSettled] + [PairRead, PairForgotten]

  /** Its host is then dropped from the queue for a pairing. */
  lemma DropUnerased()
    ensures Leads(OPENING + UNPAIR + FAIL_TO_ERASE + DROP, UNERASED.(pairing := Storing(HOST, true), queue := []))
  {
    FailToErase();
    HostIsQueued();
    assert DropRevocations(QUEUED, "host") == [];
    hide Enabled, Next, Leads, Unfinished, Urls, DropRevocations;
    var labels := OPENING + UNPAIR + FAIL_TO_ERASE;
    StartPairing(labels, UNERASED, HOST, PairSettled);
    ForgetForPairing(labels + [PairStart(HOST), PairSettled], UNERASED.(pairing := PairReading(HOST)));
    assert labels + [PairStart(HOST), PairSettled] + [PairRead, PairForgotten] == labels + DROP;
  }

  lemma FailToErase()
    ensures Leads(OPENING + UNPAIR + FAIL_TO_ERASE, UNERASED)
  {
    UnpairOnce();
    hide Leads;
    var labels, s := OPENING + UNPAIR, LEAVING.(revs := [Revocation(1, HOST, AtGate, false)]);
    Step(labels, LEAVING, EraseFails(0), s);
    SendDelete(labels + [EraseFails(0)], s, 0);
    Step(labels + [EraseFails(0)] + [GateRead(0), IssueDelete(0)], WithDelete(s, 0), DeleteAnswered(0, false), UNERASED);
    assert labels + [EraseFails(0)] + [GateRead(0), IssueDelete(0)] + [DeleteAnswered(0, false)] == labels + FAIL_TO_ERASE;
  }

  /** After a crash only the connection itself is left of it, until the next launch
    * fails to restore that. */
  lemma AFailedRestoreForgetsTheHost()
    ensures exists t ::
      Leads(OPENING + UNPAIR + FAIL_TO_ERASE + DROP + [Crash] + [RestoreFails], t)
      && t.stored == None && t.queue == [] && Forgotten(t, Leave("host", 1))
  {
    DropUnerased();
    hide Leads, Forgotten;
    var s := UNERASED.(pairing := Storing(HOST, true), queue := []);
    GoDown(OPENING + UNPAIR + FAIL_TO_ERASE + DROP, s);
    var t := Relaunched(s).(stored := None, restoring := false);
    Step(OPENING + UNPAIR + FAIL_TO_ERASE + DROP + [Crash], Relaunched(s), RestoreFails, t);
    Lost(t, Leave("host", 1));
  }

  /** Or until another host is paired in its place. */
  lemma ANewPairingForgetsTheHost()
    ensures exists t ::
      Leads(OPENING + UNPAIR + FAIL_TO_ERASE + DROP + [PairFails]
            + [PairStart(OTHER), PairSettled, PairRead, PairStored, PairActivated], t)
      && t.stored == Some(OTHER) && t.queue == [] && Forgotten(t, Leave("host", 1))
  {
    DropUnerased();
    hide Leads, Forgotten;
    var labels, s := OPENING + UNPAIR + FAIL_TO_ERASE + DROP, UNERASED.(queue := []);
    Step(labels, s.(pairing := Storing(HOST, true)), PairFails, s);
    PairOther(labels + [PairFails], s);
  }

  lemma PairOther(labels: seq<Label>, s: State)
    requires Leads(labels, s) && s == UNERASED.(queue := [])
    ensures Leads(labels + [PairStart(OTHER), PairSettled, PairRead, PairStored, PairActivated], Activated(s, OTHER))
    ensures Forgotten(Activated(s, OTHER), Leave("host", 1))
  {
    HostIsQueued();
    assert Urls([]) == {};
    hide Leads, Forgotten, Unfinished, Urls, Enabled, Next;
    Pair(labels, s, OTHER, PairSettled, PairRead);
    Lost(Activated(s, OTHER), Leave("host", 1));
  }

  // ----- the retry, and late forgetting -----

  const ACKNOWLEDGED: set<Outcome> := PAIRED.fate + {Outcome(Acknowledged, Leave("host", 1))}

  const RETRYING: State := Retried(Relaunched(LEAVING), QUEUED, 0)

  /** Restored while the retry has its answer but has not written yet. */
  const RESTORED: State :=
    RETRYING.(restoring := false, sessions := 2, session := Some(Session(2, HOST, false, false)),
              log := RETRYING.log + [Started(2, "host", false)],
              retry := Retrying(QUEUED, QUEUED, {0}, map[0 := Revoked]), fate := ACKNOWLEDGED)

  const RETRY_ANSWERED: seq<Label> :=
    [Crash] + [RetryRead(0), RetryDelete(0)] + [RetryAnswered(0, Revoked), RestoreOk]

  lemma AcknowledgeAndRestore()
    ensures Leads(OPENING + UNPAIR + RETRY_ANSWERED, RESTORED)
  {
    UnpairOnce();
    hide Leads;
    RetryAfterCrash(OPENING + UNPAIR, LEAVING);
    var labels := OPENING + UNPAIR + [Crash] + [RetryRead(0), RetryDelete(0)];
    assert map[][0 as nat := Revoked] == map[0 := Revoked];
    var s := RETRYING.(retry := Retrying(QUEUED, QUEUED, {0}, map[0 := Revoked]), fate := ACKNOWLEDGED);
    Step(labels, RETRYING, RetryAnswered(0, Revoked), s);
    Step(labels + [RetryAnswered(0, Revoked)], s, RestoreOk, RESTORED);
    assert labels + [RetryAnswered(0, Revoked)] + [RestoreOk] == OPENING + UNPAIR + RETRY_ANSWERED;
  }

  /** An unpair while the launch-time retry is at work: the retry's write, made
    * from what it read at launch, takes the freshly queued host out again. */
  lemma RetryCanUndoAnUnpair()
    ensures exists t ::
      Leads(OPENING + UNPAIR + RETRY_ANSWERED + UNPAIR + [Erased(0)] + [RetryWritten], t)
      && t.queue == [] && Forgotten(t, Leave("host", 2))
  {
    AcknowledgeAndRestore();
    SaveNext(HOST, 2);
    hide Enabled, Next, Leads, QueueRevocation, SaveFates, Forgotten;
    var labels := OPENING + UNPAIR + RETRY_ANSWERED;
    Unpair(labels, RESTORED, SaveRead(0));
    var erased := WithErased(LeftBehind(RESTORED, QUEUED), 0);
    EraseStored(labels + UNPAIR, LeftBehind(RESTORED, QUEUED), 0);
    var t := RetryOverwrites(labels + UNPAIR + [Erased(0)], erased);
  }

  lemma RetryOverwrites(labels: seq<Label>, s: State) returns (t: State)
    requires Leads(labels, s) && s.retry == RESTORED.retry && s.fate == ACKNOWLEDGED
    requires s.stored == None && Leave("host", 2) in s.left && !s.pairing.Storing?
    ensures Leads(labels + [RetryWritten], t)
    ensures t.queue == [] && Forgotten(t, Leave("host", 2))
  {
    NothingLeft();
    hide Leads, Unanswered, Aged, Forgotten;
    t := s.(queue := [], retry := RetryDone);
    Step(labels, s, RetryWritten, t);
    Lost(t, Leave("host", 2));
  }

  /** Saves that find the first host in the queue drop nobody live. */
  lemma SaveNext(config: Config, session: nat)
    ensures SaveFates(QUEUED, config, 0, session) == {}
  {
    CapDropsOnlyTheOldestOfFive(QUEUED, config, 0, session);
    assert ExpiredLeaves(QUEUED, 0) == {} && CappedLeaves(QUEUED, config, 0, session) == {};
  }

  lemma NothingLeft()
    ensures Unanswered(QUEUED, map[0 := Revoked]) == [] && Aged(RESTORED.retry) == {} && Marked(Expired, {}) == {}
  {
    assert QUEUED[..0] == [];
  }

  const FORGETTING: State := WAITING.(revs := [Revocation(1, HOST, ForgetWriting(QUEUED), false)], fate := ACKNOWLEDGED)

  const SLOW: seq<Label> := ASKED + [DeleteAnswered(0, true), ForgetRead(0)]

  lemma ForgetSlowly()
    ensures Leads(OPENING + UNPAIR + SLOW, FORGETTING)
  {
    AwaitAnswer();
    HostIsQueued();
    hide Leads, Urls;
    var labels, asked := OPENING + UNPAIR + ASKED, WAITING.(revs := [Revocation(1, HOST, Deleting, false)]);
    var s := FORGETTING.(revs := [Revocation(1, HOST, Forgetting, false)]);
    Step(labels, asked, DeleteAnswered(0, true), s);
    Step(labels + [DeleteAnswered(0, true)], s, ForgetRead(0), FORGETTING);
    assert labels + [DeleteAnswered(0, true)] + [ForgetRead(0)] == OPENING + UNPAIR + SLOW;
  }

  /** Were pairing to give up waiting, the forgetting of a host unpaired before
    * could overwrite the entry of one unpaired since. */
  lemma WithoutSettlingALateForgetLosesAHost()
    ensures exists t ::
      Leads(OPENING + UNPAIR + SLOW + [PairStart(OTHER), SettleBoundExpires, PairRead, PairStored, PairActivated]
            + [StartUnpair, SaveRead(1), SaveWritten(1, 0)] + [Erased(1)] + [ForgetWritten(0)], t)
      && t.queue == [] && Forgotten(t, Leave("other", 2))
  {
    ForgetSlowly();
    HostIsQueued();
    hide Enabled, Next, Leads, Urls;
    Pair(OPENING + UNPAIR + SLOW, FORGETTING, OTHER, SettleBoundExpires, PairRead);
    var t := ForgetTooLate(OPENING + UNPAIR + SLOW + [PairStart(OTHER), SettleBoundExpires, PairRead, PairStored, PairActivated],
                           Activated(FORGETTING, OTHER));
  }

  lemma ForgetTooLate(labels: seq<Label>, s: State) returns (t: State)
    requires Leads(labels, s) && s == Activated(FORGETTING, OTHER)
    ensures Leads(labels + [StartUnpair, SaveRead(1), SaveWritten(1, 0)] + [Erased(1)] + [ForgetWritten(0)], t)
    ensures t.queue == [] && Forgotten(t, Leave("other", 2))
  {
    SaveNext(OTHER, 2);
    hide Enabled, Next, Leads, QueueRevocation, SaveFates, Forgotten;
    Unpair(labels, s, SaveRead(1));
    var left := LeftBehind(s, QUEUED);
    assert left.revs == [FORGETTING.revs[0], Revocation(2, OTHER, AtGate, true)];
    var erased := WithErased(left, 1);
    EraseStored(labels + [StartUnpair, SaveRead(1), SaveWritten(1, 0)], left, 1);
    t := ForgetOverwrites(labels + [StartUnpair, SaveRead(1), SaveWritten(1, 0)] + [Erased(1)], erased);
  }

  lemma ForgetOverwrites(labels: seq<Label>, s: State) returns (t: State)
    requires Leads(labels, s) && |s.revs| == 2 && s.revs[0] == FORGETTING.revs[0]
    requires s.stored == None && Leave("other", 2) in s.left && !s.pairing.Storing?
    requires forall o <- s.fate :: o.leave.url == "other" ==> o.leave.session < 2
    ensures Leads(labels + [ForgetWritten(0)], t)
    ensures t.queue == [] && Forgotten(t, Leave("other", 2))
  {
    t := Move(s, 0, Ended).(queue := []);
    ForgetStep(s);
    hide Leads, Enabled, Next, Forgotten;
    Step(labels, s, ForgetWritten(0), t);
    Lost(t, Leave("other", 2));
  }

  lemma ForgetStep(s: State)
    requires s.revs != [] && s.revs[0] == FORGETTING.revs[0]
    ensures Enabled(s, ForgetWritten(0)) && Next(s, ForgetWritten(0)) == Move(s, 0, Ended).(queue := [])
  {
    assert DropRevocations(QUEUED, "host") == [];
    hide DropRevocations;
  }
}
