/** Push registration against push revocation, one `await` at a time.
  *
  * A launch of the app runs registrations (through the registration gate),
  * unpairs (each with a background revocation), one retry of the revocations
  * an earlier launch left queued, and at most one pairing attempt. Everything
  * but the two stored values is lost in a crash. Code between two awaits runs
  * as one step; in particular a finished save opens the gate of its
  * revocation, clears the session and issues the erase of the stored
  * connection before anything else can happen.
  */
module PushProtocol {
  import opened Basics
  import opened PendingRevocations

  // ----- registrations -----

  datatype RegPhase = Asking | Minting | Posting | Over

  datatype Registration = Registration(session: nat, url: Url, paired: bool, phase: RegPhase, aborted: bool)

  // ----- revocations -----

  datatype RevPhase =
    | SaveReading
    | SaveWriting(read: seq<Entry>, failed: bool)   // `failed`: the read did, and read as empty
    | AtGate                 // about to look at the running registration
    | Settling(reg: nat)     // waiting for it to end
    | Sending                // about to issue the DELETE
    | Deleting               // waiting for the answer
    | Forgetting             // acknowledged, about to read the queue
    | ForgetWriting(read: seq<Entry>)
    | Ended

  /** `erasing`: the erase of the stored connection has been issued, not done. */
  datatype Revocation = Revocation(session: nat, config: Config, phase: RevPhase, erasing: bool)

  // ----- the launch-time retry -----

  datatype Verdict = Revoked | Rejected401 | NotNow

  datatype Retry =
    | Unread
    | Retrying(raw: seq<Entry>, entries: seq<Entry>, sent: set<nat>, verdicts: map<nat, Verdict>)
    | RetryDone

  // ----- pairing -----

  /** `dropped`: the host's queued revocation has been dropped for this pairing. */
  datatype Pairing =
    | NotPairing
    | AwaitingRevocations(config: Config, revs: set<nat>, retry: bool)
    | PairReading(config: Config)
    | PairWriting(config: Config, read: seq<Entry>)
    | Storing(config: Config, dropped: bool)
    | Activating(config: Config)

  /** `leaving`: an unpair of this session has begun. */
  datatype Session = Session(id: nat, config: Config, paired: bool, leaving: bool)

  datatype Fate = Acknowledged | Rejected | Expired | Capped | Repaired

  /** What became of a leave, and so of earlier ones of the same host. */
  datatype Outcome = Outcome(fate: Fate, leave: Leave)

  function Marked(fate: Fate, leaves: set<Leave>): set<Outcome> {
    set l <- leaves :: Outcome(fate, l)
  }

  /** What is issued, and the moments the order of it depends on. `Paired`: the
    * connection of session `session` to come has been stored. `Erase`: the
    * stored connection has been erased by an unpair. */
  datatype Event =
    | Started(session: nat, url: Url, paired: bool)
    | Post(session: nat, url: Url, paired: bool)
    | Delete(session: nat, url: Url, byUnpair: bool)
    | Paired(session: nat, url: Url)
    | Erase(session: nat)
    | Crashed

  datatype State = State(
    // storage
    stored: Option<Config>,
    queue: seq<Entry>,
    // memory
    restoring: bool,
    session: Option<Session>,
    regs: seq<Registration>,
    running: Option<nat>,
    revs: seq<Revocation>,
    retry: Retry,
    pairing: Pairing,
    // history
    sessions: nat,
    launched: nat,
    log: seq<Event>,
    left: set<Leave>,
    fate: set<Outcome>)

  datatype Label =
    // the registration effect and the task it runs through the gate
    | StartRegistration(abortPrevious: bool)
    | Cleanup(i: nat)
    | PermissionAnswered(i: nat, granted: bool)
    | Minted(i: nat, ok: bool)
    | PostAnswered(i: nat)
    // unpair and its background revocation
    | StartUnpair
    | SaveRead(i: nat)
    | SaveWritten(i: nat, now: int)
    | Erased(i: nat)
    | GateRead(i: nat)
    | GraceExpires(i: nat)
    | GateSettled(i: nat)
    | IssueDelete(i: nat)
    | DeleteAnswered(i: nat, ok: bool)
    | ForgetRead(i: nat)
    | ForgetWritten(i: nat)
    // the launch-time retry
    | RetryRead(now: int)
    | RetryDelete(j: nat)
    | RetryAnswered(j: nat, verdict: Verdict)
    | RetryWritten
    // pairing
    | PairStart(config: Config)
    | PairSettled
    | PairRead
    | PairForgotten
    | PairStored
    | PairActivated
    | PairFails
    // the launch
    | RestoreOk
    | RestoreFails
    | Unauthorized
    | Crash
    // faults the guarantees are conditional on
    | SettleBoundExpires
    | SaveReadFails(i: nat)
    | SaveRejected(i: nat)
    | PairReadFails
    | ForgetFails(i: nat)
    | RetryFails
    // the stored connection is not erased, or could not be read
    | EraseFails(i: nat)
    | RestoreKeeps
    | UnauthorizedKeeps

  datatype Part = OfRegistration | OfRevocation | OfRetry | OfPairing | OfLaunch

  /** The part of the app that takes a step. */
  function PartOf(l: Label): Part {
    if l.StartRegistration? || l.Cleanup? || l.PermissionAnswered? || l.Minted? || l.PostAnswered? then OfRegistration
    else if l.RetryRead? || l.RetryDelete? || l.RetryAnswered? || l.RetryWritten? || l.RetryFails? then OfRetry
    else if l.PairStart? || l.PairSettled? || l.PairRead? || l.PairForgotten? || l.PairStored? || l.PairActivated?
            || l.PairFails? || l.PairReadFails? || l.SettleBoundExpires? then OfPairing
    else if l.RestoreOk? || l.RestoreFails? || l.RestoreKeeps? || l.Unauthorized? || l.UnauthorizedKeeps? || l.Crash?
      then OfLaunch
    else OfRevocation
  }

  predicate IsRegistration(l: Label) {
    PartOf(l).OfRegistration?
  }

  predicate IsRevocation(l: Label) {
    PartOf(l).OfRevocation?
  }

  predicate IsRetry(l: Label) {
    PartOf(l).OfRetry?
  }

  predicate IsPairing(l: Label) {
    PartOf(l).OfPairing?
  }

  predicate IsLaunch(l: Label) {
    PartOf(l).OfLaunch?
  }

  predicate Init(s: State) {
    s == State(None, [], true, None, [], None, [], Unread, NotPairing, 0, 0, [], {}, {})
  }

  predicate Enabled(s: State, l: Label) {
    match PartOf(l)
    case OfRegistration => RegistrationEnabled(s, l)
    case OfRevocation => RevocationEnabled(s, l)
    case OfRetry => RetryEnabled(s, l)
    case OfPairing => PairingEnabled(s, l)
    case OfLaunch => LaunchEnabled(s, l)
  }

  function Next(s: State, l: Label): State
    requires Enabled(s, l)
  {
    match PartOf(l)
    case OfRegistration => RegistrationNext(s, l)
    case OfRevocation => RevocationNext(s, l)
    case OfRetry => RetryNext(s, l)
    case OfPairing => PairingNext(s, l)
    case OfLaunch => LaunchNext(s, l)
  }

  lemma RegistrationIs(s: State, l: Label)
    requires Enabled(s, l) && IsRegistration(l)
    ensures RegistrationEnabled(s, l) && Next(s, l) == RegistrationNext(s, l)
  {
    hide RegistrationNext, RegistrationEnabled, PartOf;
  }

  lemma RevocationIs(s: State, l: Label)
    requires Enabled(s, l) && IsRevocation(l)
    ensures RevocationEnabled(s, l) && Next(s, l) == RevocationNext(s, l)
  {
    hide RevocationNext, RevocationEnabled, PartOf;
  }

  lemma RetryIs(s: State, l: Label)
    requires Enabled(s, l) && IsRetry(l)
    ensures RetryEnabled(s, l) && Next(s, l) == RetryNext(s, l)
  {
    hide RetryNext, RetryEnabled, PartOf;
  }

  lemma PairingIs(s: State, l: Label)
    requires Enabled(s, l) && IsPairing(l)
    ensures PairingEnabled(s, l) && Next(s, l) == PairingNext(s, l)
  {
    hide PairingNext, PairingEnabled, PartOf;
  }

  lemma LaunchIs(s: State, l: Label)
    requires Enabled(s, l) && IsLaunch(l)
    ensures LaunchEnabled(s, l) && Next(s, l) == LaunchNext(s, l)
  {
    hide LaunchNext, LaunchEnabled, PartOf;
  }

  /** The effect runs while the session is paired, and never again once its
    * unpair has begun: nothing it depends on changes after that. */
  predicate RegistrationEnabled(s: State, l: Label)
    requires IsRegistration(l)
  {
    match l
    case StartRegistration(_) => s.session.Some? && !s.session.value.leaving
    case Cleanup(i) => i < |s.regs|
    case PermissionAnswered(i, _) => i < |s.regs| && s.regs[i].phase.Asking?
    case Minted(i, _) => i < |s.regs| && s.regs[i].phase.Minting?
    case PostAnswered(i) => i < |s.regs| && s.regs[i].phase.Posting?
  }

  function Abort(regs: seq<Registration>, i: nat): seq<Registration>
    requires i < |regs|
  {
    regs[i := regs[i].(aborted := true)]
  }

  /** Ends registration `i`: the gate forgets it if it is the one running. */
  function End(s: State, i: nat): State
    requires i < |s.regs|
  {
    s.(regs := s.regs[i := s.regs[i].(phase := Over)], running := if s.running == Some(i) then None else s.running)
  }

  function RegistrationNext(s: State, l: Label): State
    requires IsRegistration(l) && RegistrationEnabled(s, l)
  {
    match l
    case StartRegistration(abortPrevious) =>
      var regs := if abortPrevious && s.regs != [] then Abort(s.regs, |s.regs| - 1) else s.regs;
      var session := s.session.value;
      s.(regs := regs + [Registration(session.id, session.config.url, session.paired, Asking, false)], running := Some(|regs|))
    case Cleanup(i) => s.(regs := Abort(s.regs, i))
    case PermissionAnswered(i, granted) =>
      if granted then s.(regs := s.regs[i := s.regs[i].(phase := Minting)]) else End(s, i)
    case Minted(i, ok) =>
      var reg := s.regs[i];
      if !ok || reg.aborted then End(s, i)
      else s.(regs := s.regs[i := reg.(phase := Posting)], log := s.log + [Post(reg.session, reg.url, reg.paired)])
    case PostAnswered(i) => End(s, i)
  }

  predicate RevocationEnabled(s: State, l: Label)
    requires IsRevocation(l)
  {
    match l
    case StartUnpair => s.session.Some?
    case SaveRead(i) => i < |s.revs| && s.revs[i].phase.SaveReading?
    case SaveReadFails(i) => i < |s.revs| && s.revs[i].phase.SaveReading?
    case SaveWritten(i, _) => i < |s.revs| && s.revs[i].phase.SaveWriting?
    case SaveRejected(i) => i < |s.revs| && s.revs[i].phase.SaveWriting?
    case Erased(i) => i < |s.revs| && s.revs[i].erasing
    case EraseFails(i) => i < |s.revs| && s.revs[i].erasing
    case GateRead(i) => i < |s.revs| && s.revs[i].phase.AtGate?
    case GraceExpires(i) => i < |s.revs| && s.revs[i].phase.Settling? && s.revs[i].phase.reg < |s.regs|
    case GateSettled(i) =>
      i < |s.revs| && s.revs[i].phase.Settling? && s.revs[i].phase.reg < |s.regs|
      && s.regs[s.revs[i].phase.reg].phase.Over?
    case IssueDelete(i) => i < |s.revs| && s.revs[i].phase.Sending?
    case DeleteAnswered(i, _) => i < |s.revs| && s.revs[i].phase.Deleting?
    case ForgetRead(i) => i < |s.revs| && s.revs[i].phase.Forgetting?
    case ForgetWritten(i) => i < |s.revs| && s.revs[i].phase.ForgetWriting?
    case ForgetFails(i) => i < |s.revs| && (s.revs[i].phase.Forgetting? || s.revs[i].phase.ForgetWriting?)
  }

  function Move(s: State, i: nat, phase: RevPhase): State
    requires i < |s.revs|
  {
    s.(revs := s.revs[i := s.revs[i].(phase := phase)])
  }

  function LeaveBy(rev: Revocation): Leave {
    Leave(rev.config.url, rev.session)
  }

  /** The rest of `unpair` once the save has settled either way. */
  function LeaveSession(s: State, i: nat): State
    requires i < |s.revs|
  {
    s.(revs := s.revs[i := s.revs[i].(phase := AtGate, erasing := true)], session := None,
       left := s.left + {LeaveBy(s.revs[i])})
  }

  /** A save drops entries for their age, and what the cap pushes out. */
  function SaveFates(read: seq<Entry>, config: Config, now: int, session: nat): set<Outcome> {
    Marked(Expired, ExpiredLeaves(read, now)) + Marked(Capped, CappedLeaves(read, config, now, session))
  }

  function RevocationNext(s: State, l: Label): State
    requires IsRevocation(l) && RevocationEnabled(s, l)
  {
    match l
    case StartUnpair =>
      var session := s.session.value;
      s.(revs := s.revs + [Revocation(session.id, session.config, SaveReading, false)],
         session := Some(session.(leaving := true)))
    case SaveRead(i) => Move(s, i, SaveWriting(s.queue, false))
    case SaveReadFails(i) => Move(s, i, SaveWriting([], true))
    case SaveWritten(i, now) =>
      var rev := s.revs[i];
      LeaveSession(s, i).(queue := QueueRevocation(rev.phase.read, rev.config, now, rev.session),
                          fate := s.fate + SaveFates(rev.phase.read, rev.config, now, rev.session))
    case SaveRejected(i) => LeaveSession(s, i)
    case Erased(i) =>
      s.(stored := None, log := s.log + [Erase(s.revs[i].session)], revs := s.revs[i := s.revs[i].(erasing := false)])
    case EraseFails(i) => s.(revs := s.revs[i := s.revs[i].(erasing := false)])
    case GateRead(i) => Move(s, i, if s.running.Some? then Settling(s.running.value) else Sending)
    case GraceExpires(i) => s.(regs := Abort(s.regs, s.revs[i].phase.reg))
    case GateSettled(i) => Move(s, i, Sending)
    case IssueDelete(i) => Move(s, i, Deleting).(log := s.log + [Delete(s.revs[i].session, s.revs[i].config.url, true)])
    case DeleteAnswered(i, ok) =>
      if !ok then Move(s, i, Ended)
      else Move(s, i, Forgetting).(fate := s.fate + {Outcome(Acknowledged, LeaveBy(s.revs[i]))})
    case ForgetRead(i) =>
      Move(s, i, if s.revs[i].config.url in Urls(s.queue) then ForgetWriting(s.queue) else Ended)
    case ForgetWritten(i) =>
      Move(s, i, Ended).(queue := DropRevocations(s.revs[i].phase.read, s.revs[i].config.url))
    case ForgetFails(i) => Move(s, i, Ended)
  }

  predicate RetryEnabled(s: State, l: Label)
    requires IsRetry(l)
  {
    match l
    case RetryRead(_) => s.retry.Unread?
    case RetryDelete(j) => s.retry.Retrying? && j < |s.retry.entries| && j !in s.retry.sent && j !in s.retry.verdicts
    case RetryAnswered(j, verdict) =>
      s.retry.Retrying? && j < |s.retry.entries| && j !in s.retry.verdicts && (j in s.retry.sent || verdict.NotNow?)
    case RetryWritten =>
      s.retry.Retrying? && forall j: nat :: j < |s.retry.entries| ==> j in s.retry.verdicts
    case RetryFails =>
      s.retry.Unread? || (s.retry.Retrying? && forall j: nat :: j < |s.retry.entries| ==> j in s.retry.verdicts)
  }

  /** Entry `j` has no answer that settles it. */
  predicate Unsettled(verdicts: map<nat, Verdict>, j: nat) {
    j in verdicts ==> verdicts[j].NotNow?
  }

  /** The entries still owed after the retry. */
  function Unanswered(entries: seq<Entry>, verdicts: map<nat, Verdict>): (r: seq<Entry>)
    ensures forall j: nat :: j < |entries| && Unsettled(verdicts, j) ==> entries[j] in r
    ensures forall e :: e in r ==> exists j: nat :: j < |entries| && entries[j] == e && Unsettled(verdicts, j)
  {
    if entries == [] then []
    else
      var n := |entries| - 1;
      Unanswered(entries[..n], verdicts) + (if Unsettled(verdicts, n) then [entries[n]] else [])
  }

  function RetryNext(s: State, l: Label): State
    requires IsRetry(l) && RetryEnabled(s, l)
  {
    match l
    case RetryRead(now) =>
      var entries := LivePending(s.queue, now);
      s.(retry := if entries == [] then RetryDone else Retrying(s.queue, entries, {}, map[]))
    case RetryDelete(j) =>
      s.(retry := s.retry.(sent := s.retry.sent + {j}),
         log := s.log + [Delete(s.retry.entries[j].session, s.retry.entries[j].config.url, false)])
    case RetryAnswered(j, verdict) =>
      var leave := LeaveOf(s.retry.entries[j]);
      s.(retry := s.retry.(verdicts := s.retry.verdicts[j := verdict]),
         fate := match verdict
                 case Revoked => s.fate + {Outcome(Acknowledged, leave)}
                 case Rejected401 => s.fate + {Outcome(Rejected, leave)}
                 case NotNow => s.fate)
    case RetryWritten =>
      s.(queue := Unanswered(s.retry.entries, s.retry.verdicts), retry := RetryDone,
         fate := s.fate + Marked(Expired, Aged(s.retry)))
    case RetryFails => s.(retry := RetryDone)
  }

  /** What the retry read and left out for its age. */
  function Aged(r: Retry): set<Leave>
    requires r.Retrying?
  {
    set e | e in r.raw && e !in r.entries :: LeaveOf(e)
  }

  function Unfinished(revs: seq<Revocation>): set<nat> {
    set i: nat | i < |revs| && !revs[i].phase.Ended?
  }

  /** No erase of the stored connection is under way. */
  predicate NoErase(s: State) {
    forall i: nat :: i < |s.revs| ==> !s.revs[i].erasing
  }

  /** The pair screen is shown while there is no session and none is being restored. */
  predicate PairingEnabled(s: State, l: Label)
    requires IsPairing(l)
  {
    match l
    case PairStart(_) => s.pairing.NotPairing? && s.session.None? && !s.restoring
    case PairSettled =>
      s.pairing.AwaitingRevocations?
      && (forall i <- s.pairing.revs :: i < |s.revs| ==> s.revs[i].phase.Ended?)
      && (s.pairing.retry ==> s.retry.RetryDone?)
    case SettleBoundExpires => s.pairing.AwaitingRevocations?
    case PairRead => s.pairing.PairReading?
    case PairReadFails => s.pairing.PairReading?
    case PairForgotten => s.pairing.PairWriting?
    case PairStored => s.pairing.Storing? && NoErase(s)
    case PairActivated => s.pairing.Activating?
    case PairFails => !s.pairing.NotPairing? && !s.pairing.Activating?
  }

  function StartSession(s: State, config: Config, paired: bool): State {
    s.(sessions := s.sessions + 1,
       session := Some(Session(s.sessions + 1, config, paired, false)),
       log := s.log + [Started(s.sessions + 1, config.url, paired)])
  }

  function PairingNext(s: State, l: Label): State
    requires IsPairing(l) && PairingEnabled(s, l)
  {
    match l
    case PairStart(config) =>
      s.(pairing := AwaitingRevocations(config, Unfinished(s.revs), !s.retry.RetryDone?))
    case PairSettled => s.(pairing := PairReading(s.pairing.config))
    case SettleBoundExpires => s.(pairing := PairReading(s.pairing.config))
    case PairRead =>
      s.(pairing := if s.pairing.config.url in Urls(s.queue) then PairWriting(s.pairing.config, s.queue)
                    else Storing(s.pairing.config, false))
    case PairReadFails => s.(pairing := Storing(s.pairing.config, false))
    case PairForgotten =>
      s.(queue := DropRevocations(s.pairing.read, s.pairing.config.url), pairing := Storing(s.pairing.config, true))
    case PairStored =>
      var config := s.pairing.config;
      s.(stored := Some(config), pairing := Activating(config), log := s.log + [Paired(s.sessions + 1, config.url)],
         fate := s.fate + {Outcome(Repaired, Leave(config.url, s.sessions))})
    case PairActivated => StartSession(s, s.pairing.config, true).(pairing := NotPairing)
    case PairFails => s.(pairing := NotPairing)
  }

  predicate LaunchEnabled(s: State, l: Label)
    requires IsLaunch(l)
  {
    match l
    case RestoreOk => s.restoring && s.stored.Some?
    case RestoreFails => s.restoring
    case RestoreKeeps => s.restoring
    case Unauthorized => s.session.Some?
    case UnauthorizedKeeps => s.session.Some?
    case Crash => true
  }

  /** The host has rejected the session's token. */
  function TurnedAway(s: State): State
    requires s.session.Some?
  {
    s.(session := None, fate := s.fate + {Outcome(Rejected, Leave(s.session.value.config.url, s.session.value.id))})
  }

  function LaunchNext(s: State, l: Label): State
    requires IsLaunch(l) && LaunchEnabled(s, l)
  {
    match l
    case RestoreOk => StartSession(s, s.stored.value, false).(restoring := false)
    case RestoreFails => s.(stored := None, restoring := false)
    case RestoreKeeps => s.(restoring := false)
    case Unauthorized => TurnedAway(s).(stored := None)
    case UnauthorizedKeeps => TurnedAway(s)
    case _ =>
      State(s.stored, s.queue, true, None, [], None, [], Unread, NotPairing,
            s.sessions, s.sessions, s.log + [Crashed], s.left, s.fate)
  }

  /** What a step issues. */
  function Issued(s: State, l: Label): seq<Event>
    requires Enabled(s, l)
  {
    match l
    case Minted(i, ok) =>
      var reg := s.regs[i];
      if !ok || reg.aborted then [] else [Post(reg.session, reg.url, reg.paired)]
    case IssueDelete(i) => [Delete(s.revs[i].session, s.revs[i].config.url, true)]
    case Erased(i) => [Erase(s.revs[i].session)]
    case RetryDelete(j) => [Delete(s.retry.entries[j].session, s.retry.entries[j].config.url, false)]
    case PairStored => [Paired(s.sessions + 1, s.pairing.config.url)]
    case PairActivated => [Started(s.sessions + 1, s.pairing.config.url, true)]
    case RestoreOk => [Started(s.sessions + 1, s.stored.value.url, false)]
    case Crash => [Crashed]
    case _ => []
  }

  /** What each part leaves alone; the log is what has been issued, and sessions are
    * numbered as they start. */
  ghost predicate Follows(s: State, l: Label, t: State)
    requires Enabled(s, l)
  {
    && t.log == s.log + Issued(s, l)
    && t.sessions == s.sessions + (if l.PairActivated? || l.RestoreOk? then 1 else 0)
    && t.launched == (if l.Crash? then s.sessions else s.launched)
    && (t.session.Some? ==> s.session.Some? || l.PairActivated? || l.RestoreOk?)
    && s.fate <= t.fate
    && (t.queue == s.queue || l.SaveWritten? || l.ForgetWritten? || l.RetryWritten? || l.PairForgotten?)
    && (t.pairing == s.pairing || IsPairing(l) || (l.Crash? && t.pairing.NotPairing?))
    && (IsRegistration(l) ==> t == s.(regs := t.regs, running := t.running, log := t.log))
    && (IsRetry(l) ==> t == s.(retry := t.retry, queue := t.queue, log := t.log, fate := t.fate))
    && (!IsRegistration(l) && !IsRevocation(l) ==>
          if l.Crash? then t.regs == [] && t.revs == [] && t.running == None
          else t.regs == s.regs && t.revs == s.revs && t.running == s.running)
  }

  lemma NextFollows(s: State, l: Label)
    requires Enabled(s, l)
    ensures Follows(s, l, Next(s, l))
  {
    hide Next, Enabled, Follows;
    match PartOf(l)
    case OfRegistration => RegistrationFollows(s, l);
    case OfRevocation => RevocationFollows(s, l);
    case OfRetry => RetryFollows(s, l);
    case OfPairing => PairingFollows(s, l);
    case OfLaunch => LaunchFollows(s, l);
  }

  lemma RegistrationFollows(s: State, l: Label)
    requires Enabled(s, l) && IsRegistration(l)
    ensures Follows(s, l, Next(s, l))
  {
    RegistrationIs(s, l);
    hide Next, Enabled;
  }

  lemma RevocationFollows(s: State, l: Label)
    requires Enabled(s, l) && IsRevocation(l)
    ensures Follows(s, l, Next(s, l))
  {
    RevocationIs(s, l);
    hide Next, Enabled, QueueRevocation, SaveFates, DropRevocations, Urls;
  }

  lemma RetryFollows(s: State, l: Label)
    requires Enabled(s, l) && IsRetry(l)
    ensures Follows(s, l, Next(s, l))
  {
    RetryIs(s, l);
    hide Next, Enabled, LivePending, Unanswered, Marked, Aged;
  }

  lemma PairingFollows(s: State, l: Label)
    requires Enabled(s, l) && IsPairing(l)
    ensures Follows(s, l, Next(s, l))
  {
    PairingIs(s, l);
    hide Next, Enabled, DropRevocations, Urls, Unfinished;
  }

  lemma LaunchFollows(s: State, l: Label)
    requires Enabled(s, l) && IsLaunch(l)
    ensures Follows(s, l, Next(s, l))
  {
    LaunchIs(s, l);
    hide Next, Enabled;
  }

  /** Who is left by a step. */
  function NewLeaves(s: State, l: Label): set<Leave> {
    if (l.SaveWritten? || l.SaveRejected?) && l.i < |s.revs| then {LeaveBy(s.revs[l.i])} else {}
  }

  /** What becomes of the leaves and of the stored connection. */
  ghost predicate Stores(s: State, l: Label, t: State) {
    && t.left == s.left + NewLeaves(s, l)
    && (t.stored == s.stored || l.Erased? || l.PairStored? || l.RestoreFails? || l.Unauthorized?)
    && (NoErase(s) && !l.SaveWritten? && !l.SaveRejected? ==> NoErase(t))
  }

  lemma NextStores(s: State, l: Label)
    requires Enabled(s, l)
    ensures Stores(s, l, Next(s, l))
  {
    hide Next, Enabled, Stores;
    match PartOf(l)
    case OfRegistration => RegistrationStores(s, l);
    case OfRevocation => RevocationStores(s, l);
    case OfRetry => RetryStores(s, l);
    case OfPairing => PairingStores(s, l);
    case OfLaunch => LaunchStores(s, l);
  }

  lemma RegistrationStores(s: State, l: Label)
    requires Enabled(s, l) && IsRegistration(l)
    ensures Stores(s, l, Next(s, l))
  {
    RegistrationFollows(s, l);
    hide Next, Enabled, Issued;
  }

  lemma RevocationStores(s: State, l: Label)
    requires Enabled(s, l) && IsRevocation(l)
    ensures Stores(s, l, Next(s, l))
  {
    RevocationIs(s, l);
    hide Next, Enabled, QueueRevocation, SaveFates, DropRevocations, Urls;
  }

  lemma RetryStores(s: State, l: Label)
    requires Enabled(s, l) && IsRetry(l)
    ensures Stores(s, l, Next(s, l))
  {
    RetryFollows(s, l);
    hide Next, Enabled, Issued;
  }

  lemma PairingStores(s: State, l: Label)
    requires Enabled(s, l) && IsPairing(l)
    ensures Stores(s, l, Next(s, l))
  {
    PairingIs(s, l);
    hide Next, Enabled, DropRevocations, Urls, Unfinished;
  }

  lemma LaunchStores(s: State, l: Label)
    requires Enabled(s, l) && IsLaunch(l)
    ensures Stores(s, l, Next(s, l))
  {
    LaunchIs(s, l);
    hide Next, Enabled;
  }

  /** The other parts leave the revocations and the leaves alone, but for a crash. */
  lemma OthersTouch(s: State, l: Label)
    requires Enabled(s, l) && !IsRevocation(l)
    ensures var t := Next(s, l);
      t.left == s.left && s.fate <= t.fate && (l.Crash? || t.revs == s.revs)
  {
    NextFollows(s, l);
    NextStores(s, l);
    assert s.left + {} == s.left;
    hide Next, Enabled, Issued, NoErase;
  }

  /** A revocation leaves the pairing alone, and the stored connection unless it is erased. */
  lemma RevocationKeeps(s: State, l: Label)
    requires Enabled(s, l) && IsRevocation(l)
    ensures var t := Next(s, l);
      && s.fate <= t.fate && s.left <= t.left && t.left == s.left + NewLeaves(s, l) && t.pairing == s.pairing
      && (t.stored == s.stored || l.Erased?) && (t.queue == s.queue || l.SaveWritten? || l.ForgetWritten?)
  {
    NextFollows(s, l);
    NextStores(s, l);
    hide Next, Enabled, Issued, NoErase, NewLeaves;
  }

  /** A registration's step is its own: it stays of its session and host, and what
    * has been aborted, has posted or is over can never post again. */
  lemma OneRegisters(s: State, l: Label)
    requires Enabled(s, l) && IsRegistration(l) && !l.StartRegistration?
    ensures l.i < |s.regs| && |Next(s, l).regs| == |s.regs|
    ensures var t, reg := Next(s, l), s.regs[l.i];
      var after := t.regs[l.i];
      && t.regs == s.regs[l.i := after] && after == reg.(phase := after.phase, aborted := after.aborted)
      && (reg.aborted || reg.phase.Over? ==> after.aborted || after.phase.Over?)
      && (reg.aborted || reg.phase.Over? || reg.phase.Posting? ==> after.aborted || after.phase.Over? || after.phase.Posting?)
      && (reg.phase.Over? ==> after.phase.Over?)
      && (t.running == s.running || (t.running == None && s.running == Some(l.i) && after.phase.Over?))
  {
    RegistrationIs(s, l);
    hide Next, Enabled;
  }

  /** A revocation's step is its own, and it stays of its session and host. */
  lemma OneMoves(s: State, l: Label)
    requires Enabled(s, l) && IsRevocation(l) && !l.StartUnpair?
    ensures l.i < |s.revs| && |Next(s, l).revs| == |s.revs|
    ensures var rev := Next(s, l).revs[l.i];
      Next(s, l).revs == s.revs[l.i := rev] && rev == s.revs[l.i].(phase := rev.phase, erasing := rev.erasing)
  {
    RevocationIs(s, l);
    hide Next, Enabled, QueueRevocation, SaveFates, DropRevocations, Urls;
  }

  /** What the steps of a revocation touch that neither leave nor erase. */
  lemma RevocationTouches(s: State, l: Label)
    requires Enabled(s, l) && IsRevocation(l) && !l.StartUnpair? && !l.SaveWritten? && !l.SaveRejected? && !l.Erased?
    ensures var t := Next(s, l);
      t == s.(revs := t.revs, regs := t.regs, queue := t.queue, log := t.log, fate := t.fate)
  {
    RevocationIs(s, l);
    hide Next, Enabled, DropRevocations, Urls;
  }

  ghost predicate Run(states: seq<State>, labels: seq<Label>) {
    && |states| == |labels| + 1
    && forall i :: 0 <= i < |labels| ==> Enabled(states[i], labels[i]) && states[i + 1] == Next(states[i], labels[i])
  }

  function Last(states: seq<State>): State
    requires states != []
  {
    states[|states| - 1]
  }

  lemma RunPrefix(states: seq<State>, labels: seq<Label>)
    requires Run(states, labels) && labels != []
    ensures Run(states[..|labels|], labels[..|labels| - 1])
    ensures Enabled(Last(states[..|labels|]), labels[|labels| - 1])
    ensures Last(states) == Next(Last(states[..|labels|]), labels[|labels| - 1])
  {
  }

  /** Some run from the first launch makes the steps `labels` and ends in `t`. */
  ghost predicate Leads(labels: seq<Label>, t: State) {
    exists states :: Run(states, labels) && states != [] && Init(states[0]) && Last(states) == t
  }

  /** One step more. */
  lemma Step(labels: seq<Label>, s: State, l: Label, t: State)
    requires Leads(labels, s) && Enabled(s, l) && Next(s, l) == t
    ensures Leads(labels + [l], t)
  {
    hide Enabled, Next, Init;
    var states :| Run(states, labels) && states != [] && Init(states[0]) && Last(states) == s;
    assert Run(states + [t], labels + [l]) && Last(states + [t]) == t;
  }
}
