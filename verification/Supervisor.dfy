/** The wrapper that runs one agent and tells the host how it went.
  *
  * Everything it does to the outside is an effect; a crash at any moment leaves
  * a prefix of its effects. What the outside answers is an arbitrary `World`.
  */
module Supervisor {
  import opened Basics
  import Seqs

  const START_ATTEMPTS: nat := 3
  const FINISH_ATTEMPTS: nat := 8

  const AGENT_RUN_ID_ENV: string := "PRAGMA_AGENT_RUN_ID"

  datatype ChildExit = Code(code: int) | Signal(signal: int) | Unknown

  function ExitCode(exit: ChildExit): Option<int> {
    if exit.Code? then Some(exit.code) else None
  }

  /** `u8::try_from`, or 1. */
  function Byte(code: int): int {
    if 0 <= code < 256 then code else 1
  }

  function ProcessCode(exit: ChildExit): int {
    match exit
    case Code(code) => Byte(code)
    case Signal(signal) => Byte(128 + signal)
    case Unknown => 1
  }

  datatype Action = StartRun | FinishRun | FailRun(reason: string)

  datatype Payload = Payload(action: Action, exitCode: Option<int>, boot: Option<string>)

  type Env = seq<(string, string)>

  /** What `startRun` says of the child's environment. */
  datatype EnvReply = Absent | Listed(env: Env) | Invalid

  datatype Reply = Accepted(env: EnvReply, boot: Option<string>) | ServerError(message: string) | OtherError(message: string)

  predicate Contains(s: string, part: string) {
    part <= s || (s != "" && Contains(s[1..], part))
  }

  predicate Stale(reply: Reply) {
    reply.ServerError? && Contains(reply.message, "stale agent run")
  }

  /** An answer that ends the attempts. */
  predicate Final(reply: Reply) {
    reply.Accepted? || Stale(reply)
  }

  datatype Notice = NotJournaled | CompletionLost | EndedBySignal | FailureNotReported

  datatype Effect =
    | Rpc(payload: Payload, reply: Reply)
    | Sleep
    | Spawn(env: Env)
    | SpawnFailed
    | Ended(exit: ChildExit)
    | CreateDir(ok: bool)
    | CreateTemp(ok: bool)
    | Write(text: string, written: nat)
    | Sync(ok: bool)
    | Rename(ok: bool)
    | Surface(notice: Notice)
    | ExitProcess(code: int)

  /** Every answer the outside can give: the k-th reply to each report, whether the
    * child could be started and how it ended, and how far a journal write gets. */
  datatype World = World(
    start: nat -> Reply,
    finish: nat -> Reply,
    fail: nat -> Reply,
    spawned: bool,
    exit: ChildExit,
    dir: bool,
    temp: bool,
    written: nat,
    sync: bool,
    rename: bool)

  function EntryText(code: Option<int>): string {
    if code.Some? then Decimal(code.value) else ""
  }

  // ----- the effects of each part -----

  /** Attempts `k..max`, with a pause between two of them. */
  function Attempts(p: Payload, replies: nat -> Reply, k: nat, max: nat): seq<Effect>
    decreases max - k
  {
    if k >= max then []
    else if Final(replies(k)) || k + 1 == max then [Rpc(p, replies(k))]
    else [Rpc(p, replies(k)), Sleep] + Attempts(p, replies, k + 1, max)
  }

  /** The reply the attempts end with. */
  function Answer(replies: nat -> Reply, k: nat, max: nat): Reply
    requires k < max
    decreases max - k
  {
    if Final(replies(k)) || k + 1 == max then replies(k) else Answer(replies, k + 1, max)
  }

  function Filtered(boot: Option<string>): Option<string> {
    if boot.Some? && boot.value != "" then boot else None
  }

  /** A private directory, a temporary file, its contents, a sync, and a rename
    * onto the entry; each step only if the one before it succeeded. */
  function JournalEffects(w: World, text: string): seq<Effect> {
    if !w.dir then [CreateDir(false)] else [CreateDir(true)] + TempEffects(w, text)
  }

  function TempEffects(w: World, text: string): seq<Effect> {
    if !w.temp then [CreateTemp(false)]
    else if w.written < |text| then [CreateTemp(true), Write(text, w.written)]
    else if !w.sync then [CreateTemp(true), Write(text, |text|), Sync(false)]
    else [CreateTemp(true), Write(text, |text|), Sync(true), Rename(w.rename)]
  }

  predicate Journaled(w: World, text: string) {
    w.dir && w.temp && w.written >= |text| && w.sync && w.rename
  }

  function JournalExit(w: World): seq<Effect> {
    if !w.exit.Code? then []
    else
      var text := EntryText(ExitCode(w.exit));
      JournalEffects(w, text) + (if Journaled(w, text) then [] else [Surface(NotJournaled)])
  }

  function ReportFailure(w: World, reply: Reply): seq<Effect> {
    if reply.Accepted? || Stale(reply) || (w.exit.Code? && Journaled(w, EntryText(ExitCode(w.exit)))) then []
    else [Surface(if w.exit.Code? then CompletionLost else EndedBySignal)]
  }

  predicate Authorizes(reply: Reply) {
    reply.Accepted? && !reply.env.Invalid?
  }

  function EnvOf(reply: Reply): Env
    requires Authorizes(reply)
  {
    if reply.env.Listed? then reply.env.env else []
  }

  const START: Payload := Payload(StartRun, None, None)

  function AfterExit(w: World, boot: Option<string>): seq<Effect> {
    var p := Payload(FinishRun, ExitCode(w.exit), Filtered(boot));
    var reply := Answer(w.finish, 0, FINISH_ATTEMPTS);
    [Ended(w.exit)] + JournalExit(w) + Attempts(p, w.finish, 0, FINISH_ATTEMPTS) + ReportFailure(w, reply)
      + [ExitProcess(ProcessCode(w.exit))]
  }

  function AfterSpawnFailure(w: World, reason: string, boot: Option<string>): seq<Effect> {
    var p := Payload(FailRun(reason), None, Filtered(boot));
    var reply := Answer(w.fail, 0, FINISH_ATTEMPTS);
    [SpawnFailed] + Attempts(p, w.fail, 0, FINISH_ATTEMPTS) + (if reply.Accepted? then [] else [Surface(FailureNotReported)])
  }

  /** Everything a supervisor does that is not interrupted. */
  function Trace(w: World, runId: string, command: seq<string>, reason: string): seq<Effect> {
    if command == [] then []
    else
      var reply := Answer(w.start, 0, START_ATTEMPTS);
      Attempts(START, w.start, 0, START_ATTEMPTS) + (
        if !Authorizes(reply) then []
        else if !w.spawned then AfterSpawnFailure(w, reason, reply.boot)
        else [Spawn(EnvOf(reply) + [(AGENT_RUN_ID_ENV, runId)])] + AfterExit(w, reply.boot))
  }

  // ----- the supervisor, in place -----

  class Supervisor {
    var log: seq<Effect>

    constructor ()
      ensures log == []
    {
      log := [];
    }

    method Do(e: Effect)
      modifies this
      ensures log == old(log) + [e]
    {
      log := log + [e];
    }

    /** Sends one report, retrying what may pass; stops at a success or at an id the
      * host has retired. */
    method ReportRun(p: Payload, replies: nat -> Reply, attempts: nat) returns (reply: Reply)
      requires attempts > 0
      modifies this
      ensures log == old(log) + Attempts(p, replies, 0, attempts)
      ensures reply == Answer(replies, 0, attempts)
    {
      var attempt := 0;
      reply := OtherError("agent run report failed");
      while attempt < attempts
        invariant attempt <= attempts
        invariant log + Attempts(p, replies, attempt, attempts) == old(log) + Attempts(p, replies, 0, attempts)
        invariant attempt < attempts ==> Answer(replies, attempt, attempts) == Answer(replies, 0, attempts)
        invariant attempt == attempts ==> reply == Answer(replies, 0, attempts)
        decreases attempts - attempt
      {
        ghost var before := log;
        reply := replies(attempt);
        Do(Rpc(p, reply));
        if Final(reply) {
          return;
        }
        if attempt + 1 < attempts {
          Do(Sleep);
          AttemptsStep(before, p, replies, attempt, attempts);
        }
        attempt := attempt + 1;
      }
    }

    method WriteCompletionJournal(w: World, text: string) returns (ok: bool)
      modifies this
      ensures log == old(log) + JournalEffects(w, text)
      ensures ok == Journaled(w, text)
    {
      Do(CreateDir(w.dir));
      if !w.dir {
        return false;
      }
      Do(CreateTemp(w.temp));
      if !w.temp {
        return false;
      }
      if w.written < |text| {
        Do(Write(text, w.written));
        return false;
      }
      Do(Write(text, |text|));
      Do(Sync(w.sync));
      if !w.sync {
        return false;
      }
      Do(Rename(w.rename));
      ok := w.rename;
    }

    method JournalIntentionalExit(w: World) returns (journaled: bool)
      modifies this
      ensures log == old(log) + JournalExit(w)
      ensures journaled == (w.exit.Code? && Journaled(w, EntryText(ExitCode(w.exit))))
    {
      if !w.exit.Code? {
        return false;
      }
      journaled := WriteCompletionJournal(w, EntryText(ExitCode(w.exit)));
      if !journaled {
        Do(Surface(NotJournaled));
      }
    }

    /** What follows the child's end: its completion is made durable first, then
      * reported. */
    method AfterChild(w: World, boot: Option<string>)
      modifies this
      ensures log == old(log) + AfterExit(w, boot)
    {
      hide Attempts, JournalExit, Journaled, Answer, Filtered, ProcessCode, EntryText;
      Do(Ended(w.exit));
      var journaled := JournalIntentionalExit(w);
      var finished := ReportRun(Payload(FinishRun, ExitCode(w.exit), Filtered(boot)), w.finish, FINISH_ATTEMPTS);
      if !finished.Accepted? && !Stale(finished) && !journaled {
        Do(Surface(if w.exit.Code? then CompletionLost else EndedBySignal));
      }
      Do(ExitProcess(ProcessCode(w.exit)));
      Joined(old(log), [Ended(w.exit)], JournalExit(w),
             Attempts(Payload(FinishRun, ExitCode(w.exit), Filtered(boot)), w.finish, 0, FINISH_ATTEMPTS),
             ReportFailure(w, finished), [ExitProcess(ProcessCode(w.exit))]);
    }

    method AfterFailure(w: World, reason: string, boot: Option<string>)
      modifies this
      ensures log == old(log) + AfterSpawnFailure(w, reason, boot)
    {
      hide Attempts, Answer, Filtered;
      Do(SpawnFailed);
      var failed := ReportRun(Payload(FailRun(reason), None, Filtered(boot)), w.fail, FINISH_ATTEMPTS);
      if !failed.Accepted? {
        Do(Surface(FailureNotReported));
      }
    }

    /** The whole life of a supervisor. */
    method Run(w: World, runId: string, command: seq<string>, reason: string)
      modifies this
      ensures log == old(log) + Trace(w, runId, command, reason)
    {
      if command == [] {
        return;
      }
      hide Attempts, Answer, AfterExit, AfterSpawnFailure;
      var reply := ReportRun(START, w.start, START_ATTEMPTS);
      if !Authorizes(reply) {
        return;
      }
      ghost var started := Attempts(START, w.start, 0, START_ATTEMPTS);
      if w.spawned {
        Do(Spawn(EnvOf(reply) + [(AGENT_RUN_ID_ENV, runId)]));
        AfterChild(w, reply.boot);
        Seqs.Assoc(old(log) + started, [Spawn(EnvOf(reply) + [(AGENT_RUN_ID_ENV, runId)])], AfterExit(w, reply.boot));
        Seqs.Assoc(old(log), started, [Spawn(EnvOf(reply) + [(AGENT_RUN_ID_ENV, runId)])] + AfterExit(w, reply.boot));
      } else {
        AfterFailure(w, reason, reply.boot);
        Seqs.Assoc(old(log), started, AfterSpawnFailure(w, reason, reply.boot));
      }
    }
  }

  lemma Joined(log: seq<Effect>, a: seq<Effect>, b: seq<Effect>, c: seq<Effect>, d: seq<Effect>, e: seq<Effect>)
    ensures log + a + b + c + d + e == log + (a + b + c + d + e)
  {
  }

  lemma AttemptsStep(log: seq<Effect>, p: Payload, replies: nat -> Reply, k: nat, max: nat)
    requires k + 1 < max && !Final(replies(k))
    ensures log + [Rpc(p, replies(k))] + [Sleep] + Attempts(p, replies, k + 1, max) == log + Attempts(p, replies, k, max)
  {
    assert [Rpc(p, replies(k)), Sleep] == [Rpc(p, replies(k))] + [Sleep];
  }

  /** Attempts `k..n`, all made, with a pause between two of them. */
  function Tried(p: Payload, replies: nat -> Reply, k: nat, n: nat): seq<Effect>
    requires k < n
    decreases n - k
  {
    if k + 1 == n then [Rpc(p, replies(k))] else [Rpc(p, replies(k)), Sleep] + Tried(p, replies, k + 1, n)
  }

  /** At least one attempt and at most `max`, a pause between two; every attempt but
    * the last failed in a way that may pass, and the last is the allowance's end
    * unless it settled the matter. */
  lemma {:induction false} AttemptsAreFew(p: Payload, replies: nat -> Reply, k: nat, max: nat) returns (n: nat)
    requires k < max
    ensures k < n <= max && Attempts(p, replies, k, max) == Tried(p, replies, k, n)
    ensures |Tried(p, replies, k, n)| == 2 * (n - k) - 1
    ensures forall i :: k <= i < n - 1 ==> !Final(replies(i))
    ensures n == max || Final(replies(n - 1))
    ensures Answer(replies, k, max) == replies(n - 1)
    decreases max - k
  {
    if Final(replies(k)) || k + 1 == max {
      n := k + 1;
    } else {
      n := AttemptsAreFew(p, replies, k + 1, max);
    }
  }

  // ----- what a moment looks like -----

  datatype File = File(contents: string, synced: bool)

  /** The temporary file and the journal entry of this run. */
  datatype Disk = Disk(temp: Option<File>, target: Option<File>)

  function DiskStep(d: Disk, e: Effect): Disk {
    match e
    case CreateTemp(true) => d.(temp := Some(File("", false)))
    case Write(text, n) =>
      if d.temp.Some? then d.(temp := Some(File(d.temp.value.contents + text[..Seqs.Min(n, |text|)], false))) else d
    case Sync(true) => if d.temp.Some? then d.(temp := Some(d.temp.value.(synced := true))) else d
    case Rename(true) => if d.temp.Some? then Disk(None, d.temp) else d
    case _ => d
  }

  /** What has happened so far. */
  datatype Past = Past(authorized: bool, spawned: bool, failed: bool, ended: Option<ChildExit>, noticed: bool, disk: Disk)

  function Step(m: Past, e: Effect): Past {
    match e
    case Rpc(p, reply) => if p.action.StartRun? && Authorizes(reply) then m.(authorized := true) else m
    case Spawn(_) => m.(spawned := true)
    case SpawnFailed => m.(failed := true)
    case Ended(exit) => m.(ended := Some(exit))
    case Surface(NotJournaled) => m.(noticed := true)
    case _ => m.(disk := DiskStep(m.disk, e))
  }

  function After(m: Past, effects: seq<Effect>): Past {
    if effects == [] then m else Step(After(m, effects[..|effects| - 1]), effects[|effects| - 1])
  }

  function Lookup(env: Env, key: string): Option<string> {
    if env == [] then None
    else if env[|env| - 1].0 == key then Some(env[|env| - 1].1)
    else Lookup(env[..|env| - 1], key)
  }

  predicate EndedByCode(m: Past) {
    m.ended.Some? && m.ended.value.Code?
  }

  /** The complete, synced entry for how the child ended. */
  function Entry(m: Past): File
    requires m.ended.Some?
  {
    File(EntryText(ExitCode(m.ended.value)), true)
  }

  /** When each effect may happen. */
  predicate Allowed(m: Past, e: Effect, runId: string) {
    match e
    case Rpc(Payload(StartRun, code, _), _) => !m.authorized && code == None
    case Rpc(Payload(FinishRun, code, _), _) =>
      && m.spawned && m.ended.Some? && code == ExitCode(m.ended.value)
      && (EndedByCode(m) ==> m.disk.target == Some(Entry(m)) || m.noticed)
    case Rpc(Payload(FailRun(_), code, _), _) => m.failed && code == None
    case Sleep => true
    case Spawn(env) => m.authorized && !m.spawned && !m.failed && Lookup(env, AGENT_RUN_ID_ENV) == Some(runId)
    case SpawnFailed => m.authorized && !m.spawned && !m.failed
    case Ended(_) => m.spawned && m.ended.None?
    case CreateDir(_) => EndedByCode(m)
    case CreateTemp(_) => EndedByCode(m)
    case Write(text, n) => EndedByCode(m) && m.disk.temp == Some(File("", false)) && text == Entry(m).contents && n <= |text|
    case Sync(_) => EndedByCode(m) && m.disk.temp == Some(Entry(m).(synced := false))
    case Rename(_) => EndedByCode(m) && m.disk.temp == Some(Entry(m))
    case Surface(NotJournaled) => EndedByCode(m) && m.disk.target.None?
    case Surface(FailureNotReported) => m.failed
    case Surface(_) => m.ended.Some? && m.disk.target.None?
    case ExitProcess(code) => m.ended.Some? && code == ProcessCode(m.ended.value)
  }

  ghost predicate Lawful(m: Past, effects: seq<Effect>, runId: string) {
    forall i :: 0 <= i < |effects| ==> Allowed(After(m, effects[..i]), effects[i], runId)
  }

  lemma {:induction false} AfterAppend(m: Past, a: seq<Effect>, b: seq<Effect>)
    ensures After(m, a + b) == After(After(m, a), b)
  {
    if b == [] {
      assert a + b == a;
    } else {
      var n := |b| - 1;
      assert (a + b)[..|a + b| - 1] == a + b[..n];
      AfterAppend(m, a, b[..n]);
    }
  }

  lemma LawfulAppend(m: Past, a: seq<Effect>, b: seq<Effect>, runId: string)
    requires Lawful(m, a, runId) && Lawful(After(m, a), b, runId)
    ensures Lawful(m, a + b, runId)
  {
    forall i | 0 <= i < |a + b|
      ensures Allowed(After(m, (a + b)[..i]), (a + b)[i], runId)
    {
      if i < |a| {
        assert (a + b)[..i] == a[..i];
      } else {
        assert (a + b)[..i] == a + b[..i - |a|];
        AfterAppend(m, a, b[..i - |a|]);
      }
    }
  }

  lemma One(m: Past, e: Effect, runId: string)
    ensures After(m, [e]) == Step(m, e)
    ensures Allowed(m, e, runId) ==> Lawful(m, [e], runId)
  {
    assert [e][..0] == [];
  }

  /** One effect more. */
  lemma Onward(m: Past, a: seq<Effect>, e: Effect, runId: string)
    requires Lawful(m, a, runId) && Allowed(After(m, a), e, runId)
    ensures Lawful(m, a + [e], runId) && After(m, a + [e]) == Step(After(m, a), e)
  {
    hide Allowed, Step;
    One(After(m, a), e, runId);
    LawfulAppend(m, a, [e], runId);
    AfterAppend(m, a, [e]);
  }

  function Initial(leftover: Option<File>): Past {
    Past(false, false, false, None, false, Disk(leftover, None))
  }

  // ----- each part in its time -----

  lemma {:induction false} StartIsLawful(m: Past, replies: nat -> Reply, k: nat, max: nat, runId: string)
    requires !m.authorized && k < max
    ensures Lawful(m, Attempts(START, replies, k, max), runId)
    ensures After(m, Attempts(START, replies, k, max)) == m.(authorized := Authorizes(Answer(replies, k, max)))
    decreases max - k
  {
    var first := Rpc(START, replies(k));
    One(m, first, runId);
    if !Final(replies(k)) && k + 1 != max {
      Onward(m, [first], Sleep, runId);
      assert [first] + [Sleep] == [first, Sleep];
      StartIsLawful(m, replies, k + 1, max, runId);
      hide Lawful, After, Allowed;
      LawfulAppend(m, [first, Sleep], Attempts(START, replies, k + 1, max), runId);
      AfterAppend(m, [first, Sleep], Attempts(START, replies, k + 1, max));
    }
  }

  lemma {:induction false} ReportsAreLawful(m: Past, p: Payload, replies: nat -> Reply, k: nat, max: nat, runId: string)
    requires !p.action.StartRun? && Allowed(m, Rpc(p, replies(k)), runId) && k < max
    ensures Lawful(m, Attempts(p, replies, k, max), runId) && After(m, Attempts(p, replies, k, max)) == m
    decreases max - k
  {
    var first := Rpc(p, replies(k));
    One(m, first, runId);
    if !Final(replies(k)) && k + 1 != max {
      Onward(m, [first], Sleep, runId);
      assert [first] + [Sleep] == [first, Sleep];
      assert Allowed(m, Rpc(p, replies(k + 1)), runId);
      ReportsAreLawful(m, p, replies, k + 1, max, runId);
      hide Lawful, After, Allowed;
      LawfulAppend(m, [first, Sleep], Attempts(p, replies, k + 1, max), runId);
      AfterAppend(m, [first, Sleep], Attempts(p, replies, k + 1, max));
    }
  }

  /** The journal write under way in `m`, which `effects` has led to. */
  ghost predicate Reaches(m: Past, effects: seq<Effect>, n: Past, runId: string) {
    Lawful(m, effects, runId) && After(m, effects) == n
  }

  lemma ReachNext(m: Past, effects: seq<Effect>, n: Past, e: Effect, runId: string)
    requires Reaches(m, effects, n, runId) && Allowed(n, e, runId)
    ensures Reaches(m, effects + [e], Step(n, e), runId)
  {
    Onward(m, effects, e, runId);
  }

  lemma ReachMore(m: Past, effects: seq<Effect>, n: Past, more: seq<Effect>, o: Past, runId: string)
    requires Reaches(m, effects, n, runId) && Reaches(n, more, o, runId)
    ensures Reaches(m, effects + more, o, runId)
  {
    LawfulAppend(m, effects, more, runId);
    AfterAppend(m, effects, more);
  }

  lemma ReachNothing(m: Past, runId: string)
    ensures Reaches(m, [], m, runId)
  {
  }

  function Holding(m: Past, temp: Option<File>): Past {
    m.(disk := m.disk.(temp := temp))
  }

  /** The run's journal is about to be written. */
  predicate Journaling(m: Past) {
    EndedByCode(m) && m.disk.target.None?
  }

  lemma Created(m: Past, runId: string)
    requires Journaling(m)
    ensures Reaches(m, [CreateTemp(true)], Holding(m, Some(File("", false))), runId)
  {
    One(m, CreateTemp(true), runId);
  }

  lemma Wrote(m: Past, text: string, n: nat, runId: string)
    requires Journaling(m) && text == Entry(m).contents && n <= |text|
    ensures Reaches(m, [CreateTemp(true), Write(text, n)], Holding(m, Some(File(text[..n], false))), runId)
  {
    Created(m, runId);
    hide Reaches, EntryText;
    assert "" + text[..n] == text[..n];
    ReachNext(m, [CreateTemp(true)], Holding(m, Some(File("", false))), Write(text, n), runId);
    assert [CreateTemp(true)] + [Write(text, n)] == [CreateTemp(true), Write(text, n)];
  }

  lemma SyncTried(m: Past, text: string, ok: bool, runId: string)
    requires Journaling(m) && text == Entry(m).contents
    ensures Reaches(m, [CreateTemp(true), Write(text, |text|), Sync(ok)], Holding(m, Some(File(text, ok))), runId)
  {
    Wrote(m, text, |text|, runId);
    hide Reaches, EntryText;
    assert text[..|text|] == text;
    ReachNext(m, [CreateTemp(true), Write(text, |text|)], Holding(m, Some(File(text, false))), Sync(ok), runId);
    assert [CreateTemp(true), Write(text, |text|)] + [Sync(ok)] == [CreateTemp(true), Write(text, |text|), Sync(ok)];
  }

  lemma RenameTried(m: Past, text: string, ok: bool, runId: string)
    requires Journaling(m) && text == Entry(m).contents
    ensures Reaches(m, [CreateTemp(true), Write(text, |text|), Sync(true), Rename(ok)],
                    if ok then m.(disk := Disk(None, Some(Entry(m)))) else Holding(m, Some(File(text, true))), runId)
  {
    SyncTried(m, text, true, runId);
    hide Reaches, EntryText;
    ReachNext(m, [CreateTemp(true), Write(text, |text|), Sync(true)], Holding(m, Some(File(text, true))), Rename(ok), runId);
    assert [CreateTemp(true), Write(text, |text|), Sync(true)] + [Rename(ok)]
        == [CreateTemp(true), Write(text, |text|), Sync(true), Rename(ok)];
  }

  lemma TempIsLawful(m: Past, w: World, runId: string) returns (d: Disk)
    requires Journaling(m) && m.ended == Some(w.exit)
    ensures Reaches(m, TempEffects(w, Entry(m).contents), m.(disk := d), runId)
    ensures d.target == if w.temp && w.written >= |Entry(m).contents| && w.sync && w.rename then Some(Entry(m)) else None
  {
    var text := Entry(m).contents;
    d := m.disk;
    if !w.temp {
      One(m, CreateTemp(false), runId);
    } else if w.written < |text| {
      Wrote(m, text, w.written, runId);
      d := Holding(m, Some(File(text[..w.written], false))).disk;
    } else if !w.sync {
      SyncTried(m, text, false, runId);
      d := Holding(m, Some(File(text, false))).disk;
    } else {
      RenameTried(m, text, w.rename, runId);
      d := if w.rename then Disk(None, Some(Entry(m))) else Holding(m, Some(File(text, true))).disk;
    }
    hide Reaches;
  }

  lemma EffectsOfJournal(m: Past, w: World, runId: string) returns (d: Disk)
    requires Journaling(m) && m.ended == Some(w.exit)
    ensures Reaches(m, JournalEffects(w, Entry(m).contents), m.(disk := d), runId)
    ensures d.target == if Journaled(w, Entry(m).contents) then Some(Entry(m)) else None
  {
    var text := Entry(m).contents;
    d := m.disk;
    One(m, CreateDir(w.dir), runId);
    assert Reaches(m, [CreateDir(w.dir)], m, runId);
    if w.dir {
      hide Reaches, EntryText, TempEffects;
      d := TempIsLawful(m, w, runId);
      ReachMore(m, [CreateDir(true)], m, TempEffects(w, text), m.(disk := d), runId);
    }
  }

  lemma JournalIsLawful(m: Past, w: World, runId: string) returns (n: Past)
    requires m.ended == Some(w.exit) && m.disk.target.None?
    ensures Reaches(m, JournalExit(w), n, runId)
    ensures n == m.(disk := n.disk, noticed := n.noticed)
    ensures w.exit.Code? ==>
      if Journaled(w, Entry(m).contents) then n.disk.target == Some(Entry(m)) else n.disk.target.None? && n.noticed
    ensures !w.exit.Code? ==> n == m
  {
    n := m;
    ReachNothing(m, runId);
    if w.exit.Code? {
      var text := Entry(m).contents;
      hide Reaches, EntryText, JournalEffects, Journaled;
      var d := EffectsOfJournal(m, w, runId);
      n := m.(disk := d);
      if Journaled(w, text) {
        assert JournalEffects(w, text) + [] == JournalEffects(w, text);
      } else {
        ReachNext(m, JournalEffects(w, text), n, Surface(NotJournaled), runId);
        n := n.(noticed := true);
      }
    }
  }

  lemma EndIsLawful(m: Past, exit: ChildExit, runId: string)
    requires m.spawned && m.ended.None?
    ensures Reaches(m, [Ended(exit)], m.(ended := Some(exit)), runId)
  {
    One(m, Ended(exit), runId);
  }

  lemma ReportsReach(m: Past, p: Payload, replies: nat -> Reply, runId: string)
    requires !p.action.StartRun? && Allowed(m, Rpc(p, replies(0)), runId)
    ensures Reaches(m, Attempts(p, replies, 0, FINISH_ATTEMPTS), m, runId)
  {
    ReportsAreLawful(m, p, replies, 0, FINISH_ATTEMPTS, runId);
  }

  lemma ReportFailureIsLawful(m: Past, w: World, reply: Reply, runId: string)
    requires m.ended == Some(w.exit)
    requires w.exit.Code? ==> if Journaled(w, Entry(m).contents) then true else m.disk.target.None?
    requires !w.exit.Code? ==> m.disk.target.None?
    ensures Reaches(m, ReportFailure(w, reply), m, runId)
  {
    ReachNothing(m, runId);
    var notice := if w.exit.Code? then CompletionLost else EndedBySignal;
    if ReportFailure(w, reply) == [Surface(notice)] {
      One(m, Surface(notice), runId);
    }
  }

  lemma ExitIsLawful(m: Past, w: World, boot: Option<string>, runId: string) returns (n: Past)
    requires m.spawned && m.ended.None? && m.disk.target.None?
    ensures Reaches(m, AfterExit(w, boot), n, runId)
  {
    var p := Payload(FinishRun, ExitCode(w.exit), Filtered(boot));
    var report := ReportFailure(w, Answer(w.finish, 0, FINISH_ATTEMPTS));
    var reports := Attempts(p, w.finish, 0, FINISH_ATTEMPTS);
    var last := ExitProcess(ProcessCode(w.exit));
    var m1 := m.(ended := Some(w.exit));
    EndIsLawful(m, w.exit, runId);
    n := JournalIsLawful(m1, w, runId);
    ReportsReach(n, p, w.finish, runId);
    ReportFailureIsLawful(n, w, Answer(w.finish, 0, FINISH_ATTEMPTS), runId);
    assert AfterExit(w, boot) == [Ended(w.exit)] + JournalExit(w) + reports + report + [last];
    hide Reaches, JournalExit, Attempts, Answer, EntryText, Journaled, Filtered, ProcessCode, Stale, ReportFailure, AfterExit;
    ReachMore(m, [Ended(w.exit)], m1, JournalExit(w), n, runId);
    ReachMore(m, [Ended(w.exit)] + JournalExit(w), n, reports, n, runId);
    ReachMore(m, [Ended(w.exit)] + JournalExit(w) + reports, n, report, n, runId);
    FinalStep(m, [Ended(w.exit)] + JournalExit(w) + reports + report, n, last, runId);
    n := Step(n, last);
  }

  lemma FinalStep(m: Past, so: seq<Effect>, n: Past, last: Effect, runId: string)
    requires Reaches(m, so, n, runId) && last.ExitProcess? && n.ended.Some? && last.code == ProcessCode(n.ended.value)
    ensures Reaches(m, so + [last], Step(n, last), runId)
  {
    hide Reaches, ProcessCode;
    ReachNext(m, so, n, last, runId);
  }

  lemma FailureIsLawful(m: Past, w: World, reason: string, boot: Option<string>, runId: string) returns (n: Past)
    requires m.authorized && !m.spawned && !m.failed
    ensures Reaches(m, AfterSpawnFailure(w, reason, boot), n, runId)
  {
    var p := Payload(FailRun(reason), None, Filtered(boot));
    var reply := Answer(w.fail, 0, FINISH_ATTEMPTS);
    var reports := Attempts(p, w.fail, 0, FINISH_ATTEMPTS);
    n := Step(m, SpawnFailed);
    One(m, SpawnFailed, runId);
    assert Reaches(m, [SpawnFailed], n, runId);
    ReportsAreLawful(n, p, w.fail, 0, FINISH_ATTEMPTS, runId);
    assert Reaches(n, reports, n, runId);
    hide Reaches, Attempts, Answer, Filtered;
    ReachMore(m, [SpawnFailed], n, reports, n, runId);
    if reply.Accepted? {
      assert [SpawnFailed] + reports + [] == [SpawnFailed] + reports;
    } else {
      ReachNext(m, [SpawnFailed] + reports, n, Surface(FailureNotReported), runId);
      n := Step(n, Surface(FailureNotReported));
    }
  }

  lemma LastWins(env: Env, key: string, value: string)
    ensures Lookup(env + [(key, value)], key) == Some(value)
  {
  }

  /** Whatever the outside answers, each effect comes in its time: see `Allowed`. */
  lemma EachEffectComesInItsTime(w: World, runId: string, command: seq<string>, reason: string, leftover: Option<File>)
    ensures Lawful(Initial(leftover), Trace(w, runId, command, reason), runId)
  {
    if command != [] {
      var m := Initial(leftover);
      var reply := Answer(w.start, 0, START_ATTEMPTS);
      var started := Attempts(START, w.start, 0, START_ATTEMPTS);
      StartIsLawful(m, w.start, 0, START_ATTEMPTS, runId);
      var m1 := m.(authorized := Authorizes(reply));
      assert Reaches(m, started, m1, runId);
      if !Authorizes(reply) {
        assert started + [] == started;
      } else if w.spawned {
        var env := EnvOf(reply) + [(AGENT_RUN_ID_ENV, runId)];
        LastWins(EnvOf(reply), AGENT_RUN_ID_ENV, runId);
        One(m1, Spawn(env), runId);
        var m2 := Step(m1, Spawn(env));
        assert Reaches(m1, [Spawn(env)], m2, runId);
        var n := ExitIsLawful(m2, w, reply.boot, runId);
        hide Attempts, Answer, AfterExit, AfterSpawnFailure, Lookup;
        ReachMore(m1, [Spawn(env)], m2, AfterExit(w, reply.boot), n, runId);
        ReachMore(m, started, m1, [Spawn(env)] + AfterExit(w, reply.boot), n, runId);
      } else {
        var n := FailureIsLawful(m1, w, reason, reply.boot, runId);
        hide Attempts, Answer, AfterExit, AfterSpawnFailure;
        ReachMore(m, started, m1, AfterSpawnFailure(w, reason, reply.boot), n, runId);
      }
    }
  }

  // ----- crashes -----

  predicate EntryOk(m: Past) {
    m.disk.target.Some? ==> EndedByCode(m) && m.disk.target == Some(Entry(m))
  }

  lemma EntryStepOk(m: Past, e: Effect, runId: string)
    requires EntryOk(m) && Allowed(m, e, runId)
    ensures EntryOk(Step(m, e))
  {
    hide EntryText, Lookup, ProcessCode;
    match e
    case Rename(_) =>
    case Ended(_) =>
    case Rpc(_, _) =>
    case Write(_, _) =>
    case _ =>
  }

  lemma {:induction false} EntryStaysOk(m: Past, effects: seq<Effect>, n: nat, runId: string)
    requires Lawful(m, effects, runId) && EntryOk(m) && n <= |effects|
    ensures EntryOk(After(m, effects[..n]))
  {
    if n > 0 {
      EntryStaysOk(m, effects, n - 1, runId);
      assert effects[..n][..n - 1] == effects[..n - 1] && effects[..n][n - 1] == effects[n - 1];
      hide EntryOk, Allowed, Step;
      assert Allowed(After(m, effects[..n - 1]), effects[n - 1], runId);
      EntryStepOk(After(m, effects[..n - 1]), effects[n - 1], runId);
    }
  }

  /** What can be on disk after the machine stops: contents not synced may be cut
    * short, and a rename may be undone, since its directory is never synced. */
  predicate Survives(d: Disk, left: Disk) {
    left.target.Some? ==>
      && d.target.Some?
      && if d.target.value.synced then left.target.value.contents == d.target.value.contents
         else left.target.value.contents <= d.target.value.contents
  }

  /** Killed after any number of its effects, or stopped with its machine: if there
    * is a journal entry then the child ended with a code of its own, and the entry
    * is that code in full. */
  lemma EntriesAreWhole(w: World, runId: string, command: seq<string>, reason: string, leftover: Option<File>,
                        n: nat, left: Disk)
    requires n <= |Trace(w, runId, command, reason)|
    requires Survives(After(Initial(leftover), Trace(w, runId, command, reason)[..n]).disk, left) && left.target.Some?
    ensures w.exit.Code? && Ended(w.exit) in Trace(w, runId, command, reason)[..n]
    ensures left.target.value.contents == Decimal(w.exit.code)
  {
    var trace := Trace(w, runId, command, reason);
    EachEffectComesInItsTime(w, runId, command, reason, leftover);
    EntryStaysOk(Initial(leftover), trace, n, runId);
    var m := After(Initial(leftover), trace[..n]);
    hide Trace, Lawful, After, Decimal;
    PastHappened(leftover, trace[..n]);
    OneExit(w, runId, command, reason);
    assert Ended(m.ended.value) in trace[..n];
    assert Ended(m.ended.value) in trace;
  }

  ghost predicate Approved(effects: seq<Effect>) {
    exists e :: e in effects && e.Rpc? && e.payload.action.StartRun? && Authorizes(e.reply)
  }

  /** What the past records did happen. */
  ghost predicate Recorded(m: Past, effects: seq<Effect>) {
    && (m.authorized ==> Approved(effects))
    && (m.ended.Some? ==> Ended(m.ended.value) in effects)
    && (m.noticed ==> Surface(NotJournaled) in effects)
  }

  lemma RecordedStep(m: Past, effects: seq<Effect>, e: Effect)
    requires Recorded(m, effects)
    ensures Recorded(Step(m, e), effects + [e])
  {
    var more := effects + [e];
    assert e in more && forall f <- effects :: f in more;
    hide Authorizes, DiskStep;
    if m.authorized {
      var f :| f in effects && f.Rpc? && f.payload.action.StartRun? && Authorizes(f.reply);
      assert f in more;
    }
  }

  lemma {:induction false} PastHappened(leftover: Option<File>, effects: seq<Effect>)
    ensures Recorded(After(Initial(leftover), effects), effects)
  {
    if effects != [] {
      var k := |effects| - 1;
      PastHappened(leftover, effects[..k]);
      assert effects == effects[..k] + [effects[k]];
      hide Recorded, Step;
      RecordedStep(After(Initial(leftover), effects[..k]), effects[..k], effects[k]);
    }
  }

  /** The child ends once. */
  predicate OnlyExit(effects: seq<Effect>, exit: ChildExit) {
    forall e <- effects :: e.Ended? ==> e.exit == exit
  }

  lemma OnlyExitBoth(a: seq<Effect>, b: seq<Effect>, exit: ChildExit)
    requires OnlyExit(a, exit) && OnlyExit(b, exit)
    ensures OnlyExit(a + b, exit)
  {
  }

  lemma {:induction false} AttemptsOnlyExit(p: Payload, replies: nat -> Reply, k: nat, max: nat, exit: ChildExit)
    ensures OnlyExit(Attempts(p, replies, k, max), exit)
    decreases max - k
  {
    if k < max && !Final(replies(k)) && k + 1 != max {
      AttemptsOnlyExit(p, replies, k + 1, max, exit);
    }
  }

  lemma AfterExitOnlyExit(w: World, boot: Option<string>)
    ensures OnlyExit(AfterExit(w, boot), w.exit)
  {
    var reports := Attempts(Payload(FinishRun, ExitCode(w.exit), Filtered(boot)), w.finish, 0, FINISH_ATTEMPTS);
    AttemptsOnlyExit(Payload(FinishRun, ExitCode(w.exit), Filtered(boot)), w.finish, 0, FINISH_ATTEMPTS, w.exit);
    var report := ReportFailure(w, Answer(w.finish, 0, FINISH_ATTEMPTS));
    assert OnlyExit([Ended(w.exit)], w.exit) && OnlyExit(report, w.exit);
    hide Attempts, Answer, Filtered, Stale, Journaled, EntryText, ProcessCode, ReportFailure;
    assert OnlyExit(JournalExit(w), w.exit);
    hide JournalExit, OnlyExit;
    OnlyExitBoth([Ended(w.exit)], JournalExit(w), w.exit);
    OnlyExitBoth([Ended(w.exit)] + JournalExit(w), reports, w.exit);
    OnlyExitBoth([Ended(w.exit)] + JournalExit(w) + reports, report, w.exit);
    LastIsNoExit(w.exit, ProcessCode(w.exit));
    OnlyExitBoth([Ended(w.exit)] + JournalExit(w) + reports + report, [ExitProcess(ProcessCode(w.exit))], w.exit);
  }

  lemma LastIsNoExit(exit: ChildExit, code: int)
    ensures OnlyExit([ExitProcess(code)], exit)
  {
  }

  lemma OneExit(w: World, runId: string, command: seq<string>, reason: string)
    ensures OnlyExit(Trace(w, runId, command, reason), w.exit)
  {
    var reply := Answer(w.start, 0, START_ATTEMPTS);
    var started := Attempts(START, w.start, 0, START_ATTEMPTS);
    AttemptsOnlyExit(START, w.start, 0, START_ATTEMPTS, w.exit);
    AfterExitOnlyExit(w, if reply.Accepted? then reply.boot else None);
    if Authorizes(reply) && !w.spawned {
      AttemptsOnlyExit(Payload(FailRun(reason), None, Filtered(reply.boot)), w.fail, 0, FINISH_ATTEMPTS, w.exit);
    }
    hide Attempts, Answer, Filtered, AfterExit;
  }

  /** The child exists only once the host has said so. */
  lemma ChildNeedsAuthorization(w: World, runId: string, command: seq<string>, reason: string, i: nat)
    requires i < |Trace(w, runId, command, reason)| && Trace(w, runId, command, reason)[i].Spawn?
    ensures Approved(Trace(w, runId, command, reason)[..i])
  {
    EachEffectComesInItsTime(w, runId, command, reason, None);
    PastHappened(None, Trace(w, runId, command, reason)[..i]);
  }

  /** The end is reported only after the child's end, with its code; and for a code
    * exit only with the whole entry on disk, or after saying that there is none. */
  lemma EndIsDurableBeforeReported(w: World, runId: string, command: seq<string>, reason: string,
                                   leftover: Option<File>, i: nat)
    requires i < |Trace(w, runId, command, reason)|
    requires Trace(w, runId, command, reason)[i].Rpc? && Trace(w, runId, command, reason)[i].payload.action.FinishRun?
    ensures var done := Trace(w, runId, command, reason)[..i];
      && Ended(w.exit) in done && Trace(w, runId, command, reason)[i].payload.exitCode == ExitCode(w.exit)
      && (w.exit.Code? ==>
            || After(Initial(leftover), done).disk.target == Some(File(Decimal(w.exit.code), true))
            || Surface(NotJournaled) in done)
  {
    var trace := Trace(w, runId, command, reason);
    EachEffectComesInItsTime(w, runId, command, reason, leftover);
    var m := After(Initial(leftover), trace[..i]);
    assert Allowed(m, trace[i], runId);
    hide Trace, Lawful, After, Decimal, Allowed;
    PastHappened(leftover, trace[..i]);
    OneExit(w, runId, command, reason);
    assert Ended(m.ended.value) in trace[..i];
    assert Ended(m.ended.value) in trace;
  }
}
