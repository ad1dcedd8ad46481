/** The chat transcript: messages by id, and the request the agent is blocked on.
  *
  * A map from id to message is the sequence of its values in insertion order.
  * Ids are compared by `less`, any strict total order on strings.
  */
module Transcript {
  import opened Basics
  import Seqs

  const OPTIMISTIC_MESSAGE_MATCH_WINDOW_MS: int := 60_000

  const LOCAL_INPUT: string := "local-input-"

  datatype Role = User | Assistant

  datatype ToolCall = ToolCall(id: string, name: string, status: string, summary: Option<string>)

  datatype Change = Read | Edited | Created | Deleted

  datatype FileChange = FileChange(change: Change, path: string)

  datatype Message = Message(
    id: string,
    role: Role,
    text: Option<string>,
    toolCalls: seq<ToolCall>,
    files: seq<FileChange>,
    subAgentsActive: int,
    ts: int)

  datatype Attention = Attention(kind: string, requestId: string, prompt: string)

  datatype State = State(messages: seq<Message>, attention: Option<Attention>)

  datatype Event =
    | AgentMessage(message: Message)
    | Agent(
        status: string,
        attentionKind: Option<string>,
        requestId: Option<string>,
        command: Option<string>,
        question: Option<string>)
    | AgentDecision(request: string)
    | AgentAnswer(request: string)
    | AgentInput
    | AgentInterrupt

  // ----- maps in insertion order -----

  ghost predicate DistinctIds(ms: seq<Message>) {
    forall i, j :: 0 <= i < j < |ms| ==> ms[i].id != ms[j].id
  }

  /** Where the entry for `id` is, or the end. */
  function IndexOf(ms: seq<Message>, id: string): (i: nat)
    ensures i <= |ms| && (i < |ms| ==> ms[i].id == id)
    ensures forall j :: 0 <= j < i ==> ms[j].id != id
  {
    if ms == [] then 0 else if ms[0].id == id then 0 else IndexOf(ms[1..], id) + 1
  }

  predicate Has(ms: seq<Message>, id: string) {
    IndexOf(ms, id) < |ms|
  }

  /** A new key goes last; setting a known one keeps its place. */
  function With(ms: seq<Message>, m: Message): seq<Message> {
    var i := IndexOf(ms, m.id);
    if i < |ms| then ms[i := m] else ms + [m]
  }

  function Without(ms: seq<Message>, id: string): seq<Message> {
    var i := IndexOf(ms, id);
    if i < |ms| then ms[..i] + ms[i + 1..] else ms
  }

  // ----- messages -----

  function NormalizeMessageTs(ts: int): int {
    if 0 < ts < 1_000_000_000_000 then ts * 1000 else ts
  }

  function Normalized(m: Message): Message {
    m.(ts := NormalizeMessageTs(m.ts))
  }

  predicate IsSpace(c: char) {
    || '\U{0009}' <= c <= '\U{000D}' || c == ' ' || c == '\U{00A0}' || c == '\U{1680}'
    || '\U{2000}' <= c <= '\U{200A}' || c == '\U{2028}' || c == '\U{2029}' || c == '\U{202F}'
    || c == '\U{205F}' || c == '\U{3000}' || c == '\U{FEFF}'
  }

  function Trim(s: string): string {
    if s == "" then ""
    else if IsSpace(s[0]) then Trim(s[1..])
    else if IsSpace(s[|s| - 1]) then Trim(s[..|s| - 1])
    else s
  }

  function TrimText(text: Option<string>): Option<string> {
    if text.Some? then Some(Trim(text.value)) else None
  }

  predicate Optimistic(m: Message) {
    LOCAL_INPUT <= m.id
  }

  function Abs(x: int): int {
    if x < 0 then -x else x
  }

  /** Whether optimistic `c` stands for the user message `m`. */
  predicate Matches(c: Message, m: Message) {
    && Optimistic(c) && TrimText(c.text) == TrimText(m.text)
    && Abs(c.ts - NormalizeMessageTs(m.ts)) <= OPTIMISTIC_MESSAGE_MATCH_WINDOW_MS
  }

  /** The first entry that matches `m`, or the end. */
  function FirstMatch(ms: seq<Message>, m: Message): (i: nat)
    ensures i <= |ms| && (i < |ms| ==> Matches(ms[i], m))
    ensures forall j :: 0 <= j < i ==> !Matches(ms[j], m)
  {
    if ms == [] then 0 else if Matches(ms[0], m) then 0 else FirstMatch(ms[1..], m) + 1
  }

  predicate FromUser(m: Message) {
    m.role.User? && !Optimistic(m)
  }

  /** What is left once a user message has taken the place of its optimistic copy. */
  function Settled(ms: seq<Message>, m: Message): seq<Message> {
    var i := FirstMatch(ms, m);
    if FromUser(m) && i < |ms| then Without(ms, ms[i].id) else ms
  }

  /** Content is replaced, the first timestamp kept. */
  function Entered(ms: seq<Message>, m: Message): Message {
    var i := IndexOf(ms, m.id);
    if i < |ms| then m.(ts := ms[i].ts) else Normalized(m)
  }

  function Upserted(ms: seq<Message>, m: Message): seq<Message> {
    With(Settled(ms, m), Entered(ms, m))
  }

  class MessageMap {
    var values: seq<Message>

    constructor (values: seq<Message>)
      ensures this.values == values
    {
      this.values := values;
    }

    method Delete(id: string)
      modifies this
      ensures values == Without(old(values), id)
    {
      var i := IndexOf(values, id);
      if i < |values| {
        values := values[..i] + values[i + 1..];
      }
    }

    method Set(m: Message)
      modifies this
      ensures values == With(old(values), m)
    {
      var i := IndexOf(values, m.id);
      values := if i < |values| then values[i := m] else values + [m];
    }
  }

  /** Leaves `state` alone and changes a copy of its map. */
  method UpsertMessage(state: State, message: Message) returns (next: State)
    ensures next == state.(messages := Upserted(state.messages, message))
  {
    var existing := IndexOf(state.messages, message.id);
    var normalized := if message.ts == NormalizeMessageTs(message.ts) then message else Normalized(message);
    var messages := new MessageMap(state.messages);
    if normalized.role.User? && !Optimistic(normalized) {
      var optimistic := FirstMatch(messages.values, message);
      if optimistic < |messages.values| {
        messages.Delete(messages.values[optimistic].id);
      }
    }
    messages.Set(if existing < |state.messages| then normalized.(ts := state.messages[existing].ts) else normalized);
    next := state.(messages := messages.values);
  }

  // ----- events -----

  predicate Given(s: Option<string>) {
    s.Some? && s.value != ""
  }

  function OrElse(a: Option<string>, b: Option<string>): Option<string> {
    if a.Some? then a else b
  }

  function AttentionFor(e: Event): Option<Attention>
    requires e.Agent?
  {
    if e.status == "attention" && Given(e.attentionKind) && Given(e.requestId) then
      var preferred := if e.attentionKind.value == "command" then e.command else e.question;
      var prompt := OrElse(OrElse(preferred, e.command), e.question);
      Some(Attention(e.attentionKind.value, e.requestId.value, if prompt.Some? then prompt.value else ""))
    else None
  }

  function ClearedIfMatches(a: Option<Attention>, request: string): Option<Attention> {
    if a.Some? && a.value.requestId == request then None else a
  }

  function Attended(a: Option<Attention>, e: Event): Option<Attention> {
    match e
    case Agent(_, _, _, _, _) => AttentionFor(e)
    case AgentDecision(request) => ClearedIfMatches(a, request)
    case AgentAnswer(request) => ClearedIfMatches(a, request)
    case _ => a
  }

  function Received(ms: seq<Message>, e: Event): seq<Message> {
    if e.AgentMessage? then Upserted(ms, e.message) else ms
  }

  function Applied(s: State, e: Event): State {
    State(Received(s.messages, e), Attended(s.attention, e))
  }

  function ReceivedAll(ms: seq<Message>, log: seq<Event>): seq<Message> {
    if log == [] then ms else Received(ReceivedAll(ms, log[..|log| - 1]), log[|log| - 1])
  }

  function AttendedAll(a: Option<Attention>, log: seq<Event>): Option<Attention> {
    if log == [] then a else Attended(AttendedAll(a, log[..|log| - 1]), log[|log| - 1])
  }

  /** A whole log, one event after another. */
  function AppliedAll(s: State, log: seq<Event>): (t: State)
    ensures t == State(ReceivedAll(s.messages, log), AttendedAll(s.attention, log))
  {
    if log == [] then s else Applied(AppliedAll(s, log[..|log| - 1]), log[|log| - 1])
  }

  // ----- what one message does to the map -----

  lemma WithKeepsDistinct(ms: seq<Message>, m: Message)
    requires DistinctIds(ms)
    ensures DistinctIds(With(ms, m))
  {
  }

  lemma WithoutKeepsDistinct(ms: seq<Message>, id: string)
    requires DistinctIds(ms)
    ensures DistinctIds(Without(ms, id))
  {
  }

  lemma WithHas(ms: seq<Message>, m: Message, c: Message)
    requires DistinctIds(ms)
    ensures c in With(ms, m) <==> if c.id == m.id then c == m else c in ms
  {
    var i := IndexOf(ms, m.id);
    var r := With(ms, m);
    assert i < |ms| ==> r[i] == m;
    if c in ms && c.id != m.id {
      var j :| 0 <= j < |ms| && ms[j] == c;
      assert r[j] == c;
    }
  }

  lemma WithoutHas(ms: seq<Message>, id: string, c: Message)
    requires DistinctIds(ms)
    ensures c in Without(ms, id) <==> c in ms && c.id != id
  {
    var i := IndexOf(ms, id);
    if c in ms && c.id != id && i < |ms| {
      var j :| 0 <= j < |ms| && ms[j] == c;
      assert ms == ms[..i] + [ms[i]] + ms[i + 1..];
    }
  }

  lemma UpsertKeepsDistinct(ms: seq<Message>, m: Message)
    requires DistinctIds(ms)
    ensures DistinctIds(Upserted(ms, m))
  {
    var i := FirstMatch(ms, m);
    if i < |ms| {
      WithoutKeepsDistinct(ms, ms[i].id);
    }
    hide DistinctIds;
    WithKeepsDistinct(Settled(ms, m), Entered(ms, m));
  }

  /** The optimistic entry that user message `m` replaces, if any. */
  function Replaced(ms: seq<Message>, m: Message): Option<string> {
    var i := FirstMatch(ms, m);
    if FromUser(m) && i < |ms| then Some(ms[i].id) else None
  }

  lemma ReplacedIsOptimistic(ms: seq<Message>, m: Message)
    ensures Replaced(ms, m).Some? ==> LOCAL_INPUT <= Replaced(ms, m).value && Has(ms, Replaced(ms, m).value)
    ensures Replaced(ms, m).None? <==> !FromUser(m) || forall c <- ms :: !Matches(c, m)
  {
  }

  /** One message: its own entry is set, the optimistic one it replaces goes, and
    * every other entry stays as it is. */
  lemma UpsertHas(ms: seq<Message>, m: Message, c: Message)
    requires DistinctIds(ms)
    ensures c in Upserted(ms, m) <==>
      if c.id == m.id then c == Entered(ms, m) else c in ms && Replaced(ms, m) != Some(c.id)
  {
    var i := FirstMatch(ms, m);
    if FromUser(m) && i < |ms| {
      WithoutKeepsDistinct(ms, ms[i].id);
      WithoutHas(ms, ms[i].id, c);
    }
    hide DistinctIds, With, Without, Matches;
    WithHas(Settled(ms, m), Entered(ms, m), c);
  }

  // ----- a log twice over -----

  /** Nothing in the log came from this device. */
  ghost predicate FromHost(log: seq<Event>) {
    forall e <- log :: e.AgentMessage? ==> !Optimistic(e.message)
  }

  function LastOf(log: seq<Event>, id: string): Option<Message> {
    if log == [] then None
    else
      var e := log[|log| - 1];
      if e.AgentMessage? && e.message.id == id then Some(e.message) else LastOf(log[..|log| - 1], id)
  }

  /** `c` with the content the log last gives its id. */
  function Over(c: Message, log: seq<Event>): Message {
    var last := LastOf(log, c.id);
    if last.Some? then last.value.(ts := c.ts) else c
  }

  lemma {:induction false} LastOfHas(log: seq<Event>, id: string)
    ensures LastOf(log, id).Some? ==> AgentMessage(LastOf(log, id).value) in log && LastOf(log, id).value.id == id
  {
    if log != [] {
      LastOfHas(log[..|log| - 1], id);
    }
  }

  lemma FromHostPrefix(log: seq<Event>, n: nat)
    requires FromHost(log) && n <= |log|
    ensures FromHost(log[..n]) && FromHost(log[n..])
  {
  }

  lemma {:induction false} ReceivedAllDistinct(ms: seq<Message>, log: seq<Event>)
    requires DistinctIds(ms)
    ensures DistinctIds(ReceivedAll(ms, log))
  {
    if log != [] {
      var n := |log| - 1;
      ReceivedAllDistinct(ms, log[..n]);
      hide DistinctIds, Upserted;
      if log[n].AgentMessage? {
        UpsertKeepsDistinct(ReceivedAll(ms, log[..n]), log[n].message);
      }
    }
  }

  /** Afterwards an entry has the content the log last gave its id. */
  lemma {:induction false} LogIsLast(ms: seq<Message>, log: seq<Event>, c: Message)
    requires DistinctIds(ms) && c in ReceivedAll(ms, log)
    ensures c == Over(c, log)
  {
    if log != [] {
      var n := |log| - 1;
      var before := ReceivedAll(ms, log[..n]);
      ReceivedAllDistinct(ms, log[..n]);
      if log[n].AgentMessage? {
        UpsertHas(before, log[n].message, c);
      }
      hide DistinctIds, Upserted;
      if c in before && !(log[n].AgentMessage? && log[n].message.id == c.id) {
        LogIsLast(ms, log[..n], c);
      }
    }
  }

  /** And every id of the log has an entry. */
  lemma {:induction false} LogIsShown(ms: seq<Message>, log: seq<Event>, e: Event)
    requires DistinctIds(ms) && FromHost(log) && e in log && e.AgentMessage?
    ensures exists d :: d in ReceivedAll(ms, log) && d.id == e.message.id
  {
    var n := |log| - 1;
    var before := ReceivedAll(ms, log[..n]);
    FromHostPrefix(log, n);
    ReceivedAllDistinct(ms, log[..n]);
    assert log == log[..n] + [log[n]] && log[n] in log;
    if log[n].AgentMessage? && log[n].message.id == e.message.id {
      UpsertHas(before, log[n].message, Entered(before, log[n].message));
    } else {
      LogIsShown(ms, log[..n], e);
      var d :| d in before && d.id == e.message.id;
      if log[n].AgentMessage? {
        StaysShown(before, log[n].message, d, e);
      }
    }
  }

  /** An entry the host has given stays when another id's message arrives. */
  lemma StaysShown(ms: seq<Message>, m: Message, d: Message, e: Event)
    requires DistinctIds(ms) && d in ms && d.id != m.id
    requires e.AgentMessage? && d.id == e.message.id && !Optimistic(e.message)
    ensures d in Upserted(ms, m)
  {
    UpsertHas(ms, m, d);
    hide Upserted, DistinctIds;
    ReplacedIsOptimistic(ms, m);
  }

  /** No user message of the log stands for an optimistic entry. */
  ghost predicate NoMatch(ms: seq<Message>, log: seq<Event>) {
    forall e, c :: e in log && c in ms && e.AgentMessage? && FromUser(e.message) ==> !Matches(c, e.message)
  }

  ghost predicate AllKnown(ms: seq<Message>, log: seq<Event>) {
    forall e :: e in log && e.AgentMessage? ==> exists d :: d in ms && d.id == e.message.id
  }

  function Overlaid(ms: seq<Message>, log: seq<Event>): seq<Message> {
    seq(|ms|, i requires 0 <= i < |ms| => Over(ms[i], log))
  }

  /** With nothing to match, a message replaces no other. */
  lemma OverlaidSettles(ms: seq<Message>, log: seq<Event>, e: Event)
    requires FromHost(log) && e.AgentMessage? && NoMatch(ms, [e])
    ensures Settled(Overlaid(ms, log), e.message) == Overlaid(ms, log)
  {
    var m, r := e.message, Overlaid(ms, log);
    hide TrimText;
    forall c | c in r && FromUser(m)
      ensures !Matches(c, m)
    {
      var i :| 0 <= i < |ms| && c == Over(ms[i], log);
      LastOfHas(log, ms[i].id);
      assert e in [e] && ms[i] in ms;
    }
    ReplacedIsOptimistic(r, m);
  }

  lemma OverlaidKeepsPlaces(ms: seq<Message>, log: seq<Event>, k: nat)
    requires k < |ms|
    ensures |Overlaid(ms, log)| == |ms|
    ensures Overlaid(ms, log)[k].id == ms[k].id && Overlaid(ms, log)[k].ts == ms[k].ts
  {
    LastOfHas(log, ms[k].id);
  }

  lemma OverlaidStep(ms: seq<Message>, log: seq<Event>, e: Event)
    requires DistinctIds(ms) && FromHost(log) && e.AgentMessage? && NoMatch(ms, [e])
    requires exists d :: d in ms && d.id == e.message.id
    ensures Upserted(Overlaid(ms, log), e.message) == Overlaid(ms, log + [e])
  {
    var m, r := e.message, Overlaid(ms, log);
    OverlaidSettles(ms, log, e);
    hide Settled, Matches, FirstMatch, NoMatch, FromHost, TrimText;
    assert (log + [e])[..|log|] == log;
    var k :| 0 <= k < |ms| && ms[k].id == m.id;
    forall i | 0 <= i < |ms|
      ensures r[i].id == ms[i].id && r[i].ts == ms[i].ts
    {
      OverlaidKeepsPlaces(ms, log, i);
    }
    assert IndexOf(r, m.id) == k;
    assert Upserted(r, m) == r[k := m.(ts := ms[k].ts)];
  }

  /** When everything is known and nothing matches, a log only replaces content. */
  lemma {:induction false} ReplayOverlays(ms: seq<Message>, log: seq<Event>)
    requires DistinctIds(ms) && FromHost(log) && NoMatch(ms, log) && AllKnown(ms, log)
    ensures ReceivedAll(ms, log) == Overlaid(ms, log)
  {
    if log != [] {
      var n := |log| - 1;
      FromHostPrefix(log, n);
      assert log == log[..n] + [log[n]];
      assert forall e <- log[..n] :: e in log;
      assert NoMatch(ms, log[..n]) && AllKnown(ms, log[..n]);
      ReplayOverlays(ms, log[..n]);
      if log[n].AgentMessage? {
        assert NoMatch(ms, [log[n]]);
        OverlaidStep(ms, log[..n], log[n]);
      }
    }
  }

  lemma {:induction false} ReceivedAllSplit(ms: seq<Message>, log: seq<Event>, n: nat)
    requires n <= |log|
    ensures ReceivedAll(ms, log) == ReceivedAll(ReceivedAll(ms, log[..n]), log[n..])
    decreases |log|
  {
    hide Received;
    if n == |log| {
      assert log[..n] == log && log[n..] == [];
    } else {
      var last := |log| - 1;
      ReceivedAllSplit(ms, log[..last], n);
      assert log[..last][..n] == log[..n] && log[..last][n..] == log[n..][..last - n];
      assert log[n..][|log[n..]| - 1] == log[last];
    }
  }

  /** The host adds no optimistic entries and changes none. */
  lemma {:induction false} OptimisticOnlyLeave(ms: seq<Message>, log: seq<Event>, c: Message)
    requires DistinctIds(ms) && FromHost(log) && Optimistic(c) && c in ReceivedAll(ms, log)
    ensures c in ms
  {
    if log != [] {
      var n := |log| - 1;
      FromHostPrefix(log, n);
      ReceivedAllDistinct(ms, log[..n]);
      assert log[n] in log;
      if log[n].AgentMessage? {
        UpsertHas(ReceivedAll(ms, log[..n]), log[n].message, c);
      }
      OptimisticOnlyLeave(ms, log[..n], c);
    }
  }

  lemma SameEntry(ms: seq<Message>, c: Message, d: Message)
    requires DistinctIds(ms) && c in ms && d in ms && c.id == d.id
    ensures c == d
  {
  }

  /** A user message that stands for an optimistic entry takes one away. */
  lemma MatchTakesOne(ms: seq<Message>, m: Message, c: Message) returns (gone: Message)
    requires DistinctIds(ms) && FromUser(m) && c in ms && Matches(c, m)
    ensures gone in ms && Optimistic(gone) && gone !in Upserted(ms, m)
  {
    var i := FirstMatch(ms, m);
    assert i < |ms| by {
      var k :| 0 <= k < |ms| && ms[k] == c;
    }
    gone := ms[i];
    UpsertHas(ms, m, gone);
  }

  lemma MatchIsNotIdempotent(ms: seq<Message>, log: seq<Event>, k: nat, c: Message)
    requires DistinctIds(ms) && FromHost(log) && k < |log| && log[k].AgentMessage? && FromUser(log[k].message)
    requires c in ms && Matches(c, log[k].message)
    ensures ReceivedAll(ms, log) != ms
  {
    var r := ReceivedAll(ms, log[..k]);
    FromHostPrefix(log, k);
    FromHostPrefix(log, k + 1);
    ReceivedAllDistinct(ms, log[..k]);
    var gone := c;
    assert Optimistic(c);
    assert log[..k + 1][..k] == log[..k];
    assert ReceivedAll(ms, log[..k + 1]) == Upserted(r, log[k].message);
    hide ReceivedAll, Upserted, Matches, FromUser, FromHost, DistinctIds, Optimistic;
    if c in r {
      gone := MatchTakesOne(r, log[k].message, c);
      OptimisticOnlyLeave(ms, log[..k], gone);
      StaysGone(ms, log, k + 1, gone);
    } else {
      StaysGone(ms, log, k, gone);
    }
  }

  lemma StaysGone(ms: seq<Message>, log: seq<Event>, k: nat, gone: Message)
    requires DistinctIds(ms) && FromHost(log) && k <= |log| && Optimistic(gone)
    requires gone !in ReceivedAll(ms, log[..k])
    ensures gone !in ReceivedAll(ms, log)
  {
    FromHostPrefix(log, k);
    ReceivedAllDistinct(ms, log[..k]);
    ReceivedAllSplit(ms, log, k);
    if gone in ReceivedAll(ms, log) {
      OptimisticOnlyLeave(ReceivedAll(ms, log[..k]), log[k..], gone);
    }
  }

  predicate HasStatus(log: seq<Event>) {
    exists e :: e in log && e.Agent?
  }

  /** The last status decides, and without one a log can only clear. */
  lemma {:induction false} AttentionOfALog(a: Option<Attention>, b: Option<Attention>, log: seq<Event>)
    ensures HasStatus(log) ==> AttendedAll(a, log) == AttendedAll(b, log)
    ensures !HasStatus(log) ==> AttendedAll(None, log) == None && (AttendedAll(a, log) == a || AttendedAll(a, log) == None)
  {
    if log != [] {
      var n := |log| - 1;
      AttentionOfALog(a, b, log[..n]);
      assert log == log[..n] + [log[n]];
      assert log[n] in log && HasStatus(log) == (HasStatus(log[..n]) || log[n].Agent?);
    }
  }

  /** Applying a log of the host's events a second time changes nothing, if and only
    * if no user message in it stands for an optimistic entry that is still there. */
  lemma ReplayIsIdempotent(s: State, log: seq<Event>)
    requires DistinctIds(s.messages) && FromHost(log)
    ensures AppliedAll(AppliedAll(s, log), log) == AppliedAll(s, log) <==> NoMatch(AppliedAll(s, log).messages, log)
    ensures AppliedAll(AppliedAll(s, log), log).attention == AppliedAll(s, log).attention
  {
    var t := AppliedAll(s, log);
    ReceivedAllDistinct(s.messages, log);
    AttentionOfALog(s.attention, t.attention, log);
    hide AttendedAll, Attended, HasStatus;
    if NoMatch(t.messages, log) {
      forall e | e in log && e.AgentMessage?
        ensures exists d :: d in t.messages && d.id == e.message.id
      {
        LogIsShown(s.messages, log, e);
      }
      ReplayOverlays(t.messages, log);
      forall c | c in t.messages
        ensures c == Over(c, log)
      {
        LogIsLast(s.messages, log, c);
      }
      assert Overlaid(t.messages, log) == t.messages;
    } else {
      var e, c :| e in log && c in t.messages && e.AgentMessage? && FromUser(e.message) && Matches(c, e.message);
      var k :| 0 <= k < |log| && log[k] == e;
      MatchIsNotIdempotent(t.messages, log, k, c);
    }
  }

  /** So with no optimistic entry at all, replaying is always safe. */
  lemma ReplayWithoutOptimisticIsIdempotent(s: State, log: seq<Event>)
    requires DistinctIds(s.messages) && FromHost(log) && forall c <- s.messages :: !Optimistic(c)
    ensures AppliedAll(AppliedAll(s, log), log) == AppliedAll(s, log)
  {
    forall c | c in AppliedAll(s, log).messages
      ensures !Optimistic(c)
    {
      if Optimistic(c) {
        OptimisticOnlyLeave(s.messages, log, c);
      }
    }
    ReplayIsIdempotent(s, log);
  }

  const SENT: Message := Message("", User, Some("yes"), [], [], 0, 2_000_000_000_000)

  /** Two equal messages sent close together: replaying the echo of the first takes
    * the second off the screen. */
  lemma ReplayCanDropAnUnsentMessage(log: seq<Event>, s: State)
    requires log == [AgentMessage(SENT.(id := "m"))]
    requires s == State([SENT.(id := "local-input-1"), SENT.(id := "local-input-2")], None)
    ensures AppliedAll(s, log) == State([SENT.(id := "local-input-2"), SENT.(id := "m")], None)
    ensures AppliedAll(AppliedAll(s, log), log) == State([SENT.(id := "m")], None)
  {
    var m, a, b := SENT.(id := "m"), SENT.(id := "local-input-1"), SENT.(id := "local-input-2");
    assert log[..0] == [];
    hide ReceivedAll, AttendedAll, Trim;
    assert FirstMatch([a, b], m) == 0 && FirstMatch([b, m], m) == 0;
    assert Upserted([a, b], m) == [b, m];
    assert Upserted([b, m], m) == [m];
  }

  // ----- rows -----

  type Less = (string, string) -> bool

  ghost predicate StrictTotal(less: Less) {
    && (forall a :: !less(a, a))
    && (forall a, b, c :: less(a, b) && less(b, c) ==> less(a, c))
    && (forall a, b :: a != b ==> less(a, b) || less(b, a))
  }

  predicate Before(less: Less, a: Message, b: Message) {
    a.ts < b.ts || (a.ts == b.ts && less(a.id, b.id))
  }

  lemma BeforeIsStrictTotal(less: Less, a: Message, b: Message, c: Message)
    requires StrictTotal(less)
    ensures !(Before(less, a, b) && Before(less, b, a))
    ensures Before(less, a, b) && Before(less, b, c) ==> Before(less, a, c)
    ensures a.id != b.id ==> Before(less, a, b) || Before(less, b, a)
  {
  }

  function Insert(less: Less, m: Message, ms: seq<Message>): seq<Message> {
    if ms == [] then [m]
    else if Before(less, ms[0], m) then [ms[0]] + Insert(less, m, ms[1..])
    else [m] + ms
  }

  /** By timestamp, then id. */
  function Ordered(less: Less, ms: seq<Message>): seq<Message> {
    if ms == [] then [] else Insert(less, ms[0], Ordered(less, ms[1..]))
  }

  ghost predicate InOrder(less: Less, ms: seq<Message>) {
    forall i, j :: 0 <= i < j < |ms| ==> Before(less, ms[i], ms[j])
  }

  lemma {:induction false} InsertHas(less: Less, m: Message, ms: seq<Message>, c: Message)
    ensures c in Insert(less, m, ms) <==> c == m || c in ms
  {
    if ms != [] {
      InsertHas(less, m, ms[1..], c);
      assert ms == [ms[0]] + ms[1..];
    }
  }

  lemma {:induction false} OrderedHas(less: Less, ms: seq<Message>, c: Message)
    ensures c in Ordered(less, ms) <==> c in ms
  {
    if ms != [] {
      OrderedHas(less, ms[1..], c);
      InsertHas(less, ms[0], Ordered(less, ms[1..]), c);
      assert ms == [ms[0]] + ms[1..];
    }
  }

  lemma InOrderCons(less: Less, m: Message, ms: seq<Message>)
    requires InOrder(less, ms) && forall c <- ms :: Before(less, m, c)
    ensures InOrder(less, [m] + ms)
  {
    assert forall i :: 0 <= i < |ms| ==> ms[i] in ms;
  }

  lemma {:induction false} InsertInOrder(less: Less, m: Message, ms: seq<Message>)
    requires StrictTotal(less) && InOrder(less, ms) && forall c <- ms :: c.id != m.id
    ensures InOrder(less, Insert(less, m, ms))
  {
    if ms == [] {
    } else if Before(less, ms[0], m) {
      InsertInOrder(less, m, ms[1..]);
      forall c | c in Insert(less, m, ms[1..])
        ensures Before(less, ms[0], c)
      {
        InsertHas(less, m, ms[1..], c);
        if c != m {
          var k :| 0 <= k < |ms[1..]| && ms[1..][k] == c;
          assert ms[k + 1] == c;
        }
      }
      hide Before, StrictTotal;
      InOrderCons(less, ms[0], Insert(less, m, ms[1..]));
    } else {
      forall c | c in ms
        ensures Before(less, m, c)
      {
        BeforeIsStrictTotal(less, m, ms[0], c);
        var k :| 0 <= k < |ms| && ms[k] == c;
        assert k > 0 ==> Before(less, ms[0], ms[k]);
      }
      hide Before, StrictTotal;
      InOrderCons(less, m, ms);
    }
  }

  lemma {:induction false} OrderedInOrder(less: Less, ms: seq<Message>)
    requires StrictTotal(less) && DistinctIds(ms)
    ensures InOrder(less, Ordered(less, ms))
  {
    if ms != [] {
      OrderedInOrder(less, ms[1..]);
      forall c | c in Ordered(less, ms[1..])
        ensures c.id != ms[0].id
      {
        OrderedHas(less, ms[1..], c);
      }
      InsertInOrder(less, ms[0], Ordered(less, ms[1..]));
    }
  }

  lemma HeadIn(ms: seq<Message>)
    requires ms != []
    ensures ms[0] in ms
  {
  }

  /** There is one way to put messages in order. */
  lemma {:induction false} OneOrder(less: Less, a: seq<Message>, b: seq<Message>)
    requires StrictTotal(less) && InOrder(less, a) && InOrder(less, b) && forall c :: c in a <==> c in b
    ensures a == b
    decreases |a|
  {
    if a == [] {
      if b != [] {
        HeadIn(b);
        assert false;
      }
    } else {
      assert a[0] in a && a[0] in b;
      assert b[0] in b && b[0] in a;
      SameHead(less, a, b);
      SameHead(less, b, a);
      BeforeIsStrictTotal(less, a[0], b[0], b[0]);
      forall c
        ensures c in a[1..] <==> c in b[1..]
      {
        TailHas(less, a, c);
        TailHas(less, b, c);
      }
      OneOrder(less, a[1..], b[1..]);
    }
  }

  lemma SameHead(less: Less, a: seq<Message>, b: seq<Message>)
    requires InOrder(less, a) && a != [] && b != [] && b[0] in a
    ensures a[0] == b[0] || Before(less, a[0], b[0])
  {
    var k :| 0 <= k < |a| && a[k] == b[0];
  }

  lemma TailHas(less: Less, a: seq<Message>, c: Message)
    requires StrictTotal(less) && InOrder(less, a) && a != []
    ensures c in a[1..] <==> c in a && c != a[0]
  {
    assert a == [a[0]] + a[1..];
    if c in a[1..] {
      var k :| 0 <= k < |a[1..]| && a[1..][k] == c;
      assert a[k + 1] == c && Before(less, a[0], c);
      BeforeIsStrictTotal(less, a[0], c, c);
    }
  }

  datatype RowId = Own | Tool(call: string) | File(index: nat) | SubAgents

  datatype ToolLine = ToolLine(name: string, status: string, summary: Option<string>)

  /** A line of the chat: prose, or what the agent did. */
  datatype Row =
    | Prose(message: string, id: RowId, role: Role, text: string, ts: int)
    | Activity(message: string, id: RowId, text: string, ts: int, tool: Option<ToolLine>)

  function Verb(change: Change): string {
    match change
    case Read => "read"
    case Edited => "edited"
    case Created => "created"
    case Deleted => "deleted"
  }

  /** An empty summary is none. */
  function Summary(call: ToolCall): Option<string> {
    var summary := TrimText(call.summary);
    if Given(summary) then summary else None
  }

  /** Every status but "done" and "error" reads as running. */
  function ToolText(name: string, status: string, summary: Option<string>): string {
    name + " \U{B7} " + (if status == "done" || status == "error" then status else "running")
    + (if summary.Some? then " \U{2014} " + summary.value else "")
  }

  function ToolRow(m: Message, call: ToolCall): Row {
    Activity(m.id, Tool(call.id), ToolText(call.name, call.status, Summary(call)), m.ts,
             Some(ToolLine(call.name, call.status, Summary(call))))
  }

  function FileRow(m: Message, i: nat): Row
    requires i < |m.files|
  {
    Activity(m.id, File(i), Verb(m.files[i].change) + " " + m.files[i].path, m.ts, None)
  }

  function SubAgentRow(m: Message): Row {
    Activity(m.id, SubAgents, "spawned " + Decimal(m.subAgentsActive) + " sub-agent" + (if m.subAgentsActive == 1 then "" else "s"),
             m.ts, None)
  }

  function ToolRows(m: Message, calls: seq<ToolCall>): seq<Row> {
    if calls == [] then []
    else ToolRows(m, calls[..|calls| - 1]) + [ToolRow(m, calls[|calls| - 1])]
  }

  function FileRows(m: Message, n: nat): seq<Row>
    requires n <= |m.files|
  {
    if n == 0 then [] else FileRows(m, n - 1) + [FileRow(m, n - 1)]
  }

  function ProseRows(m: Message): seq<Row> {
    var text := TrimText(m.text);
    if Given(text) then [Prose(m.id, Own, m.role, text.value, m.ts)] else []
  }

  function RowsFor(m: Message): seq<Row> {
    if "reasoning:" <= m.id then []
    else
      ProseRows(m) + ToolRows(m, m.toolCalls) + FileRows(m, |m.files|)
      + (if m.subAgentsActive > 0 then [SubAgentRow(m)] else [])
  }

  lemma FirstRows(m: Message)
    ensures ToolRows(m, m.toolCalls[..0]) == [] && FileRows(m, 0) == []
  {
  }

  lemma WholeRows(m: Message)
    ensures m.toolCalls[..|m.toolCalls|] == m.toolCalls
    ensures "reasoning:" <= m.id || RowsFor(m) ==
      var own := ProseRows(m) + ToolRows(m, m.toolCalls) + FileRows(m, |m.files|);
      if m.subAgentsActive > 0 then own + [SubAgentRow(m)] else own
  {
  }

  lemma NextToolRow(m: Message, i: nat)
    requires i < |m.toolCalls|
    ensures ToolRows(m, m.toolCalls[..i + 1]) == ToolRows(m, m.toolCalls[..i]) + [ToolRow(m, m.toolCalls[i])]
  {
    assert m.toolCalls[..i + 1][..i] == m.toolCalls[..i];
  }

  lemma NextFileRow(m: Message, i: nat)
    requires i < |m.files|
    ensures FileRows(m, i + 1) == FileRows(m, i) + [FileRow(m, i)]
  {
  }

  method RowsForMessage(m: Message) returns (rows: seq<Row>)
    ensures rows == RowsFor(m)
  {
    hide TrimText, ToolRows, FileRows, ToolRow, FileRow, SubAgentRow;
    if "reasoning:" <= m.id {
      return [];
    }
    rows := [];
    var text := TrimText(m.text);
    if Given(text) {
      rows := rows + [Prose(m.id, Own, m.role, text.value, m.ts)];
    }
    ghost var prose := rows;
    assert prose == ProseRows(m);
    WholeRows(m);
    FirstRows(m);
    hide ProseRows, RowsFor;
    assert prose + [] == prose;
    for i := 0 to |m.toolCalls|
      invariant rows == prose + ToolRows(m, m.toolCalls[..i])
    {
      NextToolRow(m, i);
      Seqs.Assoc(prose, ToolRows(m, m.toolCalls[..i]), [ToolRow(m, m.toolCalls[i])]);
      rows := rows + [ToolRow(m, m.toolCalls[i])];
    }
    ghost var tools := rows;
    assert tools + [] == tools;
    for i := 0 to |m.files|
      invariant rows == tools + FileRows(m, i)
    {
      NextFileRow(m, i);
      Seqs.Assoc(tools, FileRows(m, i), [FileRow(m, i)]);
      rows := rows + [FileRow(m, i)];
    }
    assert rows == prose + ToolRows(m, m.toolCalls) + FileRows(m, |m.files|);
    if m.subAgentsActive > 0 {
      rows := rows + [SubAgentRow(m)];
    }
  }

  function RowsOf(ms: seq<Message>): seq<Row> {
    if ms == [] then [] else RowsFor(ms[0]) + RowsOf(ms[1..])
  }

  function TranscriptRows(less: Less, s: State): seq<Row> {
    RowsOf(Ordered(less, s.messages))
  }

  /** The rows depend on which messages there are, not on when they came. */
  lemma RowsIgnoreInsertionOrder(less: Less, s: State, t: State)
    requires StrictTotal(less) && DistinctIds(s.messages) && DistinctIds(t.messages)
    requires forall c :: c in s.messages <==> c in t.messages
    ensures TranscriptRows(less, s) == TranscriptRows(less, t)
  {
    OrderedInOrder(less, s.messages);
    OrderedInOrder(less, t.messages);
    forall c
      ensures c in Ordered(less, s.messages) <==> c in Ordered(less, t.messages)
    {
      OrderedHas(less, s.messages, c);
      OrderedHas(less, t.messages, c);
    }
    OneOrder(less, Ordered(less, s.messages), Ordered(less, t.messages));
  }

  predicate RowBefore(less: Less, a: Row, b: Row) {
    a.ts < b.ts || (a.ts == b.ts && (a.message == b.message || less(a.message, b.message)))
  }

  lemma {:induction false} ToolRowsAreItsOwn(m: Message, calls: seq<ToolCall>, r: Row)
    requires r in ToolRows(m, calls)
    ensures r.message == m.id && r.ts == m.ts
  {
    if r != ToolRow(m, calls[|calls| - 1]) {
      ToolRowsAreItsOwn(m, calls[..|calls| - 1], r);
    }
  }

  lemma {:induction false} FileRowsAreItsOwn(m: Message, n: nat, r: Row)
    requires n <= |m.files| && r in FileRows(m, n)
    ensures r.message == m.id && r.ts == m.ts
  {
    if r != FileRow(m, n - 1) {
      FileRowsAreItsOwn(m, n - 1, r);
    }
  }

  lemma RowsAreItsOwn(m: Message, r: Row)
    requires r in RowsFor(m)
    ensures r.message == m.id && r.ts == m.ts
  {
    hide TrimText;
    if r in ToolRows(m, m.toolCalls) {
      ToolRowsAreItsOwn(m, m.toolCalls, r);
    } else if r in FileRows(m, |m.files|) {
      FileRowsAreItsOwn(m, |m.files|, r);
    }
  }

  lemma {:induction false} RowsOfAreTheirs(ms: seq<Message>, r: Row) returns (m: Message)
    requires r in RowsOf(ms)
    ensures m in ms && r.message == m.id && r.ts == m.ts
  {
    if r in RowsFor(ms[0]) {
      m := ms[0];
      RowsAreItsOwn(m, r);
    } else {
      m := RowsOfAreTheirs(ms[1..], r);
    }
  }

  lemma InOrderTail(less: Less, ms: seq<Message>)
    requires InOrder(less, ms) && ms != []
    ensures InOrder(less, ms[1..])
  {
  }

  lemma RowsInTurn(less: Less, a: Message, b: Message, r: Row, q: Row)
    requires Before(less, a, b) && r.message == a.id && r.ts == a.ts && q.message == b.id && q.ts == b.ts
    ensures RowBefore(less, r, q)
  {
  }

  lemma HeadIsFirst(less: Less, ms: seq<Message>, m: Message)
    requires InOrder(less, ms) && ms != [] && m in ms[1..]
    ensures Before(less, ms[0], m)
  {
    var k :| 0 <= k < |ms[1..]| && ms[1..][k] == m;
    assert ms[k + 1] == m;
  }

  lemma RowsOfOne(less: Less, m: Message, r: Row, q: Row)
    requires r in RowsFor(m) && q in RowsFor(m)
    ensures RowBefore(less, r, q)
  {
    RowsAreItsOwn(m, r);
    RowsAreItsOwn(m, q);
  }

  lemma RowsAcross(less: Less, ms: seq<Message>, r: Row, q: Row)
    requires InOrder(less, ms) && ms != [] && r in RowsFor(ms[0]) && q in RowsOf(ms[1..])
    ensures RowBefore(less, r, q)
  {
    hide RowsFor, RowsOf, InOrder, Before, RowBefore;
    RowsAreItsOwn(ms[0], r);
    var m := RowsOfAreTheirs(ms[1..], q);
    HeadIsFirst(less, ms, m);
    RowsInTurn(less, ms[0], m, r, q);
  }

  lemma RowsOfParts(ms: seq<Message>, i: nat)
    requires i < |RowsOf(ms)|
    ensures ms != []
    ensures var here, rest := RowsFor(ms[0]), RowsOf(ms[1..]);
      if i < |here| then RowsOf(ms)[i] == here[i] && here[i] in here
      else i - |here| < |rest| && RowsOf(ms)[i] == rest[i - |here|] && rest[i - |here|] in rest
  {
    hide RowsFor;
  }

  lemma {:induction false} RowsOfInOrder(less: Less, ms: seq<Message>, i: nat, j: nat)
    requires InOrder(less, ms) && i < j < |RowsOf(ms)|
    ensures RowBefore(less, RowsOf(ms)[i], RowsOf(ms)[j])
  {
    hide RowsFor, RowsOf, InOrder, RowBefore;
    RowsOfParts(ms, i);
    RowsOfParts(ms, j);
    var n, r, q := |RowsFor(ms[0])|, RowsOf(ms)[i], RowsOf(ms)[j];
    if j < n {
      RowsOfOne(less, ms[0], r, q);
    } else if i < n {
      RowsAcross(less, ms, r, q);
    } else {
      InOrderTail(less, ms);
      RowsOfInOrder(less, ms[1..], i - n, j - n);
      assert RowsOf(ms[1..])[i - n] == r && RowsOf(ms[1..])[j - n] == q;
    }
  }

  /** Rows go by timestamp, then by message id; a message's rows stay together. */
  lemma RowsAreInOrder(less: Less, s: State, i: nat, j: nat)
    requires StrictTotal(less) && DistinctIds(s.messages) && i < j < |TranscriptRows(less, s)|
    ensures RowBefore(less, TranscriptRows(less, s)[i], TranscriptRows(less, s)[j])
  {
    OrderedInOrder(less, s.messages);
    RowsOfInOrder(less, Ordered(less, s.messages), i, j);
  }

  // ----- stability -----

  /** `id` is there at every moment of the log. */
  ghost predicate Stays(ms: seq<Message>, log: seq<Event>, id: string) {
    forall k :: 0 <= k <= |log| ==> Has(ReceivedAll(ms, log[..k]), id)
  }

  lemma StaysPrefix(ms: seq<Message>, log: seq<Event>, id: string, n: nat)
    requires Stays(ms, log, id) && n <= |log|
    ensures Stays(ms, log[..n], id) && Has(ReceivedAll(ms, log[..n]), id)
  {
    forall k | 0 <= k <= n
      ensures Has(ReceivedAll(ms, log[..n][..k]), id)
    {
      assert log[..n][..k] == log[..k];
    }
  }

  /** A message that stays keeps the timestamp it came with. */
  lemma {:induction false} TimestampsAreKept(ms: seq<Message>, log: seq<Event>, c: Message, d: Message)
    requires DistinctIds(ms) && c in ms && d in ReceivedAll(ms, log) && d.id == c.id && Stays(ms, log, c.id)
    ensures d.ts == c.ts
  {
    if log == [] {
      SameEntry(ms, c, d);
    } else {
      var n := |log| - 1;
      var before := ReceivedAll(ms, log[..n]);
      ReceivedAllDistinct(ms, log[..n]);
      StaysPrefix(ms, log, c.id, n);
      var b := before[IndexOf(before, c.id)];
      assert b in before;
      TimestampsAreKept(ms, log[..n], c, b);
      if log[n].AgentMessage? {
        UpsertHas(before, log[n].message, d);
      }
      hide Upserted;
      if d in before {
        SameEntry(before, b, d);
      }
    }
  }

  /** Two messages that stay never change places, whatever arrives in between:
    * echoes, updates of either, local input. */
  lemma MessagesThatStayNeverSwap(less: Less, ms: seq<Message>, log: seq<Event>, i: nat, j: nat, k: nat, l: nat)
    requires StrictTotal(less) && DistinctIds(ms)
    requires var before, after := Ordered(less, ms), Ordered(less, ReceivedAll(ms, log));
      && i < j < |before| && k < |after| && l < |after|
      && after[k].id == before[i].id && after[l].id == before[j].id
      && Stays(ms, log, before[i].id) && Stays(ms, log, before[j].id)
    ensures k < l
  {
    var before, after := Ordered(less, ms), Ordered(less, ReceivedAll(ms, log));
    OrderedHas(less, ms, before[i]);
    OrderedHas(less, ms, before[j]);
    OrderedHas(less, ReceivedAll(ms, log), after[k]);
    OrderedHas(less, ReceivedAll(ms, log), after[l]);
    TimestampsAreKept(ms, log, before[i], after[k]);
    TimestampsAreKept(ms, log, before[j], after[l]);
    OrderedInOrder(less, ms);
    ReceivedAllDistinct(ms, log);
    OrderedInOrder(less, ReceivedAll(ms, log));
    hide Ordered, ReceivedAll, Stays, DistinctIds;
    BeforeIsStrictTotal(less, after[k], after[l], after[l]);
    BeforeIsStrictTotal(less, before[i], before[j], before[j]);
    BeforeIsStrictTotal(less, before[i], before[i], before[i]);
    assert Before(less, after[k], after[l]);
  }

  /** Host messages always stay. */
  lemma {:induction false} HostMessagesStay(ms: seq<Message>, log: seq<Event>, c: Message)
    requires DistinctIds(ms) && c in ms && !Optimistic(c)
    ensures Stays(ms, log, c.id)
  {
    forall k | 0 <= k <= |log|
      ensures Has(ReceivedAll(ms, log[..k]), c.id)
    {
      HostMessageStays(ms, log[..k], c);
    }
  }

  lemma {:induction false} HostMessageStays(ms: seq<Message>, log: seq<Event>, c: Message)
    requires DistinctIds(ms) && c in ms && !Optimistic(c)
    ensures Has(ReceivedAll(ms, log), c.id)
  {
    if log != [] {
      var n := |log| - 1;
      var before := ReceivedAll(ms, log[..n]);
      HostMessageStays(ms, log[..n], c);
      ReceivedAllDistinct(ms, log[..n]);
      if log[n].AgentMessage? {
        var b := before[IndexOf(before, c.id)];
        assert b in before;
        UpsertHas(before, log[n].message, b);
        UpsertHas(before, log[n].message, Entered(before, log[n].message));
        ReplacedIsOptimistic(before, log[n].message);
      }
    }
  }
}
