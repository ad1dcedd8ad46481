/** The queue of push revocations a host has not acknowledged, as kept in
  * storage between launches. */
module PendingRevocations {
  import opened Basics

  /** `session`: whose unpair queued it. That is history, for the proofs; the
    * stored entry has no such field. */
  datatype Entry = Entry(config: Config, queuedAt: int, session: nat)

  /** Session `session`, with the host `url`, has been left. */
  datatype Leave = Leave(url: Url, session: nat)

  const REVOCATION_TTL_MS: int := 30 * 24 * 60 * 60 * 1000
  const MAX_PENDING: nat := 5

  predicate IsLive(e: Entry, now: int) {
    now - e.queuedAt < REVOCATION_TTL_MS
  }

  /** Drops entries whose credentials have outlived their time. */
  function LivePending(pending: seq<Entry>, now: int): (r: seq<Entry>)
    ensures forall e :: e in r <==> e in pending && IsLive(e, now)
  {
    if pending == [] then []
    else (if IsLive(pending[0], now) then [pending[0]] else []) + LivePending(pending[1..], now)
  }

  /** Drops every entry for `url`. */
  function DropRevocations(pending: seq<Entry>, url: Url): (r: seq<Entry>)
    ensures forall e :: e in r <==> e in pending && e.config.url != url
  {
    if pending == [] then []
    else (if pending[0].config.url != url then [pending[0]] else []) + DropRevocations(pending[1..], url)
  }

  function LastEntries(pending: seq<Entry>, n: nat): seq<Entry> {
    if |pending| <= n then pending else pending[|pending| - n..]
  }

  /** The live entries of other hosts, in order. */
  function Others(pending: seq<Entry>, url: Url, now: int): seq<Entry> {
    DropRevocations(LivePending(pending, now), url)
  }

  function QueueRevocation(pending: seq<Entry>, config: Config, now: int, session: nat): seq<Entry> {
    LastEntries(Others(pending, config.url, now) + [Entry(config, now, session)], MAX_PENDING)
  }

  function Urls(pending: seq<Entry>): set<Url> {
    set e <- pending :: e.config.url
  }

  // ----- who is still known -----

  function LeaveOf(e: Entry): Leave {
    Leave(e.config.url, e.session)
  }

  /** A revocation for the later leave serves the earlier one of the same host. */
  predicate Covers(o: Leave, l: Leave) {
    o.url == l.url && l.session <= o.session
  }

  ghost predicate Known(pending: seq<Entry>, l: Leave) {
    exists e :: e in pending && Covers(LeaveOf(e), l)
  }

  ghost predicate Among(leaves: set<Leave>, l: Leave) {
    exists o :: o in leaves && Covers(o, l)
  }

  /** What a save drops for its age. */
  function ExpiredLeaves(pending: seq<Entry>, now: int): set<Leave> {
    set e | e in pending && !IsLive(e, now) :: LeaveOf(e)
  }

  /** What a save drops although it is live and of another host. */
  function CappedLeaves(pending: seq<Entry>, config: Config, now: int, session: nat): set<Leave> {
    set e | e in Others(pending, config.url, now) && e !in QueueRevocation(pending, config, now, session) :: LeaveOf(e)
  }

  lemma NewEntryIsLast(pending: seq<Entry>, config: Config, now: int, session: nat)
    ensures Entry(config, now, session) in QueueRevocation(pending, config, now, session)
    ensures forall e :: e in QueueRevocation(pending, config, now, session) ==>
      e == Entry(config, now, session) || e in Others(pending, config.url, now)
  {
    var all := Others(pending, config.url, now) + [Entry(config, now, session)];
    var r := QueueRevocation(pending, config, now, session);
    assert r[|r| - 1] == all[|all| - 1];
  }

  /** A leave is known after a save, or dropped for its age or by the cap, if and
    * only if the save has read an entry for it or is about it. */
  lemma SaveKnowsWhatItRead(pending: seq<Entry>, config: Config, now: int, session: nat, l: Leave)
    requires l.url == config.url ==> l.session <= session
    ensures Known(QueueRevocation(pending, config, now, session), l) || Among(ExpiredLeaves(pending, now), l)
            || Among(CappedLeaves(pending, config, now, session), l)
       <==> Known(pending, l) || l.url == config.url
  {
    var queue := QueueRevocation(pending, config, now, session);
    NewEntryIsLast(pending, config, now, session);
    hide QueueRevocation;
    if l.url == config.url {
      assert Covers(LeaveOf(Entry(config, now, session)), l);
    } else if e :| e in pending && Covers(LeaveOf(e), l) {
      if !IsLive(e, now) {
        assert LeaveOf(e) in ExpiredLeaves(pending, now);
      } else if e !in queue {
        assert e in Others(pending, config.url, now);
        assert LeaveOf(e) in CappedLeaves(pending, config, now, session);
      }
    }
  }

  // ----- the cap -----

  lemma {:induction false} LiveIsShort(pending: seq<Entry>, now: int)
    ensures |LivePending(pending, now)| <= |pending|
    ensures |LivePending(pending, now)| == |pending| ==> LivePending(pending, now) == pending
  {
    if pending != [] {
      LiveIsShort(pending[1..], now);
      assert pending == [pending[0]] + pending[1..];
    }
  }

  lemma {:induction false} DropIsShort(pending: seq<Entry>, url: Url)
    ensures |DropRevocations(pending, url)| <= |pending|
    ensures |DropRevocations(pending, url)| == |pending| ==> DropRevocations(pending, url) == pending
  {
    if pending != [] {
      DropIsShort(pending[1..], url);
      assert pending == [pending[0]] + pending[1..];
    }
  }

  /** A queue of at most five stays one, and the cap drops at most one entry: the
    * first of five live entries, all of other hosts, the other four staying. */
  lemma CapDropsOnlyTheOldestOfFive(pending: seq<Entry>, config: Config, now: int, session: nat)
    requires |pending| <= MAX_PENDING
    ensures var queue := QueueRevocation(pending, config, now, session);
      var full := |pending| == MAX_PENDING && Others(pending, config.url, now) == pending;
      && |queue| <= MAX_PENDING
      && queue == (if full then pending[1..] else Others(pending, config.url, now)) + [Entry(config, now, session)]
      && CappedLeaves(pending, config, now, session) <= if full then {LeaveOf(pending[0])} else {}
  {
    LiveIsShort(pending, now);
    DropIsShort(LivePending(pending, now), config.url);
    var others := Others(pending, config.url, now);
    var queue := QueueRevocation(pending, config, now, session);
    if |others| == MAX_PENDING {
      assert others == [others[0]] + others[1..];
      assert queue == others[1..] + [Entry(config, now, session)];
    } else {
      assert queue == others + [Entry(config, now, session)];
    }
  }

  /** And it does drop that one, unless the queue has it twice. */
  lemma CapDropsTheOldestOfFive(pending: seq<Entry>, config: Config, now: int, session: nat)
    requires |pending| == MAX_PENDING && Others(pending, config.url, now) == pending
    requires pending[0] !in pending[1..]
    ensures CappedLeaves(pending, config, now, session) == {LeaveOf(pending[0])}
  {
    CapDropsOnlyTheOldestOfFive(pending, config, now, session);
    assert pending[0] in pending;
    assert pending[0].config.url != config.url;
  }
}
