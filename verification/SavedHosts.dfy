/** The bounded list of hosts this device has connected to, newest first. */
module SavedHosts {
  import opened Basics
  import opened Seqs
  import C = SavedHostsChain

  datatype Name = Unnamed | Named(name: string)

  datatype Host = Host(config: Config, hostName: Name, lastConnectedAt: int)

  /** One successful connection. */
  datatype Visit = Visit(config: Config, hostName: Name, now: int)

  /** What the user does: connects to a host, or removes one. */
  datatype Act = Visited(visit: Visit) | Forgot(host: Url) {
    function Of(): Url {
      if Visited? then visit.config.url else host
    }
  }

  const MAX_SAVED_HOSTS: nat := 6

  function Find(hosts: seq<Host>, url: Url): Name {
    if hosts == [] then Unnamed
    else if hosts[0].config.url == url then hosts[0].hostName
    else Find(hosts[1..], url)
  }

  function ForgetHost(hosts: seq<Host>, url: Url): seq<Host> {
    if hosts == [] then []
    else (if hosts[0].config.url != url then [hosts[0]] else []) + ForgetHost(hosts[1..], url)
  }

  function RememberHost(hosts: seq<Host>, v: Visit): seq<Host> {
    var name := if v.hostName.Named? then v.hostName else Find(hosts, v.config.url);
    Truncate([Host(v.config, name, v.now)] + ForgetHost(hosts, v.config.url))
  }

  function Upto<T>(s: seq<T>, n: nat): seq<T> {
    s[..Min(n, |s|)]
  }

  function Truncate<T>(s: seq<T>): seq<T> {
    Upto(s, MAX_SAVED_HOSTS)
  }

  function Acted(hosts: seq<Host>, a: Act): seq<Host> {
    match a
    case Visited(v) => RememberHost(hosts, v)
    case Forgot(url) => ForgetHost(hosts, url)
  }

  /** The list after a history, oldest first. */
  function After(history: seq<Act>): seq<Host> {
    if history == [] then [] else Acted(After(history[..|history| - 1]), history[|history| - 1])
  }

  // ----- the reference: no list, only the history -----

  function Without(visits: seq<Visit>, url: Url): seq<Visit> {
    if visits == [] then []
    else (if visits[0].config.url != url then [visits[0]] else []) + Without(visits[1..], url)
  }

  /** The last visit of every host visited and not removed since, newest first:
    * the unbounded move-to-front list. */
  function Latest(history: seq<Act>): seq<Visit> {
    if history == [] then []
    else
      var a := history[|history| - 1];
      var rest := Without(Latest(history[..|history| - 1]), a.Of());
      if a.Visited? then [a.visit] + rest else rest
  }

  /** How far down the unbounded list the stored one reaches: a removal takes one
    * off, a visit to a host beyond it adds one, up to six. A host that has fallen
    * off the end does not come back when a place becomes free. */
  ghost function Depth(history: seq<Act>): nat
    decreases |history|, 1
  {
    if history == [] then 0
    else
      var before, a := history[..|history| - 1], history[|history| - 1];
      var kept := Kept(before, a.Of());
      if a.Visited? then Min(MAX_SAVED_HOSTS, kept + 1) else kept
  }

  /** The depth without `url`. */
  ghost function Kept(history: seq<Act>, url: Url): nat
    decreases |history|, 3
  {
    if Remembered(history, url) then Depth(history) - 1 else Depth(history)
  }

  /** `url` is among the first of the unbounded list. */
  ghost predicate Remembered(history: seq<Act>, url: Url)
    decreases |history|, 2
  {
    exists v <- Upto(Latest(history), Depth(history)) :: v.config.url == url
  }

  /** The last name given to `url` since it last entered the list: a visit that
    * brings no name keeps the earlier one only if the host was still remembered. */
  ghost function NameOf(history: seq<Act>, url: Url): Name {
    if history == [] then Unnamed
    else
      var before, a := history[..|history| - 1], history[|history| - 1];
      if a.Of() != url then NameOf(before, url)
      else if a.Forgot? then Unnamed
      else if a.visit.hostName.Named? then a.visit.hostName
      else if Remembered(before, url) then NameOf(before, url)
      else Unnamed
  }

  ghost function View(history: seq<Act>, visits: seq<Visit>): seq<Host> {
    if visits == [] then []
    else [Host(visits[0].config, NameOf(history, visits[0].config.url), visits[0].now)] + View(history, visits[1..])
  }

  ghost predicate Distinct(visits: seq<Visit>) {
    forall i, j :: 0 <= i < j < |visits| ==> visits[i].config.url != visits[j].config.url
  }

  lemma {:induction false} WithoutFacts(visits: seq<Visit>, url: Url)
    ensures forall v :: v in Without(visits, url) <==> v in visits && v.config.url != url
    ensures Distinct(visits) ==> Distinct(Without(visits, url))
  {
    if visits != [] {
      WithoutFacts(visits[1..], url);
      if Distinct(visits) && visits[0].config.url != url {
        var rest := Without(visits[1..], url);
        forall j | 0 <= j < |rest| ensures rest[j].config.url != visits[0].config.url {
          assert rest[j] in visits[1..];
        }
      }
    }
  }

  lemma {:induction false} WithoutAbsent(visits: seq<Visit>, url: Url)
    requires forall v <- visits :: v.config.url != url
    ensures Without(visits, url) == visits
  {
    if visits != [] {
      assert visits[0] in visits;
      WithoutAbsent(visits[1..], url);
    }
  }

  lemma DistinctCons(v: Visit, rest: seq<Visit>)
    requires Distinct(rest) && forall w <- rest :: w.config.url != v.config.url
    ensures Distinct([v] + rest)
  {
  }

  /** No host is listed twice. */
  lemma {:induction false} LatestIsDistinct(history: seq<Act>)
    ensures Distinct(Latest(history))
  {
    if history != [] {
      var before, a := Latest(history[..|history| - 1]), history[|history| - 1];
      LatestIsDistinct(history[..|history| - 1]);
      WithoutFacts(before, a.Of());
      hide Distinct;
      if a.Visited? {
        DistinctCons(a.visit, Without(before, a.Of()));
      }
    }
  }

  lemma WithoutHead(visits: seq<Visit>, url: Url)
    requires visits != [] && Distinct(visits) && visits[0].config.url == url
    ensures Without(visits, url) == visits[1..]
  {
    forall v <- visits[1..] ensures v.config.url != url {
      var i :| 0 <= i < |visits[1..]| && visits[1..][i] == v;
      assert visits[0].config.url != visits[i + 1].config.url;
    }
    WithoutAbsent(visits[1..], url);
  }

  ghost predicate Among(visits: seq<Visit>, url: Url) {
    exists v <- visits :: v.config.url == url
  }

  lemma AmongCons(visits: seq<Visit>, n: nat, url: Url)
    requires 0 < n <= |visits|
    ensures Among(visits[..n], url) <==> visits[0].config.url == url || Among(visits[1..][..n - 1], url)
  {
    assert visits[..n] == [visits[0]] + visits[1..][..n - 1];
  }

  /** Taking one host out of the first `n` of a list leaves the first `n` of the
    * list without it, or one fewer if it was among them. */
  lemma {:induction false} WithoutOfPrefix(visits: seq<Visit>, url: Url, n: nat)
    requires Distinct(visits) && n <= |visits|
    ensures var k := if Among(visits[..n], url) then n - 1 else n;
      k <= |Without(visits, url)| && Without(visits[..n], url) == Without(visits, url)[..k]
  {
    if n > 0 {
      var x, rest := visits[0], visits[1..];
      AmongCons(visits, n, url);
      assert visits[..n][1..] == rest[..n - 1];
      hide Among;
      if x.config.url == url {
        WithoutHead(visits, url);
        WithoutHead(visits[..n], url);
        NotBelow(visits, n);
      } else {
        assert Distinct(rest);
        WithoutOfPrefix(rest, url, n - 1);
      }
    }
  }

  lemma NotBelow(visits: seq<Visit>, n: nat)
    requires Distinct(visits) && 0 < n <= |visits|
    ensures Among(visits[..n], visits[0].config.url)
  {
    assert visits[0] in visits[..n];
  }

  /** Seen as hosts, the same. */
  lemma {:induction false} ForgetIsWithout(history: seq<Act>, visits: seq<Visit>, url: Url)
    ensures ForgetHost(View(history, visits), url) == View(history, Without(visits, url))
  {
    if visits != [] {
      ForgetIsWithout(history, visits[1..], url);
      assert View(history, visits)[1..] == View(history, visits[1..]);
      if visits[0].config.url != url {
        assert Without(visits, url)[1..] == Without(visits[1..], url);
      } else {
        assert Without(visits, url) == Without(visits[1..], url);
      }
    }
  }

  lemma {:induction false} ViewTake(history: seq<Act>, visits: seq<Visit>, n: nat)
    requires n <= |visits|
    ensures |View(history, visits)| == |visits|
    ensures View(history, visits[..n]) == View(history, visits)[..n]
  {
    if visits != [] {
      if n > 0 {
        ViewTake(history, visits[1..], n - 1);
        assert visits[..n][1..] == visits[1..][..n - 1];
      } else {
        ViewTake(history, visits[1..], 0);
      }
    }
  }

  /** Doing something to one host leaves the names of the others alone. */
  lemma {:induction false} ViewOfOthers(history: seq<Act>, a: Act, visits: seq<Visit>)
    requires forall w <- visits :: w.config.url != a.Of()
    ensures View(history + [a], visits) == View(history, visits)
  {
    if visits != [] {
      assert visits[0] in visits;
      assert (history + [a])[..|history|] == history;
      ViewOfOthers(history, a, visits[1..]);
    }
  }

  lemma {:induction false} FindInView(history: seq<Act>, visits: seq<Visit>, url: Url)
    ensures Find(View(history, visits), url)
         == if exists v <- visits :: v.config.url == url then NameOf(history, url) else Unnamed
  {
    if visits != [] {
      FindInView(history, visits[1..], url);
      assert View(history, visits)[1..] == View(history, visits[1..]);
      assert visits[0] in visits && forall v <- visits[1..] :: v in visits;
    }
  }

  /** The stored part of the unbounded list. */
  ghost function Recent(history: seq<Act>): seq<Visit> {
    Upto(Latest(history), Depth(history))
  }

  lemma LastAct(before: seq<Act>, a: Act)
    ensures (before + [a])[..|before|] == before
    ensures Latest(before + [a]) == (if a.Visited? then [a.visit] else []) + Without(Latest(before), a.Of())
    ensures Depth(before + [a]) == if a.Visited? then Min(MAX_SAVED_HOSTS, Kept(before, a.Of()) + 1) else Kept(before, a.Of())
  {
    assert (before + [a])[..|before|] == before;
  }

  /** The stored list never reaches beyond the unbounded one, nor beyond six; and
    * without a host it is the first `Kept` of the unbounded list without it. */
  lemma KeptIsPrefix(history: seq<Act>, url: Url)
    requires Depth(history) <= |Latest(history)|
    ensures Kept(history, url) <= |Without(Latest(history), url)|
    ensures Without(Recent(history), url) == Without(Latest(history), url)[..Kept(history, url)]
  {
    var visits, n := Latest(history), Depth(history);
    LatestIsDistinct(history);
    assert Upto(visits, n) == visits[..n];
    assert Remembered(history, url) == Among(visits[..n], url);
    hide Latest, Without, Depth, Distinct, Remembered, Among;
    WithoutOfPrefix(visits, url, n);
  }

  lemma {:induction false} DepthFits(history: seq<Act>)
    ensures Depth(history) <= |Latest(history)| && Depth(history) <= MAX_SAVED_HOSTS
  {
    if history != [] {
      var before, a := history[..|history| - 1], history[|history| - 1];
      assert before + [a] == history;
      DepthFits(before);
      KeptIsPrefix(before, a.Of());
      LastAct(before, a);
      hide Latest, Without, Depth, Remembered;
    }
  }

  /** After any history of connections and removals the stored list is the first
    * `Depth` of the unbounded one, each host with the last name it was given since
    * it last entered. */
  lemma {:induction false} ListIsThePrefix(history: seq<Act>)
    ensures After(history) == View(history, Recent(history))
  {
    if history != [] {
      var before, a := history[..|history| - 1], history[|history| - 1];
      assert before + [a] == history;
      ListIsThePrefix(before);
      hide View, Recent, Latest;
      if a.Visited? {
        VisitStep(before, a.visit);
      } else {
        ForgetStep(before, a.host);
      }
    }
  }

  lemma ForgetStep(before: seq<Act>, url: Url)
    requires After(before) == View(before, Recent(before))
    ensures ForgetHost(After(before), url) == View(before + [Forgot(url)], Recent(before + [Forgot(url)]))
  {
    DepthFits(before);
    LastAct(before, Forgot(url));
    KeptIsPrefix(before, url);
    ForgetIsWithout(before, Recent(before), url);
    WithoutFacts(Recent(before), url);
    hide View, Without, Depth, Kept, Latest, ForgetHost, After;
    assert [] + Without(Latest(before), url) == Without(Latest(before), url);
    ViewOfOthers(before, Forgot(url), Without(Recent(before), url));
  }

  lemma VisitStep(before: seq<Act>, v: Visit)
    requires After(before) == View(before, Recent(before))
    ensures RememberHost(After(before), v) == View(before + [Visited(v)], Recent(before + [Visited(v)]))
  {
    var url, history := v.config.url, before + [Visited(v)];
    var p := Without(Recent(before), url);
    RecentAfterVisit(before, v);
    ForgetIsWithout(before, Recent(before), url);
    WithoutFacts(Recent(before), url);
    FindInView(before, Recent(before), url);
    hide View, NameOf, Without, ForgetHost, Find, After, Depth, Latest;
    ViewOfOthers(before, Visited(v), p);
    ViewStep(before, v, p);
    ViewTake(history, [v] + p, Min(MAX_SAVED_HOSTS, |p| + 1));
  }

  lemma RecentAfterVisit(before: seq<Act>, v: Visit)
    ensures Recent(before + [Visited(v)]) == Truncate([v] + Without(Recent(before), v.config.url))
  {
    DepthFits(before);
    LastAct(before, Visited(v));
    KeptIsPrefix(before, v.config.url);
    hide Without, Depth, Kept, Latest;
  }

  lemma ViewStep(before: seq<Act>, v: Visit, p: seq<Visit>)
    ensures View(before + [Visited(v)], [v] + p)
         == [Host(v.config,
                  if v.hostName.Named? then v.hostName
                  else if Remembered(before, v.config.url) then NameOf(before, v.config.url) else Unnamed,
                  v.now)]
            + View(before + [Visited(v)], p)
  {
    assert (before + [Visited(v)])[..|before|] == before;
    assert ([v] + p)[1..] == p;
    hide Remembered;
  }

  /** As long as nothing is removed, these are the six most recent hosts. */
  lemma {:induction false} ListIsTheRecentSix(history: seq<Act>)
    requires forall a <- history :: a.Visited?
    ensures After(history) == View(history, Truncate(Latest(history)))
  {
    ListIsThePrefix(history);
    VisitsFill(history);
  }

  lemma {:induction false} VisitsFill(history: seq<Act>)
    requires forall a <- history :: a.Visited?
    ensures Depth(history) == Min(MAX_SAVED_HOSTS, |Latest(history)|)
  {
    if history != [] {
      var before, a := history[..|history| - 1], history[|history| - 1];
      assert before + [a] == history && a in history;
      assert forall b <- before :: b in history;
      VisitsFill(before);
      LastAct(before, a);
      LatestIsDistinct(before);
      WithoutOfPrefix(Latest(before), a.Of(), |Latest(before)|);
      WithoutOfPrefix(Latest(before), a.Of(), Depth(before));
      assert Latest(before)[..|Latest(before)|] == Latest(before);
      hide Latest, Without, Depth;
      assert Remembered(before, a.Of()) ==> Among(Latest(before), a.Of());
    }
  }

  /** The last act shows at the head of the unbounded list. */
  lemma LastActShows(history: seq<Act>)
    requires history != []
    ensures match history[|history| - 1]
      case Visited(v) => Recent(history) != [] && Recent(history)[0] == v
      case Forgot(url) => forall v <- Recent(history) :: v.config.url != url
  {
    var before, a := history[..|history| - 1], history[|history| - 1];
    assert before + [a] == history;
    LastAct(before, a);
    WithoutFacts(Latest(before), a.Of());
    hide Latest, Without, Depth, Kept;
  }

  /** No duplicate hosts, never more than six; the host just visited comes first,
    * the host just removed is gone. */
  lemma ListShape(history: seq<Act>)
    ensures |After(history)| <= MAX_SAVED_HOSTS
    ensures forall i, j :: 0 <= i < j < |After(history)| ==>
      After(history)[i].config.url != After(history)[j].config.url
    ensures history != [] ==>
      match history[|history| - 1]
      case Visited(v) => After(history) != [] && After(history)[0].config == v.config
      case Forgot(url) => forall h <- After(history) :: h.config.url != url
  {
    ListIsThePrefix(history);
    DepthFits(history);
    LatestIsDistinct(history);
    ViewUrls(history, Recent(history));
    if history != [] {
      LastActShows(history);
    }
    hide View, After, Latest, Depth;
  }

  lemma {:induction false} ViewUrls(history: seq<Act>, visits: seq<Visit>)
    ensures |View(history, visits)| == |visits|
    ensures forall i :: 0 <= i < |visits| ==> View(history, visits)[i].config == visits[i].config
  {
    if visits != [] {
      ViewUrls(history, visits[1..]);
    }
  }

  // ----- with overlapping edits -----

  /** The acts of those among the first `n` calls that were saved. */
  function SavedActs(calls: seq<C.Call<seq<Host>>>, acts: seq<Act>, n: nat): seq<Act>
    requires n <= |calls| && |acts| == |calls|
  {
    if n == 0 then []
    else
      SavedActs(calls, acts, n - 1)
      + (if calls[n - 1].phase.Done? && calls[n - 1].phase.outcome.Saved? then [acts[n - 1]] else [])
  }

  /** Each call's change is what the user did. */
  ghost predicate AreActs(calls: seq<C.Call<seq<Host>>>, acts: seq<Act>) {
    |acts| == |calls| && forall i, hosts :: 0 <= i < |calls| ==> calls[i].change(hosts) == Acted(hosts, acts[i])
  }

  lemma AfterOneMore(history: seq<Act>, a: Act)
    ensures After(history + [a]) == Acted(After(history), a)
  {
    assert (history + [a])[..|history|] == history;
  }

  lemma {:induction false} FoldedIsAfter(calls: seq<C.Call<seq<Host>>>, acts: seq<Act>, n: nat)
    requires AreActs(calls, acts) && n <= |calls|
    ensures C.Folded([], calls, n) == After(SavedActs(calls, acts, n))
  {
    if n > 0 {
      FoldedIsAfter(calls, acts, n - 1);
      var before := SavedActs(calls, acts, n - 1);
      AfterOneMore(before, acts[n - 1]);
      assert before + [] == before;
      hide After, Acted;
    }
  }

  /** However the edits overlap and whichever fail, the stored list is the first
    * `Depth` of the unbounded list of the saved ones. */
  lemma OverlappingEditsKeepTheList(states: seq<C.State<seq<Host>>>, labels: seq<C.Label<seq<Host>>>, acts: seq<Act>)
    requires C.Run(states, labels) && C.Fresh(states[0], []) && AreActs(C.Last(states).calls, acts)
    ensures var calls := C.Last(states).calls;
      var saved := SavedActs(calls, acts, |calls|);
      C.Last(states).stored == View(saved, Recent(saved))
  {
    C.EditsAreSerialized(states, labels, []);
    FoldedIsAfter(C.Last(states).calls, acts, |C.Last(states).calls|);
    ListIsThePrefix(SavedActs(C.Last(states).calls, acts, |C.Last(states).calls|));
  }
}
