/** The file explorer's rows: a depth-first flattening of the folders that are
  * expanded.
  *
  * Listings may form any acyclic graph; that each path is listed in one place
  * only is asked for where it matters. `rank` witnesses acyclicity: a folder
  * ranks above the folders it lists.
  */
module FileTree {
  import Seqs

  type Path = string

  const ROOT_PATH: Path := ""

  datatype Entry = Entry(path: Path, isDir: bool)

  datatype Listing = Loading | Ready(entries: seq<Entry>) | Error(message: string)

  datatype Row =
    | EntryRow(entry: Entry, depth: nat, expanded: bool)
    | StatusRow(key: string, depth: nat, text: string)

  type Listings = map<Path, Listing>

  type Rank = Path -> nat

  function ListingOf(l: Listings, path: Path): Listing {
    if path in l then l[path] else Loading
  }

  function Entries(l: Listings, path: Path): seq<Entry> {
    if ListingOf(l, path).Ready? then ListingOf(l, path).entries else []
  }

  predicate Below(entries: seq<Entry>, bound: nat, rank: Rank) {
    forall e <- entries :: e.isDir ==> rank(e.path) < bound
  }

  ghost predicate Acyclic(l: Listings, rank: Rank) {
    forall path: Path :: Below(Entries(l, path), rank(path), rank)
  }

  function StatusRows(listing: Listing, path: Path, depth: nat): seq<Row>
    requires !listing.Ready? || listing.entries == []
  {
    match listing
    case Loading => [StatusRow(path + ":status", depth, "Loading\U{2026}")]
    case Error(message) => [StatusRow(path + ":status", depth, message)]
    case Ready(_) => [StatusRow(path + ":empty", depth, "Empty")]
  }

  ghost function Rows(l: Listings, x: set<Path>, path: Path, depth: nat, rank: Rank): (rows: seq<Row>)
    requires Acyclic(l, rank)
    ensures rows != []
    decreases rank(path), |Entries(l, path)| + 1
  {
    var entries := Entries(l, path);
    if entries == [] then StatusRows(ListingOf(l, path), path, depth)
    else
      assert Below(entries, rank(path), rank);
      EntryRows(l, x, entries, depth, rank(path), rank)
  }

  ghost function EntryRows(l: Listings, x: set<Path>, entries: seq<Entry>, depth: nat, bound: nat, rank: Rank)
    : (rows: seq<Row>)
    requires Acyclic(l, rank) && Below(entries, bound, rank)
    ensures entries != [] ==> rows != []
    decreases bound, |entries|
  {
    if entries == [] then []
    else Subtree(l, x, entries[0], depth, bound, rank) + EntryRows(l, x, entries[1..], depth, bound, rank)
  }

  predicate Open(x: set<Path>, e: Entry) {
    e.isDir && e.path in x
  }

  ghost function Subtree(l: Listings, x: set<Path>, e: Entry, depth: nat, bound: nat, rank: Rank): (rows: seq<Row>)
    requires Acyclic(l, rank) && (e.isDir ==> rank(e.path) < bound)
    ensures rows != [] && rows[0] == EntryRow(e, depth, Open(x, e))
    decreases bound, 0
  {
    [EntryRow(e, depth, Open(x, e))] + (if Open(x, e) then Rows(l, x, e.path, depth + 1, rank) else [])
  }

  lemma BelowTail(entries: seq<Entry>, bound: nat, rank: Rank)
    requires Below(entries, bound, rank) && entries != []
    ensures Below(entries[1..], bound, rank) && (entries[0].isDir ==> rank(entries[0].path) < bound)
  {
  }

  lemma EntryRowsCons(l: Listings, x: set<Path>, entries: seq<Entry>, depth: nat, bound: nat, rank: Rank)
    requires Acyclic(l, rank) && Below(entries, bound, rank) && entries != []
    ensures EntryRows(l, x, entries, depth, bound, rank)
         == Subtree(l, x, entries[0], depth, bound, rank) + EntryRows(l, x, entries[1..], depth, bound, rank)
  {
  }

  lemma SubtreeIs(l: Listings, x: set<Path>, e: Entry, depth: nat, bound: nat, rank: Rank)
    requires Acyclic(l, rank) && (e.isDir ==> rank(e.path) < bound)
    ensures Subtree(l, x, e, depth, bound, rank)
         == [EntryRow(e, depth, Open(x, e))] + (if Open(x, e) then Rows(l, x, e.path, depth + 1, rank) else [])
  {
  }

  class FileRows {
    var rows: seq<Row>

    constructor ()
      ensures rows == []
    {
      rows := [];
    }

    method Walk(l: Listings, x: set<Path>, path: Path, depth: nat, ghost rank: Rank)
      requires Acyclic(l, rank)
      modifies this
      ensures rows == old(rows) + Rows(l, x, path, depth, rank)
      decreases rank(path)
    {
      var listing := ListingOf(l, path);
      if !listing.Ready? {
        var text := if listing.Loading? then "Loading\U{2026}" else listing.message;
        rows := rows + [StatusRow(path + ":status", depth, text)];
        return;
      }
      if |listing.entries| == 0 {
        rows := rows + [StatusRow(path + ":empty", depth, "Empty")];
        return;
      }
      var entries := listing.entries;
      assert entries[0..] == entries && Below(entries, rank(path), rank);
      ghost var all := EntryRows(l, x, entries, depth, rank(path), rank);
      assert Rows(l, x, path, depth, rank) == all;
      hide Rows, EntryRows, Subtree, Acyclic, ListingOf;
      for i := 0 to |entries|
        invariant rows + EntryRows(l, x, entries[i..], depth, rank(path), rank) == old(rows) + all
      {
        var entry := entries[i];
        ghost var before, rest := rows, EntryRows(l, x, entries[i + 1..], depth, rank(path), rank);
        assert entries[i..][0] == entry && entries[i..][1..] == entries[i + 1..];
        EntryRowsCons(l, x, entries[i..], depth, rank(path), rank);
        SubtreeIs(l, x, entry, depth, rank(path), rank);
        var open := entry.isDir && entry.path in x;
        rows := rows + [EntryRow(entry, depth, open)];
        if open {
          Walk(l, x, entry.path, depth + 1, rank);
        }
        Seqs.Assoc(before, [EntryRow(entry, depth, open)], if open then Rows(l, x, entry.path, depth + 1, rank) else []);
        assert rows == before + Subtree(l, x, entry, depth, rank(path), rank);
        Seqs.Assoc(before, Subtree(l, x, entry, depth, rank(path), rank), rest);
      }
    }
  }

  /** Flattens the tree; terminates on every acyclic set of listings. */
  method VisibleFileRows(l: Listings, x: set<Path>, ghost rank: Rank) returns (rows: seq<Row>)
    requires Acyclic(l, rank)
    ensures rows == Rows(l, x, ROOT_PATH, 0, rank)
  {
    var walk := new FileRows();
    walk.Walk(l, x, ROOT_PATH, 0, rank);
    rows := walk.rows;
  }

  function Toggled(x: set<Path>, path: Path): set<Path> {
    if path in x then x - {path} else x + {path}
  }

  method ToggleExpanded(x: set<Path>, path: Path) returns (next: set<Path>)
    ensures next == Toggled(x, path) && Toggled(next, path) == x
    ensures path in next <==> path !in x
    ensures forall p :: p != path ==> (p in next <==> p in x)
  {
    next := x;
    if path in next {
      next := next - {path};
    } else {
      next := next + {path};
    }
  }

  // ----- each visible entry has one row -----

  /** Every path is listed at most once. */
  ghost predicate UniquePaths(l: Listings) {
    forall p: Path, q: Path, i: nat, j: nat :: Same(l, p, i, q, j) ==> p == q && i == j
  }

  predicate Same(l: Listings, p: Path, i: nat, q: Path, j: nat) {
    i < |Entries(l, p)| && j < |Entries(l, q)| && Entries(l, p)[i].path == Entries(l, q)[j].path
  }

  predicate Step(l: Listings, p: Path, i: nat, q: Path, folder: bool) {
    i < |Entries(l, p)| && Entries(l, p)[i].path == q && (folder ==> Entries(l, p)[i].isDir)
  }

  predicate StepDown(l: Listings, c: seq<Path>, i: nat) {
    |c| > 1 && Step(l, c[0], i, c[1], |c| > 2)
  }

  /** Each path is listed under the one before it, and all but the ends are folders. */
  ghost predicate Chain(l: Listings, c: seq<Path>) {
    c != [] && (|c| > 1 ==> (exists i: nat :: StepDown(l, c, i)) && Chain(l, c[1..]))
  }

  lemma StepUnique(l: Listings, p: Path, q: Path, r: Path, i: nat, j: nat, f: bool, g: bool)
    requires UniquePaths(l) && Step(l, p, i, r, f) && Step(l, q, j, r, g)
    ensures p == q && i == j
  {
    assert Same(l, p, i, q, j);
  }

  /** A path has one way up. */
  lemma {:induction false} ChainsAgree(l: Listings, c: seq<Path>, d: seq<Path>)
    requires UniquePaths(l) && Chain(l, c) && Chain(l, d)
    requires |c| <= |d| && c[|c| - 1] == d[|d| - 1]
    ensures c == d[|d| - |c|..]
    decreases |c|
  {
    var m := |d| - |c|;
    if |c| > 1 {
      ChainsAgree(l, c[1..], d);
      ChainDrop(l, d, m);
      assert d[m..][0] == d[m] && d[m..][1] == d[m + 1] && d[m + 1..] == c[1..];
      var i: nat :| StepDown(l, c, i);
      var j: nat :| StepDown(l, d[m..], j);
      StepUnique(l, c[0], d[m], c[1], i, j, |c| > 2, |d[m..]| > 2);
      assert c == [c[0]] + c[1..] && d[m..] == [d[m]] + d[m + 1..];
    }
  }

  lemma {:induction false} ChainDrop(l: Listings, c: seq<Path>, m: nat)
    requires Chain(l, c) && m < |c|
    ensures Chain(l, c[m..])
    decreases m
  {
    if m == 0 {
      assert c[0..] == c;
    } else {
      ChainDrop(l, c[1..], m - 1);
      assert c[1..][m - 1..] == c[m..];
    }
  }

  lemma {:induction false} ChainRank(l: Listings, c: seq<Path>, m: nat, rank: Rank)
    requires Acyclic(l, rank) && Chain(l, c) && m < |c| - 1
    ensures rank(c[m]) <= rank(c[0])
    decreases m
  {
    if m > 0 {
      ChainRank(l, c[1..], m - 1, rank);
      var i: nat :| StepDown(l, c, i);
      assert Below(Entries(l, c[0]), rank(c[0]), rank) && Entries(l, c[0])[i] in Entries(l, c[0]);
    }
  }

  /** What is reached from two entries of a folder is reached from one of them. */
  lemma OneWayDown(l: Listings, p: Path, i: nat, j: nat, c: seq<Path>, d: seq<Path>, rank: Rank)
    requires Acyclic(l, rank) && UniquePaths(l) && Chain(l, c) && Chain(l, d) && |c| <= |d|
    requires Step(l, p, i, c[0], |c| > 1) && Step(l, p, j, d[0], |d| > 1)
    requires c[|c| - 1] == d[|d| - 1]
    ensures i == j && c == d
  {
    ChainsAgree(l, c, d);
    var m := |d| - |c|;
    if m == 0 {
      assert d[0..] == d;
      StepUnique(l, p, p, c[0], i, j, |c| > 1, |d| > 1);
    } else {
      assert Below(Entries(l, p), rank(p), rank) && Entries(l, p)[j] in Entries(l, p);
      ChainDrop(l, d, m - 1);
      var up := d[m - 1..];
      assert up[0] == d[m - 1] && up[1] == d[m] == c[0];
      var k: nat :| StepDown(l, up, k);
      StepUnique(l, p, d[m - 1], c[0], i, k, |c| > 1, |up| > 2);
      ChainRank(l, d, m - 1, rank);
      assert false;
    }
  }

  // ----- rows and chains -----

  /** Row `k` is one of the first entry's, or of the others'. */
  lemma EntryRowsAt(l: Listings, x: set<Path>, entries: seq<Entry>, depth: nat, bound: nat, rank: Rank, k: nat)
    requires Acyclic(l, rank) && Below(entries, bound, rank) && k < |EntryRows(l, x, entries, depth, bound, rank)|
    ensures entries != [] && (entries[0].isDir ==> rank(entries[0].path) < bound) && Below(entries[1..], bound, rank)
    ensures var here, rest := Subtree(l, x, entries[0], depth, bound, rank), EntryRows(l, x, entries[1..], depth, bound, rank);
      if k < |here| then EntryRows(l, x, entries, depth, bound, rank)[k] == here[k]
      else k - |here| < |rest| && EntryRows(l, x, entries, depth, bound, rank)[k] == rest[k - |here|]
  {
    assert entries != [];
    EntryRowsCons(l, x, entries, depth, bound, rank);
    BelowTail(entries, bound, rank);
    assert entries[0] in entries;
    hide Rows, EntryRows, Subtree, Acyclic;
  }

  /** An entry's row among those of entries `from..` of folder `p` lies at the end
    * of a chain down from one of them. */
  lemma {:induction false} EntryRowsReach(l: Listings, x: set<Path>, p: Path, from: nat, depth: nat, rank: Rank, k: nat)
    returns (i: nat, c: seq<Path>)
    requires Acyclic(l, rank) && from <= |Entries(l, p)| && Below(Entries(l, p)[from..], rank(p), rank)
    requires k < |EntryRows(l, x, Entries(l, p)[from..], depth, rank(p), rank)|
    requires EntryRows(l, x, Entries(l, p)[from..], depth, rank(p), rank)[k].EntryRow?
    ensures from <= i && Chain(l, c) && Step(l, p, i, c[0], |c| > 1)
    ensures c[|c| - 1] == EntryRows(l, x, Entries(l, p)[from..], depth, rank(p), rank)[k].entry.path
    decreases rank(p), |Entries(l, p)| - from
  {
    var entries := Entries(l, p)[from..];
    EntryRowsAt(l, x, entries, depth, rank(p), rank, k);
    assert entries[1..] == Entries(l, p)[from + 1..] && entries[0] == Entries(l, p)[from];
    hide Rows, EntryRows, Subtree, Below, Acyclic, Chain, Entries;
    var e := entries[0];
    var here := Subtree(l, x, e, depth, rank(p), rank);
    if k < |here| {
      i := from;
      c := SubtreeReach(l, x, e, depth, rank(p), rank, k);
    } else {
      i, c := EntryRowsReach(l, x, p, from + 1, depth, rank, k - |here|);
    }
  }

  /** Below an entry's own row come the rows of its folder. */
  lemma SubtreeBelow(l: Listings, x: set<Path>, e: Entry, depth: nat, bound: nat, rank: Rank, k: nat)
    requires Acyclic(l, rank) && (e.isDir ==> rank(e.path) < bound)
    requires 0 < k < |Subtree(l, x, e, depth, bound, rank)| && Subtree(l, x, e, depth, bound, rank)[k].EntryRow?
    ensures e.isDir && Below(Entries(l, e.path)[0..], rank(e.path), rank)
    ensures var rows := EntryRows(l, x, Entries(l, e.path)[0..], depth + 1, rank(e.path), rank);
      k - 1 < |rows| && Subtree(l, x, e, depth, bound, rank)[k] == rows[k - 1]
  {
    SubtreeIs(l, x, e, depth, bound, rank);
    var entries, rows := Entries(l, e.path), Rows(l, x, e.path, depth + 1, rank);
    assert Open(x, e) && rows[k - 1].EntryRow? && entries[0..] == entries && Below(entries, rank(e.path), rank);
    hide Subtree, EntryRows;
  }

  lemma {:induction false} SubtreeReach(l: Listings, x: set<Path>, e: Entry, depth: nat, bound: nat, rank: Rank, k: nat)
    returns (c: seq<Path>)
    requires Acyclic(l, rank) && (e.isDir ==> rank(e.path) < bound)
    requires k < |Subtree(l, x, e, depth, bound, rank)| && Subtree(l, x, e, depth, bound, rank)[k].EntryRow?
    ensures Chain(l, c) && c[0] == e.path && (|c| > 1 ==> e.isDir) && (k > 0 ==> |c| > 1)
    ensures c[|c| - 1] == Subtree(l, x, e, depth, bound, rank)[k].entry.path
    decreases bound, 0
  {
    if k == 0 {
      c := [e.path];
    } else {
      SubtreeBelow(l, x, e, depth, bound, rank, k);
      hide Rows, EntryRows, Subtree, Acyclic, Below, Entries;
      var i, rest := EntryRowsReach(l, x, e.path, 0, depth + 1, rank, k - 1);
      c := [e.path] + rest;
      assert c[1..] == rest;
      assert StepDown(l, c, i);
    }
  }

  ghost predicate Once(rows: seq<Row>) {
    forall j, k :: 0 <= j < k < |rows| && rows[j].EntryRow? && rows[k].EntryRow? ==> rows[j].entry.path != rows[k].entry.path
  }

  ghost predicate Apart(a: seq<Row>, b: seq<Row>) {
    forall j, k :: 0 <= j < |a| && 0 <= k < |b| && a[j].EntryRow? && b[k].EntryRow? ==> a[j].entry.path != b[k].entry.path
  }

  lemma OnceJoin(a: seq<Row>, b: seq<Row>)
    requires Once(a) && Once(b) && Apart(a, b)
    ensures Once(a + b)
  {
  }

  lemma {:induction false} EntryRowsOnce(l: Listings, x: set<Path>, p: Path, from: nat, depth: nat, rank: Rank)
    requires Acyclic(l, rank) && UniquePaths(l)
    requires from <= |Entries(l, p)| && Below(Entries(l, p)[from..], rank(p), rank)
    ensures Once(EntryRows(l, x, Entries(l, p)[from..], depth, rank(p), rank))
    decreases rank(p), |Entries(l, p)| - from
  {
    var entries := Entries(l, p)[from..];
    if entries != [] {
      var here := Subtree(l, x, entries[0], depth, rank(p), rank);
      var rest := EntryRows(l, x, entries[1..], depth, rank(p), rank);
      assert entries[1..] == Entries(l, p)[from + 1..];
      SubtreeOnce(l, x, p, from, depth, rank);
      EntryRowsOnce(l, x, p, from + 1, depth, rank);
      assert EntryRows(l, x, entries, depth, rank(p), rank) == here + rest;
      forall j, k | 0 <= j < |here| && 0 <= k < |rest| && here[j].EntryRow? && rest[k].EntryRow?
        ensures here[j].entry.path != rest[k].entry.path
      {
        var c := SubtreeReach(l, x, entries[0], depth, rank(p), rank, j);
        var i, d := EntryRowsReach(l, x, p, from + 1, depth, rank, k);
        hide EntryRows, Subtree;
        if c[|c| - 1] == d[|d| - 1] {
          SiblingsApart(l, p, from, i, c, d, rank);
        }
      }
      OnceJoin(here, rest);
    }
  }

  lemma SiblingsApart(l: Listings, p: Path, i: nat, j: nat, c: seq<Path>, d: seq<Path>, rank: Rank)
    requires Acyclic(l, rank) && UniquePaths(l) && Chain(l, c) && Chain(l, d)
    requires Step(l, p, i, c[0], |c| > 1) && Step(l, p, j, d[0], |d| > 1)
    requires c[|c| - 1] == d[|d| - 1]
    ensures i == j && c == d
  {
    if |c| <= |d| {
      OneWayDown(l, p, i, j, c, d, rank);
    } else {
      OneWayDown(l, p, j, i, d, c, rank);
    }
  }

  lemma {:induction false} SubtreeOnce(l: Listings, x: set<Path>, p: Path, i: nat, depth: nat, rank: Rank)
    requires Acyclic(l, rank) && UniquePaths(l) && i < |Entries(l, p)|
    requires Entries(l, p)[i].isDir ==> rank(Entries(l, p)[i].path) < rank(p)
    ensures Once(Subtree(l, x, Entries(l, p)[i], depth, rank(p), rank))
    decreases rank(p), 0
  {
    var e := Entries(l, p)[i];
    var rows := Subtree(l, x, e, depth, rank(p), rank);
    if Open(x, e) {
      var below := Rows(l, x, e.path, depth + 1, rank);
      if Entries(l, e.path) != [] {
        assert Entries(l, e.path)[0..] == Entries(l, e.path);
        EntryRowsOnce(l, x, e.path, 0, depth + 1, rank);
      }
      assert Once(below);
      forall k | 0 <= k < |below| && below[k].EntryRow?
        ensures below[k].entry.path != e.path
      {
        assert rows[k + 1] == below[k];
        var c := SubtreeReach(l, x, e, depth, rank(p), rank, k + 1);
        if c[|c| - 1] == e.path {
          SiblingsApart(l, p, i, i, [e.path], c, rank);
        }
      }
    }
  }

  /** A visible entry is one row, not more. */
  lemma EachEntryIsOneRow(l: Listings, x: set<Path>, rank: Rank)
    requires Acyclic(l, rank) && UniquePaths(l)
    ensures Once(Rows(l, x, ROOT_PATH, 0, rank))
  {
    var entries := Entries(l, ROOT_PATH);
    if entries != [] {
      assert entries[0..] == entries;
      EntryRowsOnce(l, x, ROOT_PATH, 0, 0, rank);
    }
  }

  // ----- one folder more or less -----

  predicate OpenRow(row: Row, f: Path) {
    row.EntryRow? && row.entry.path == f && row.expanded
  }

  ghost predicate NoneOpen(rows: seq<Row>, f: Path) {
    forall j :: 0 <= j < |rows| ==> !OpenRow(rows[j], f)
  }

  /** Row `k` is `f`, expanded, and no other row is. */
  ghost predicate OnlyOpen(rows: seq<Row>, k: nat, f: Path) {
    k < |rows| && OpenRow(rows[k], f) && forall j :: 0 <= j < |rows| && j != k ==> !OpenRow(rows[j], f)
  }

  lemma NoneOpenParts(a: seq<Row>, b: seq<Row>, f: Path)
    ensures NoneOpen(a + b, f) <==> NoneOpen(a, f) && NoneOpen(b, f)
  {
    if NoneOpen(a + b, f) {
      forall j | 0 <= j < |a| ensures !OpenRow(a[j], f) { assert (a + b)[j] == a[j]; }
      forall j | 0 <= j < |b| ensures !OpenRow(b[j], f) { assert (a + b)[|a| + j] == b[j]; }
    }
  }

  lemma OnlyOpenParts(a: seq<Row>, b: seq<Row>, k: nat, f: Path)
    requires OnlyOpen(a + b, k, f)
    ensures k < |a| ==> OnlyOpen(a, k, f) && NoneOpen(b, f)
    ensures k >= |a| ==> NoneOpen(a, f) && OnlyOpen(b, k - |a|, f)
  {
    assert forall j :: 0 <= j < |a| ==> (a + b)[j] == a[j];
    forall j | 0 <= j < |b| ensures OpenRow(b[j], f) ==> |a| + j == k { assert (a + b)[|a| + j] == b[j]; }
  }

  lemma {:induction false} RowsWithout(l: Listings, x: set<Path>, f: Path, path: Path, depth: nat, rank: Rank)
    requires Acyclic(l, rank) && NoneOpen(Rows(l, x, path, depth, rank), f)
    ensures Rows(l, x - {f}, path, depth, rank) == Rows(l, x, path, depth, rank)
    decreases rank(path), |Entries(l, path)| + 1
  {
    if Entries(l, path) != [] {
      EntryRowsWithout(l, x, f, Entries(l, path), depth, rank(path), rank);
    }
  }

  lemma {:induction false} EntryRowsWithout(l: Listings, x: set<Path>, f: Path, entries: seq<Entry>, depth: nat,
                                            bound: nat, rank: Rank)
    requires Acyclic(l, rank) && Below(entries, bound, rank) && NoneOpen(EntryRows(l, x, entries, depth, bound, rank), f)
    ensures EntryRows(l, x - {f}, entries, depth, bound, rank) == EntryRows(l, x, entries, depth, bound, rank)
    decreases bound, |entries|
  {
    if entries != [] {
      NoneOpenParts(Subtree(l, x, entries[0], depth, bound, rank), EntryRows(l, x, entries[1..], depth, bound, rank), f);
      SubtreeWithout(l, x, f, entries[0], depth, bound, rank);
      EntryRowsWithout(l, x, f, entries[1..], depth, bound, rank);
    }
  }

  lemma {:induction false} SubtreeWithout(l: Listings, x: set<Path>, f: Path, e: Entry, depth: nat, bound: nat, rank: Rank)
    requires Acyclic(l, rank) && (e.isDir ==> rank(e.path) < bound) && NoneOpen(Subtree(l, x, e, depth, bound, rank), f)
    ensures Subtree(l, x - {f}, e, depth, bound, rank) == Subtree(l, x, e, depth, bound, rank)
    decreases bound, 0
  {
    var rows := Subtree(l, x, e, depth, bound, rank);
    assert !OpenRow(rows[0], f);
    if Open(x, e) {
      NoneOpenParts(rows[..1], rows[1..], f);
      assert rows == rows[..1] + rows[1..] && rows[1..] == Rows(l, x, e.path, depth + 1, rank);
      RowsWithout(l, x, f, e.path, depth + 1, rank);
    }
  }

  /** `less` is `more`, with row `k` closed and `block` after it gone. */
  ghost predicate Collapses(more: seq<Row>, less: seq<Row>, k: nat, block: seq<Row>) {
    var end := k + 1 + |block|;
    && end <= |more| && more[k].EntryRow? && more[k].expanded
    && more[k + 1..end] == block
    && less == more[..k] + ([more[k].(expanded := false)] + more[end..])
  }

  lemma CollapsesBefore(a: seq<Row>, less: seq<Row>, b: seq<Row>, k: nat, block: seq<Row>)
    requires Collapses(a, less, k, block)
    ensures Collapses(a + b, less + b, k, block)
  {
    var end := k + 1 + |block|;
    Seqs.DropWithin(a, b, end);
    assert (a + b)[..k] == a[..k] && (a + b)[k + 1..end] == a[k + 1..end];
    Seqs.Assoc(a[..k], [a[k].(expanded := false)] + a[end..], b);
    Seqs.Assoc([a[k].(expanded := false)], a[end..], b);
  }

  lemma CollapsesAfter(a: seq<Row>, b: seq<Row>, less: seq<Row>, k: nat, block: seq<Row>)
    requires Collapses(b, less, k, block)
    ensures Collapses(a + b, a + less, |a| + k, block)
  {
    var end := k + 1 + |block|;
    Seqs.DropBeyond(a, b, |a| + end);
    assert (a + b)[..|a| + k] == a + b[..k];
    assert (a + b)[|a| + k + 1..|a| + end] == b[k + 1..end];
    Seqs.Assoc(a, b[..k], [b[k].(expanded := false)] + b[end..]);
  }

  /** `less` is `more` with `f`, open at `k`, closed, and its rows gone. */
  ghost predicate Cut(l: Listings, x: set<Path>, f: Path, more: seq<Row>, less: seq<Row>, k: nat, rank: Rank)
    requires Acyclic(l, rank)
  {
    k < |more| && Collapses(more, less, k, Rows(l, x, f, more[k].depth + 1, rank))
  }

  lemma CutBefore(l: Listings, x: set<Path>, f: Path, a: seq<Row>, less: seq<Row>, b: seq<Row>, k: nat, rank: Rank)
    requires Acyclic(l, rank) && Cut(l, x, f, a, less, k, rank)
    ensures Cut(l, x, f, a + b, less + b, k, rank)
  {
    hide Rows, Collapses, Acyclic;
    CollapsesBefore(a, less, b, k, Rows(l, x, f, a[k].depth + 1, rank));
  }

  lemma CutAfter(l: Listings, x: set<Path>, f: Path, a: seq<Row>, b: seq<Row>, less: seq<Row>, k: nat, rank: Rank)
    requires Acyclic(l, rank) && Cut(l, x, f, b, less, k, rank)
    ensures Cut(l, x, f, a + b, a + less, |a| + k, rank)
  {
    hide Rows, Collapses, Acyclic;
    CollapsesAfter(a, b, less, k, Rows(l, x, f, b[k].depth + 1, rank));
  }

  lemma JoinCut(l: Listings, x: set<Path>, f: Path, here: seq<Row>, rest: seq<Row>, here': seq<Row>, rest': seq<Row>, k: nat,
                rank: Rank)
    requires Acyclic(l, rank)
    requires if k < |here| then Cut(l, x, f, here, here', k, rank) && rest' == rest
             else here' == here && Cut(l, x, f, rest, rest', k - |here|, rank)
    ensures Cut(l, x, f, here + rest, here' + rest', k, rank)
  {
    hide Cut, Acyclic;
    if k < |here| {
      CutBefore(l, x, f, here, here', rest, k, rank);
    } else {
      CutAfter(l, x, f, here, rest, rest', k - |here|, rank);
    }
  }

  lemma {:induction false} RowsCut(l: Listings, x: set<Path>, f: Path, path: Path, depth: nat, rank: Rank, k: nat)
    requires Acyclic(l, rank) && OnlyOpen(Rows(l, x, path, depth, rank), k, f)
    ensures Cut(l, x, f, Rows(l, x, path, depth, rank), Rows(l, x - {f}, path, depth, rank), k, rank)
    decreases rank(path), |Entries(l, path)| + 1
  {
    hide Cut;
    EntryRowsCut(l, x, f, Entries(l, path), depth, rank(path), rank, k);
  }

  lemma {:induction false} EntryRowsCut(l: Listings, x: set<Path>, f: Path, entries: seq<Entry>, depth: nat, bound: nat,
                                        rank: Rank, k: nat)
    requires Acyclic(l, rank) && Below(entries, bound, rank) && OnlyOpen(EntryRows(l, x, entries, depth, bound, rank), k, f)
    ensures Cut(l, x, f, EntryRows(l, x, entries, depth, bound, rank),
                EntryRows(l, x - {f}, entries, depth, bound, rank), k, rank)
    decreases bound, |entries|
  {
    EntryRowsAt(l, x, entries, depth, bound, rank, k);
    var e, y := entries[0], x - {f};
    EntryRowsCons(l, x, entries, depth, bound, rank);
    EntryRowsCons(l, y, entries, depth, bound, rank);
    hide Rows, EntryRows, Subtree, Cut, OnlyOpen, NoneOpen, Below, Acyclic;
    var here, rest := Subtree(l, x, e, depth, bound, rank), EntryRows(l, x, entries[1..], depth, bound, rank);
    OnlyOpenParts(here, rest, k, f);
    if k < |here| {
      SubtreeCut(l, x, f, e, depth, bound, rank, k);
      EntryRowsWithout(l, x, f, entries[1..], depth, bound, rank);
    } else {
      SubtreeWithout(l, x, f, e, depth, bound, rank);
      EntryRowsCut(l, x, f, entries[1..], depth, bound, rank, k - |here|);
    }
    JoinCut(l, x, f, here, rest, Subtree(l, y, e, depth, bound, rank), EntryRows(l, y, entries[1..], depth, bound, rank), k, rank);
  }

  lemma CollapseFirst(row: Row, block: seq<Row>)
    requires row.EntryRow? && row.expanded
    ensures Collapses([row] + block, [row.(expanded := false)], 0, block)
  {
    assert ([row] + block)[|block| + 1..] == [];
    assert ([row] + block)[1..|block| + 1] == block;
  }

  lemma SubtreeCutHere(l: Listings, x: set<Path>, f: Path, e: Entry, depth: nat, bound: nat, rank: Rank)
    requires Acyclic(l, rank) && (e.isDir ==> rank(e.path) < bound) && Open(x, e) && e.path == f
    ensures Cut(l, x, f, Subtree(l, x, e, depth, bound, rank), Subtree(l, x - {f}, e, depth, bound, rank), 0, rank)
  {
    var block := Rows(l, x, f, depth + 1, rank);
    var row := EntryRow(e, depth, true);
    assert Subtree(l, x, e, depth, bound, rank) == [row] + block;
    assert Subtree(l, x - {f}, e, depth, bound, rank) == [row.(expanded := false)];
    hide Rows, Subtree, Acyclic, Collapses;
    CollapseFirst(row, block);
  }

  lemma SubtreeOpen(l: Listings, x: set<Path>, e: Entry, depth: nat, bound: nat, rank: Rank)
    requires Acyclic(l, rank) && (e.isDir ==> rank(e.path) < bound) && Open(x, e)
    ensures Subtree(l, x, e, depth, bound, rank) == [EntryRow(e, depth, true)] + Rows(l, x, e.path, depth + 1, rank)
  {
  }

  lemma FirstRow(l: Listings, x: set<Path>, f: Path, e: Entry, depth: nat, bound: nat, rank: Rank, k: nat)
    requires Acyclic(l, rank) && (e.isDir ==> rank(e.path) < bound) && OnlyOpen(Subtree(l, x, e, depth, bound, rank), k, f)
    ensures Open(x, e) && (k == 0 <==> e.path == f)
  {
    assert Subtree(l, x, e, depth, bound, rank)[0] == EntryRow(e, depth, Open(x, e));
  }

  lemma {:induction false} SubtreeCut(l: Listings, x: set<Path>, f: Path, e: Entry, depth: nat, bound: nat, rank: Rank, k: nat)
    requires Acyclic(l, rank) && (e.isDir ==> rank(e.path) < bound) && OnlyOpen(Subtree(l, x, e, depth, bound, rank), k, f)
    ensures Cut(l, x, f, Subtree(l, x, e, depth, bound, rank), Subtree(l, x - {f}, e, depth, bound, rank), k, rank)
    decreases bound, 0
  {
    FirstRow(l, x, f, e, depth, bound, rank, k);
    if k == 0 {
      SubtreeCutHere(l, x, f, e, depth, bound, rank);
    } else {
      var row, rows := EntryRow(e, depth, true), Rows(l, x, e.path, depth + 1, rank);
      SubtreeOpen(l, x, e, depth, bound, rank);
      SubtreeOpen(l, x - {f}, e, depth, bound, rank);
      OnlyOpenParts([row], rows, k, f);
      hide Rows, Subtree, Cut, OnlyOpen, NoneOpen, Acyclic;
      RowsCut(l, x, f, e.path, depth + 1, rank, k - 1);
      CutAfter(l, x, f, [row], rows, Rows(l, x - {f}, e.path, depth + 1, rank), k - 1, rank);
    }
  }

  // ----- depths -----

  ghost predicate Deep(rows: seq<Row>, depth: nat) {
    forall j :: 0 <= j < |rows| ==> rows[j].depth >= depth
  }

  /** A closed row is followed by nothing deeper. */
  ghost predicate ClosedIsLast(rows: seq<Row>) {
    forall j :: 0 <= j < |rows| - 1 && !(rows[j].EntryRow? && rows[j].expanded) ==> rows[j + 1].depth <= rows[j].depth
  }

  ghost predicate Flagged(rows: seq<Row>, x: set<Path>) {
    forall j :: 0 <= j < |rows| && rows[j].EntryRow? ==> rows[j].expanded == Open(x, rows[j].entry)
  }

  ghost predicate Shaped(rows: seq<Row>, depth: nat, x: set<Path>) {
    Deep(rows, depth) && ClosedIsLast(rows) && Flagged(rows, x) && (rows != [] ==> rows[0].depth == depth)
  }

  lemma ShapedJoin(a: seq<Row>, b: seq<Row>, depth: nat, x: set<Path>)
    requires Shaped(a, depth, x) && Shaped(b, depth, x)
    ensures Shaped(a + b, depth, x)
  {
  }

  lemma {:induction false} RowsShaped(l: Listings, x: set<Path>, path: Path, depth: nat, rank: Rank)
    requires Acyclic(l, rank)
    ensures Shaped(Rows(l, x, path, depth, rank), depth, x)
    decreases rank(path), |Entries(l, path)| + 1
  {
    if Entries(l, path) != [] {
      EntryRowsShaped(l, x, Entries(l, path), depth, rank(path), rank);
    }
  }

  lemma {:induction false} EntryRowsShaped(l: Listings, x: set<Path>, entries: seq<Entry>, depth: nat, bound: nat, rank: Rank)
    requires Acyclic(l, rank) && Below(entries, bound, rank)
    ensures Shaped(EntryRows(l, x, entries, depth, bound, rank), depth, x)
    decreases bound, |entries|
  {
    if entries != [] {
      SubtreeShaped(l, x, entries[0], depth, bound, rank);
      EntryRowsShaped(l, x, entries[1..], depth, bound, rank);
      ShapedJoin(Subtree(l, x, entries[0], depth, bound, rank), EntryRows(l, x, entries[1..], depth, bound, rank), depth, x);
    }
  }

  lemma {:induction false} SubtreeShaped(l: Listings, x: set<Path>, e: Entry, depth: nat, bound: nat, rank: Rank)
    requires Acyclic(l, rank) && (e.isDir ==> rank(e.path) < bound)
    ensures Shaped(Subtree(l, x, e, depth, bound, rank), depth, x)
    decreases bound, 0
  {
    if Open(x, e) {
      RowsShaped(l, x, e.path, depth + 1, rank);
      hide Rows;
    }
  }

  lemma OnceOpen(rows: seq<Row>, k: nat)
    requires Once(rows) && k < |rows| && rows[k].EntryRow? && rows[k].expanded
    ensures OnlyOpen(rows, k, rows[k].entry.path)
  {
  }

  /** `block` is the whole run of rows after `k` that are deeper than row `k`. */
  ghost predicate DeeperRun(rows: seq<Row>, k: nat, block: seq<Row>)
    requires k + 1 + |block| <= |rows|
  {
    && Deep(block, rows[k].depth + 1)
    && (k + 1 + |block| < |rows| ==> rows[k + 1 + |block|].depth <= rows[k].depth)
  }

  /** Closing a visible expanded folder clears its flag, removes exactly the run of
    * deeper rows below it, which is never empty, and changes nothing else. */
  lemma CollapseRemovesOneBlock(l: Listings, x: set<Path>, k: nat, rank: Rank) returns (block: seq<Row>)
    requires Acyclic(l, rank) && UniquePaths(l)
    requires k < |Rows(l, x, ROOT_PATH, 0, rank)|
    requires Rows(l, x, ROOT_PATH, 0, rank)[k].EntryRow? && Rows(l, x, ROOT_PATH, 0, rank)[k].expanded
    ensures var rows := Rows(l, x, ROOT_PATH, 0, rank);
      && block != []
      && Collapses(rows, Rows(l, Toggled(x, rows[k].entry.path), ROOT_PATH, 0, rank), k, block)
      && DeeperRun(rows, k, block)
  {
    var rows := Rows(l, x, ROOT_PATH, 0, rank);
    var f := rows[k].entry.path;
    EachEntryIsOneRow(l, x, rank);
    OnceOpen(rows, k);
    RowsShaped(l, x, ROOT_PATH, 0, rank);
    RowsCut(l, x, f, ROOT_PATH, 0, rank, k);
    block := Rows(l, x, f, rows[k].depth + 1, rank);
    RowsShaped(l, x, f, rows[k].depth + 1, rank);
    RowsShaped(l, x - {f}, ROOT_PATH, 0, rank);
    var less := Rows(l, x - {f}, ROOT_PATH, 0, rank);
    hide Rows, UniquePaths, Acyclic, Once, OnlyOpen;
    if k + 1 + |block| < |rows| {
      assert less[k] == rows[k].(expanded := false) && less[k + 1] == rows[k + 1 + |block|];
    }
  }

  /** Opening a visible closed folder inserts one such block and changes nothing else. */
  lemma ExpandInsertsOneBlock(l: Listings, x: set<Path>, k: nat, rank: Rank) returns (block: seq<Row>)
    requires Acyclic(l, rank) && UniquePaths(l)
    requires k < |Rows(l, x, ROOT_PATH, 0, rank)|
    requires var row := Rows(l, x, ROOT_PATH, 0, rank)[k]; row.EntryRow? && row.entry.isDir && !row.expanded
    ensures var y := Toggled(x, Rows(l, x, ROOT_PATH, 0, rank)[k].entry.path);
      && block != []
      && Collapses(Rows(l, y, ROOT_PATH, 0, rank), Rows(l, x, ROOT_PATH, 0, rank), k, block)
      && DeeperRun(Rows(l, y, ROOT_PATH, 0, rank), k, block)
  {
    var rows := Rows(l, x, ROOT_PATH, 0, rank);
    var f := rows[k].entry.path;
    RowsShaped(l, x, ROOT_PATH, 0, rank);
    var y := Toggled(x, f);
    assert y - {f} == x;
    var more := Rows(l, y, ROOT_PATH, 0, rank);
    RowsShaped(l, y, ROOT_PATH, 0, rank);
    if NoneOpen(more, f) {
      RowsWithout(l, y, f, ROOT_PATH, 0, rank);
      assert false;
    }
    var j :| 0 <= j < |more| && OpenRow(more[j], f);
    block := CollapseRemovesOneBlock(l, y, j, rank);
    EachEntryIsOneRow(l, x, rank);
    assert rows[j] == more[j].(expanded := false);
    assert j == k;
  }
}
