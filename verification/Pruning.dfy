/**
  Pruning the log archive: a directory of log files, its listing by age, and the
  removal loops of `cleanup`.
 */
module Pruning {
  import opened Records

  type Name = string

  /** Times are seconds. */
  datatype LogFile = LogFile(name: Name, data: Bytes, modTime: int)

  /** The managed files of the archive directory, oldest creation first. */
  type Directory = seq<LogFile>

  ghost predicate Unnamed(fs: seq<LogFile>, name: Name) {
    forall f :: f in fs ==> f.name != name
  }

  ghost predicate DistinctNames(fs: seq<LogFile>) {
    fs == [] || (Unnamed(fs[1..], fs[0].name) && DistinctNames(fs[1..]))
  }

  function TotalBytes(fs: seq<LogFile>): nat {
    if fs == [] then 0 else |fs[0].data| + TotalBytes(fs[1..])
  }

  // --------------------------------------------------------------- listing

  /** Lexicographic order on names. */
  predicate NameLess(a: Name, b: Name) {
    b != "" && (a == "" || a[0] < b[0] || (a[0] == b[0] && NameLess(a[1..], b[1..])))
  }

  /** The order of listLogFiles: modification time, then name. */
  predicate Older(f: LogFile, g: LogFile) {
    if f.modTime == g.modTime then NameLess(f.name, g.name) else f.modTime < g.modTime
  }

  lemma {:induction false} NameAsymmetric(a: Name, b: Name)
    ensures !(NameLess(a, b) && NameLess(b, a))
  {
    if a != "" && b != "" && a[0] == b[0] {
      NameAsymmetric(a[1..], b[1..]);
    }
  }

  function Insert(f: LogFile, fs: seq<LogFile>): seq<LogFile> {
    if fs == [] || Older(f, fs[0]) then [f] + fs else [fs[0]] + Insert(f, fs[1..])
  }

  /** listLogFiles: all files, sorted. */
  function Listing(dir: Directory): seq<LogFile> {
    if dir == [] then [] else Insert(dir[0], Listing(dir[1..]))
  }

  ghost predicate Sorted(fs: seq<LogFile>) {
    forall i :: 0 <= i < |fs| - 1 ==> !Older(fs[i + 1], fs[i])
  }

  lemma PrependSorted(f: LogFile, fs: seq<LogFile>)
    requires Sorted(fs) && (fs != [] ==> !Older(fs[0], f))
    ensures Sorted([f] + fs)
  {
    var r := [f] + fs;
    forall i | 0 <= i < |r| - 1 ensures !Older(r[i + 1], r[i]) {
      assert r[i + 1] == fs[i];
      assert i > 0 ==> r[i] == fs[i - 1];
    }
  }

  lemma TailSorted(fs: seq<LogFile>)
    requires Sorted(fs) && fs != []
    ensures Sorted(fs[1..])
  {
    assert forall i :: 0 <= i < |fs[1..]| ==> fs[1..][i] == fs[i + 1];
  }

  lemma {:induction false} InsertSorted(f: LogFile, fs: seq<LogFile>)
    requires Sorted(fs)
    ensures Sorted(Insert(f, fs))
    ensures Insert(f, fs) != [] && (Insert(f, fs)[0] == f || (fs != [] && Insert(f, fs)[0] == fs[0]))
  {
    if fs == [] || Older(f, fs[0]) {
      if fs != [] {
        OlderAsymmetric(f, fs[0]);
      }
      PrependSorted(f, fs);
    } else {
      TailSorted(fs);
      InsertSorted(f, fs[1..]);
      PrependSorted(fs[0], Insert(f, fs[1..]));
    }
  }

  lemma OlderAsymmetric(f: LogFile, g: LogFile)
    ensures !(Older(f, g) && Older(g, f))
  {
    NameAsymmetric(f.name, g.name);
  }

  lemma {:induction false} InsertAdds(f: LogFile, fs: seq<LogFile>)
    ensures multiset(Insert(f, fs)) == multiset{f} + multiset(fs)
    ensures TotalBytes(Insert(f, fs)) == |f.data| + TotalBytes(fs)
  {
    if fs != [] && !Older(f, fs[0]) {
      InsertAdds(f, fs[1..]);
      assert fs == [fs[0]] + fs[1..];
    }
  }

  lemma {:induction false} ListingSorted(dir: Directory)
    ensures Sorted(Listing(dir)) && multiset(Listing(dir)) == multiset(dir)
    ensures TotalBytes(Listing(dir)) == TotalBytes(dir)
  {
    if dir != [] {
      ListingSorted(dir[1..]);
      InsertSorted(dir[0], Listing(dir[1..]));
      InsertAdds(dir[0], Listing(dir[1..]));
      assert dir == [dir[0]] + dir[1..];
    }
  }

  lemma {:induction false} SortedTimes(fs: seq<LogFile>, i: nat, j: nat)
    requires Sorted(fs) && i <= j < |fs|
    ensures fs[i].modTime <= fs[j].modTime
    decreases j - i
  {
    if i < j {
      SortedTimes(fs, i, j - 1);
      assert !Older(fs[j - 1 + 1], fs[j - 1]);
    }
  }

  // --------------------------------------------------------------- removal

  /** os.Remove. */
  function Without(dir: Directory, name: Name): Directory {
    if dir == [] then [] else (if dir[0].name == name then [] else [dir[0]]) + Without(dir[1..], name)
  }

  lemma {:induction false} WithoutMembers(dir: Directory, name: Name)
    ensures forall f :: f in Without(dir, name) <==> f in dir && f.name != name
  {
    if dir != [] {
      WithoutMembers(dir[1..], name);
      assert dir == [dir[0]] + dir[1..];
    }
  }

  lemma {:induction false} WithoutDistinct(dir: Directory, name: Name)
    requires DistinctNames(dir)
    ensures DistinctNames(Without(dir, name))
  {
    if dir != [] {
      WithoutDistinct(dir[1..], name);
      WithoutMembers(dir[1..], name);
      var rest := Without(dir[1..], name);
      assert ([dir[0]] + rest)[1..] == rest;
      assert [] + rest == rest;
    }
  }

  lemma {:induction false} WithoutAbsent(dir: Directory, name: Name)
    requires Unnamed(dir, name)
    ensures Without(dir, name) == dir
  {
    if dir != [] {
      assert dir == [dir[0]] + dir[1..];
      WithoutAbsent(dir[1..], name);
    }
  }

  lemma {:induction false} WithoutTotal(dir: Directory, f: LogFile)
    requires DistinctNames(dir) && f in dir
    ensures TotalBytes(Without(dir, f.name)) + |f.data| == TotalBytes(dir)
  {
    assert dir == [dir[0]] + dir[1..];
    var rest := Without(dir[1..], f.name);
    if dir[0].name == f.name {
      WithoutAbsent(dir[1..], f.name);
      assert [] + rest == rest;
    } else {
      WithoutTotal(dir[1..], f);
      assert ([dir[0]] + rest)[1..] == rest;
    }
  }

  lemma {:induction false} InsertDistinct(f: LogFile, fs: seq<LogFile>)
    requires DistinctNames(fs) && Unnamed(fs, f.name)
    ensures DistinctNames(Insert(f, fs))
    ensures forall g :: g in Insert(f, fs) <==> g == f || g in fs
  {
    if fs == [] || Older(f, fs[0]) {
      assert ([f] + fs)[1..] == fs;
    } else {
      assert fs == [fs[0]] + fs[1..];
      InsertDistinct(f, fs[1..]);
      var rest := Insert(f, fs[1..]);
      assert ([fs[0]] + rest)[1..] == rest;
    }
  }

  lemma {:induction false} ListingDistinct(dir: Directory)
    requires DistinctNames(dir)
    ensures DistinctNames(Listing(dir))
    ensures forall g :: g in Listing(dir) <==> g in dir
  {
    if dir != [] {
      assert dir == [dir[0]] + dir[1..];
      ListingDistinct(dir[1..]);
      InsertDistinct(dir[0], Listing(dir[1..]));
    }
  }

  // ------------------------------------------------- pruning by total size

  /** The local variables of the size pruning; `failed` once a removal has failed. */
  datatype Progress = Progress(dir: Directory, total: int, removed: set<Name>, failed: bool)

  /** What the loop body does with one file it considers: nothing once the total fits. */
  function Visit(f: LogFile, p: Progress, limit: int, current: Name, stuck: set<Name>): Progress {
    if p.failed || p.total <= limit || f.name == current || f.name in p.removed then p
    else if f.name in stuck then p.(failed := true)
    else Progress(Without(p.dir, f.name), p.total - |f.data|, p.removed + {f.name}, false)
  }

  /** One pass over the listing, restricted to the files on one side of the cutoff. */
  function Pass(fs: seq<LogFile>, p: Progress, limit: int, current: Name, stuck: set<Name>,
                cutoff: int, recent: bool): Progress
  {
    if fs == [] then p
    else
      var q := Pass(fs[..|fs| - 1], p, limit, current, stuck, cutoff, recent);
      var f := fs[|fs| - 1];
      if (f.modTime < cutoff) == recent then q else Visit(f, q, limit, current, stuck)
  }

  /** The two passes: first the files older than the preferred age, then the recent ones. */
  function TwoPass(fs: seq<LogFile>, p: Progress, limit: int, current: Name, stuck: set<Name>, cutoff: int): Progress {
    Pass(fs, Pass(fs, p, limit, current, stuck, cutoff, false), limit, current, stuck, cutoff, true)
  }

  /** A single sweep, oldest file first. */
  function Sweep(fs: seq<LogFile>, p: Progress, limit: int, current: Name, stuck: set<Name>): Progress {
    if fs == [] then p
    else Visit(fs[|fs| - 1], Sweep(fs[..|fs| - 1], p, limit, current, stuck), limit, current, stuck)
  }

  /** `fs` lists all files before the cutoff ahead of all others. */
  ghost predicate Split(fs: seq<LogFile>, k: nat, cutoff: int) {
    k <= |fs| && forall i :: 0 <= i < |fs| ==> (fs[i].modTime < cutoff <==> i < k)
  }

  lemma {:induction false} SplitExists(fs: seq<LogFile>, cutoff: int) returns (k: nat)
    requires Sorted(fs)
    ensures Split(fs, k, cutoff)
  {
    k := 0;
    while k < |fs| && fs[k].modTime < cutoff
      invariant k <= |fs| && forall i :: 0 <= i < k ==> fs[i].modTime < cutoff
    {
      k := k + 1;
    }
    forall i | k <= i < |fs| ensures fs[i].modTime >= cutoff {
      SortedTimes(fs, k, i);
    }
  }

  lemma {:induction false} OldPass(fs: seq<LogFile>, p: Progress, limit: int, current: Name, stuck: set<Name>,
                                   cutoff: int, k: nat, n: nat)
    requires Split(fs, k, cutoff) && n <= |fs|
    ensures Pass(fs[..n], p, limit, current, stuck, cutoff, false) ==
            Sweep(fs[..if n < k then n else k], p, limit, current, stuck)
  {
    if n > 0 {
      OldPass(fs, p, limit, current, stuck, cutoff, k, n - 1);
      assert fs[..n][..n - 1] == fs[..n - 1];
    }
  }

  lemma {:induction false} RecentPass(fs: seq<LogFile>, p: Progress, limit: int, current: Name, stuck: set<Name>,
                                      cutoff: int, k: nat, n: nat)
    requires Split(fs, k, cutoff) && n <= |fs|
    ensures Pass(fs[..n], Sweep(fs[..k], p, limit, current, stuck), limit, current, stuck, cutoff, true) ==
            Sweep(fs[..if n < k then k else n], p, limit, current, stuck)
  {
    if n > 0 {
      RecentPass(fs, p, limit, current, stuck, cutoff, k, n - 1);
      assert fs[..n][..n - 1] == fs[..n - 1];
    }
  }

  /** The two passes leave the directory exactly as one oldest-first sweep would: same
      files removed, same total, same failure. */
  lemma TwoPassIsSweep(fs: seq<LogFile>, p: Progress, limit: int, current: Name, stuck: set<Name>, cutoff: int)
    requires Sorted(fs)
    ensures TwoPass(fs, p, limit, current, stuck, cutoff) == Sweep(fs, p, limit, current, stuck)
  {
    var k := SplitExists(fs, cutoff);
    assert fs[..|fs|] == fs;
    OldPass(fs, p, limit, current, stuck, cutoff, k, |fs|);
    RecentPass(fs, p, limit, current, stuck, cutoff, k, |fs|);
  }

  // ------------------------------------------- what a sweep removes, exactly

  /** The directory without the listed files, the current one kept. */
  function Removing(dir: Directory, fs: seq<LogFile>, current: Name): Directory {
    if fs == [] then dir
    else
      var d := Removing(dir, fs[..|fs| - 1], current);
      if fs[|fs| - 1].name == current then d else Without(d, fs[|fs| - 1].name)
  }

  lemma {:induction false} RemovingMembers(dir: Directory, fs: seq<LogFile>, current: Name)
    requires DistinctNames(dir)
    ensures DistinctNames(Removing(dir, fs, current))
    ensures forall g :: g in Removing(dir, fs, current) <==> g in dir && (g.name == current || Unnamed(fs, g.name))
  {
    if fs != [] {
      var front, last := fs[..|fs| - 1], fs[|fs| - 1];
      RemovingMembers(dir, front, current);
      assert fs == front + [last];
      assert forall x :: x in fs <==> x in front || x == last;
      var d := Removing(dir, front, current);
      WithoutMembers(d, last.name);
      WithoutDistinct(d, last.name);
    }
  }

  lemma {:induction false} DistinctSplit(fs: seq<LogFile>, n: nat)
    requires DistinctNames(fs) && n < |fs|
    ensures Unnamed(fs[..n], fs[n].name)
  {
    if n > 0 {
      DistinctSplit(fs[1..], n - 1);
      assert fs[..n] == [fs[0]] + fs[1..][..n - 1];
      assert fs[1..][n - 1] == fs[n];
    }
  }

  /** No shorter run of removals than `k` would do. */
  ghost predicate ShortOf(dir: Directory, fs: seq<LogFile>, limit: int, current: Name, k: nat)
    requires k <= |fs|
  {
    forall j :: 0 <= j < k ==> TotalBytes(Removing(dir, fs[..j], current)) > limit
  }

  ghost predicate AllAmong(removed: set<Name>, fs: seq<LogFile>) { forall m :: m in removed ==> !Unnamed(fs, m) }

  /** A sweep in which no removal fails, after `n` files. */
  ghost predicate Swept(dir: Directory, fs: seq<LogFile>, limit: int, current: Name, p: Progress, n: nat, k: nat)
    requires k <= n <= |fs|
  {
    && !p.failed && p.dir == Removing(dir, fs[..k], current) && p.total == TotalBytes(p.dir)
    && (k == n || p.total <= limit)
    && ShortOf(dir, fs, limit, current, k)
    && AllAmong(p.removed, fs[..n])
  }

  function Begin(dir: Directory): Progress { Progress(dir, TotalBytes(dir), {}, false) }

  /** Removing one more file of the listing. */
  lemma RemovingStep(dir: Directory, fs: seq<LogFile>, current: Name, n: nat)
    requires n < |fs|
    ensures var d := Removing(dir, fs[..n], current);
      Removing(dir, fs[..n + 1], current) == if fs[n].name == current then d else Without(d, fs[n].name)
  {
    assert fs[..n + 1][..n] == fs[..n];
  }

  lemma LongerPrefix(fs: seq<LogFile>, n: nat)
    requires n < |fs|
    ensures fs[n] in fs[..n + 1] && forall m :: !Unnamed(fs[..n], m) ==> !Unnamed(fs[..n + 1], m)
  {
    assert fs[..n + 1] == fs[..n] + [fs[n]];
  }

  lemma ShortOfOneMore(dir: Directory, fs: seq<LogFile>, limit: int, current: Name, n: nat)
    requires n < |fs| && ShortOf(dir, fs, limit, current, n) && TotalBytes(Removing(dir, fs[..n], current)) > limit
    ensures ShortOf(dir, fs, limit, current, n + 1)
  {
  }

  /** What visiting a file not seen before does while the total does not fit. */
  lemma VisitRemoves(left: Directory, f: LogFile, p: Progress, limit: int, current: Name)
    requires !p.failed && p.dir == left && p.total == TotalBytes(left) && p.total > limit && f.name !in p.removed
    requires DistinctNames(left) && (f.name != current ==> f in left)
    ensures var q := Visit(f, p, limit, current, {});
      && !q.failed && q.dir == (if f.name == current then left else Without(left, f.name))
      && q.total == TotalBytes(q.dir) && q.removed <= p.removed + {f.name}
  {
    if f.name != current {
      WithoutTotal(left, f);
    }
  }

  lemma AmongOneMore(removed: set<Name>, more: set<Name>, fs: seq<LogFile>, n: nat)
    requires n < |fs| && AllAmong(removed, fs[..n]) && more <= removed + {fs[n].name}
    ensures AllAmong(more, fs[..n + 1])
  {
    LongerPrefix(fs, n);
  }

  /** The files not seen yet are still there. */
  lemma StillThere(dir: Directory, fs: seq<LogFile>, current: Name, n: nat)
    requires DistinctNames(dir) && n < |fs| && fs[n] in dir && Unnamed(fs[..n], fs[n].name)
    ensures DistinctNames(Removing(dir, fs[..n], current)) && fs[n] in Removing(dir, fs[..n], current)
  {
    RemovingMembers(dir, fs[..n], current);
  }

  lemma SweptStep(dir: Directory, fs: seq<LogFile>, limit: int, current: Name, p: Progress, n: nat)
    requires DistinctNames(dir) && n < |fs| && fs[n] in dir && Unnamed(fs[..n], fs[n].name)
    requires Swept(dir, fs, limit, current, p, n, n) && p.total > limit
    ensures Swept(dir, fs, limit, current, Visit(fs[n], p, limit, current, {}), n + 1, n + 1)
  {
    StillThere(dir, fs, current, n);
    VisitRemoves(Removing(dir, fs[..n], current), fs[n], p, limit, current);
    RemovingStep(dir, fs, current, n);
    ShortOfOneMore(dir, fs, limit, current, n);
    AmongOneMore(p.removed, Visit(fs[n], p, limit, current, {}).removed, fs, n);
  }

  lemma SweptSkip(dir: Directory, fs: seq<LogFile>, limit: int, current: Name, p: Progress, n: nat, k: nat)
    requires k <= n < |fs| && Swept(dir, fs, limit, current, p, n, k) && p.total <= limit
    ensures Swept(dir, fs, limit, current, p, n + 1, k)
  {
    AmongOneMore(p.removed, p.removed, fs, n);
  }

  lemma SweepOneMore(fs: seq<LogFile>, p: Progress, limit: int, current: Name, stuck: set<Name>, n: nat)
    requires n < |fs|
    ensures Sweep(fs[..n + 1], p, limit, current, stuck) == Visit(fs[n], Sweep(fs[..n], p, limit, current, stuck), limit, current, stuck)
  {
    assert fs[..n + 1][..n] == fs[..n];
  }

  lemma SweptOneMore(dir: Directory, fs: seq<LogFile>, limit: int, current: Name, p: Progress, n: nat, k: nat) returns (more: nat)
    requires DistinctNames(dir) && DistinctNames(fs) && n < |fs| && fs[n] in dir && k <= n
    requires Swept(dir, fs, limit, current, p, n, k)
    ensures more <= n + 1 && Swept(dir, fs, limit, current, Visit(fs[n], p, limit, current, {}), n + 1, more)
  {
    if p.total > limit {
      DistinctSplit(fs, n);
      SweptStep(dir, fs, limit, current, p, n);
      more := n + 1;
    } else {
      SweptSkip(dir, fs, limit, current, p, n, k);
      more := k;
    }
  }

  lemma {:induction false} SweptPrefix(dir: Directory, fs: seq<LogFile>, limit: int, current: Name, n: nat) returns (k: nat)
    requires DistinctNames(dir) && DistinctNames(fs) && (forall g :: g in fs ==> g in dir) && n <= |fs|
    ensures k <= n && Swept(dir, fs, limit, current, Sweep(fs[..n], Begin(dir), limit, current, {}), n, k)
  {
    if n == 0 {
      k := 0;
    } else {
      k := SweptPrefix(dir, fs, limit, current, n - 1);
      SweepOneMore(fs, Begin(dir), limit, current, {}, n - 1);
      k := SweptOneMore(dir, fs, limit, current, Sweep(fs[..n - 1], Begin(dir), limit, current, {}), n - 1, k);
    }
  }

  /** A sweep removes exactly the shortest oldest-first run of files, the current one
      excepted, after which the rest fits; all of them if it never does. */
  lemma SweepIsShortestPrefix(dir: Directory, limit: int, current: Name) returns (k: nat)
    requires DistinctNames(dir)
    ensures var fs, p := Listing(dir), Sweep(Listing(dir), Begin(dir), limit, current, {});
      && k <= |fs| && !p.failed
      && p.dir == Removing(dir, fs[..k], current)
      && p.total == TotalBytes(p.dir)
      && (k == |fs| || p.total <= limit)
      && (forall j :: 0 <= j < k ==> TotalBytes(Removing(dir, fs[..j], current)) > limit)
  {
    var fs := Listing(dir);
    ListingDistinct(dir);
    k := SweptPrefix(dir, fs, limit, current, |fs|);
    assert fs[..|fs|] == fs;
  }

  lemma OnlyCurrent(dir: Directory, current: Name, bound: nat)
    requires DistinctNames(dir) && forall g :: g in dir ==> g.name == current && |g.data| <= bound
    ensures TotalBytes(dir) <= bound
  {
    if |dir| > 1 {
      assert false;
    }
    if dir != [] {
      assert dir[0] in dir;
    }
  }

  /** When removals succeed and the current file fits on its own, the rest fits after
      the sweep. */
  lemma SweepFits(dir: Directory, limit: nat, current: Name)
    requires DistinctNames(dir) && forall g :: g in dir && g.name == current ==> |g.data| <= limit
    ensures var p := Sweep(Listing(dir), Begin(dir), limit, current, {}); p.total == TotalBytes(p.dir) <= limit && !p.failed
  {
    var fs := Listing(dir);
    var k := SweepIsShortestPrefix(dir, limit, current);
    if k == |fs| {
      assert fs[..k] == fs;
      RemovingMembers(dir, fs, current);
      ListingDistinct(dir);
      forall g | g in Removing(dir, fs, current) ensures g.name == current && |g.data| <= limit {
        assert g in fs;
      }
      OnlyCurrent(Removing(dir, fs, current), current, limit);
    }
  }

  // ------------------------------------------------- pruning with failures

  /** `left` is what removals of files other than the current one have made of `dir`. */
  ghost predicate Shrunk(left: Directory, dir: Directory, current: Name) {
    && DistinctNames(left)
    && (forall g :: g in left ==> g in dir)
    && (forall g :: g in dir && g.name == current ==> g in left)
    && TotalBytes(left) <= TotalBytes(dir)
  }

  lemma WithoutShrinks(left: Directory, dir: Directory, current: Name, f: LogFile)
    requires Shrunk(left, dir, current) && f.name != current
    ensures Shrunk(Without(left, f.name), dir, current)
  {
    WithoutMembers(left, f.name);
    WithoutDistinct(left, f.name);
    if g :| g in left && g.name == f.name {
      WithoutTotal(left, g);
    } else {
      WithoutAbsent(left, f.name);
    }
  }

  lemma ShrunkTrans(a: Directory, b: Directory, c: Directory, current: Name)
    requires Shrunk(a, b, current) && Shrunk(b, c, current)
    ensures Shrunk(a, c, current)
  {
  }

  /** The progress of a sweep after the files in `seen`: the running total is exact and
      nothing is missing that was not removed on purpose. */
  ghost predicate Tracked(dir: Directory, p: Progress, current: Name, seen: seq<LogFile>) {
    && Shrunk(p.dir, dir, current) && p.total == TotalBytes(p.dir)
    && (forall g :: g in dir && g.name !in p.removed ==> g in p.dir)
    && (forall m :: m in p.removed ==> !Unnamed(seen, m))
  }

  lemma VisitTracked(dir: Directory, p: Progress, f: LogFile, limit: int, current: Name, stuck: set<Name>, seen: seq<LogFile>)
    requires Tracked(dir, p, current, seen) && f in dir && Unnamed(seen, f.name)
    ensures Tracked(dir, Visit(f, p, limit, current, stuck), current, seen + [f])
  {
    assert forall g :: g in seen + [f] <==> g in seen || g == f;
    if f.name != current {
      WithoutShrinks(p.dir, dir, current, f);
      WithoutTotal(p.dir, f);
      WithoutMembers(p.dir, f.name);
    }
  }

  /** Whatever removals fail, a sweep keeps its running total exact and the current file. */
  lemma {:induction false} SweepTracked(dir: Directory, fs: seq<LogFile>, limit: int, current: Name, stuck: set<Name>, n: nat)
    requires DistinctNames(dir) && DistinctNames(fs) && (forall g :: g in fs ==> g in dir) && n <= |fs|
    ensures Tracked(dir, Sweep(fs[..n], Begin(dir), limit, current, stuck), current, fs[..n])
  {
    if n > 0 {
      SweepTracked(dir, fs, limit, current, stuck, n - 1);
      SweepOneMore(fs, Begin(dir), limit, current, stuck, n - 1);
      assert fs[..n] == fs[..n - 1] + [fs[n - 1]];
      DistinctSplit(fs, n - 1);
      VisitTracked(dir, Sweep(fs[..n - 1], Begin(dir), limit, current, stuck), fs[n - 1], limit, current, stuck, fs[..n - 1]);
    }
  }
}
