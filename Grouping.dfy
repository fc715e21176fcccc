/** The batching policy of the test planner, on plain sequences of file names:
    candidates are grouped by the first character of their name (`F` for
    flush output, `C` for compaction output), each group is cut into
    consecutive batches of exactly b files, and what is left at the end of a
    group (fewer than b files) is not planned. */
module Grouping {

  type FileName = string

  predicate Distinct<T(==)>(s: seq<T>)
  {
    forall i, j :: 0 <= i < j < |s| ==> s[i] != s[j]
  }

  /** Every name has a first character, so getFirstChar can take it. */
  predicate Named(files: seq<FileName>)
  {
    forall i :: 0 <= i < |files| ==> files[i] != []
  }

  /** The group key of a file is the first character of its name. */
  predicate HasKey(f: FileName, c: char)
  {
    f != [] && f[0] == c
  }

  /** The files of the group with key c, in input order. */
  function Group(files: seq<FileName>, c: char): (g: seq<FileName>)
    ensures forall f :: f in g <==> f in files && HasKey(f, c)
    ensures |g| <= |files|
  {
    if files == [] then []
    else
      var last := files[|files| - 1];
      assert files == files[..|files| - 1] + [last];
      Group(files[..|files| - 1], c) + (if HasKey(last, c) then [last] else [])
  }

  /** The group keys that occur, each once, in order of first appearance. */
  function Keys(files: seq<FileName>): (ks: seq<char>)
    requires Named(files)
    ensures Distinct(ks)
    ensures forall c :: c in ks <==> exists f :: f in files && HasKey(f, c)
  {
    if files == [] then []
    else
      var init := files[..|files| - 1];
      var last := files[|files| - 1];
      assert files == init + [last];
      var ks := Keys(init);
      var r := if last[0] in ks then ks else ks + [last[0]];
      assert HasKey(last, last[0]);
      forall c ensures c in r <==> exists f :: f in files && HasKey(f, c) {
        if c in ks {
          var f :| f in init && HasKey(f, c);
          assert f in files;
        }
        if exists f :: f in files && HasKey(f, c) {
          var f :| f in files && HasKey(f, c);
          if f != last { assert f in init; }
        }
      }
      r
  }

  function Flatten<T>(ss: seq<seq<T>>): seq<T>
  {
    if ss == [] then [] else ss[0] + Flatten(ss[1..])
  }

  /** Consecutive batches of exactly b files from the front of g. */
  function Slices(g: seq<FileName>, b: nat): seq<seq<FileName>>
    requires b > 0
    decreases |g|
  {
    if |g| < b then [] else [g[..b]] + Slices(g[b..], b)
  }

  /** The files of g that are in no batch: fewer than b, at its end. */
  function Tail(g: seq<FileName>, b: nat): seq<FileName>
    requires b > 0
    decreases |g|
  {
    if |g| < b then g else Tail(g[b..], b)
  }

  /** The batches of the groups keyed ks, group after group. */
  function BatchAll(files: seq<FileName>, ks: seq<char>, b: nat): seq<seq<FileName>>
    requires b > 0
  {
    if ks == [] then []
    else BatchAll(files, ks[..|ks| - 1], b) + Slices(Group(files, ks[|ks| - 1]), b)
  }

  /** The left-over files of the groups keyed ks, group after group. */
  function TailAll(files: seq<FileName>, ks: seq<char>, b: nat): seq<FileName>
    requires b > 0
  {
    if ks == [] then []
    else TailAll(files, ks[..|ks| - 1], b) + Tail(Group(files, ks[|ks| - 1]), b)
  }

  /** The file lists of the jobs of one planning round over a processed kind. */
  function Batches(files: seq<FileName>, b: nat): seq<seq<FileName>>
    requires Named(files) && b > 0
  {
    BatchAll(files, Keys(files), b)
  }

  /** The candidates one planning round leaves unplanned. */
  function Unplanned(files: seq<FileName>, b: nat): seq<FileName>
    requires Named(files) && b > 0
  {
    TailAll(files, Keys(files), b)
  }

  predicate PairwiseDisjoint(jobs: seq<seq<FileName>>)
  {
    forall j, k, f :: 0 <= j < k < |jobs| && f in jobs[j] ==> f !in jobs[k]
  }

  // ---------------------------------------------------------------------
  // Arithmetic of batch counts

  /** Taking one batch of b off n files leaves one batch fewer and the same remainder. */
  lemma DivModStep(n: int, b: int)
    requires b > 0 && n >= b
    ensures (n - b) / b == n / b - 1
    ensures (n - b) % b == n % b
  {
    var q, r := (n - b) / b, (n - b) % b;
    assert n == (q + 1) * b + r;
    DivModUnique(n, b, q + 1, r);
  }

  lemma DivModUnique(n: int, b: int, q: int, r: int)
    requires b > 0 && 0 <= r < b && n == q * b + r
    ensures n / b == q && n % b == r
  {
    var q', r' := n / b, n % b;
    assert (q' - q) * b == r - r';
    if q' - q >= 1 {
      MulAtLeast(q' - q, b);
    } else if q - q' >= 1 {
      MulAtLeast(q - q', b);
    }
  }

  lemma MulAtLeast(d: int, b: int)
    requires d >= 1 && b > 0
    ensures d * b >= b
  {
    assert d * b == (d - 1) * b + b;
  }

  // ---------------------------------------------------------------------
  // One group: consecutive slices and the tail

  lemma {:induction false} SlicesShape(g: seq<FileName>, b: nat)
    requires b > 0
    ensures |Slices(g, b)| == |g| / b
    ensures |Tail(g, b)| == |g| % b
    ensures forall j :: 0 <= j < |Slices(g, b)| ==> |Slices(g, b)[j]| == b
    ensures Flatten(Slices(g, b)) + Tail(g, b) == g
    decreases |g|
  {
    if |g| >= b {
      SlicesShape(g[b..], b);
      DivModStep(|g|, b);
      assert Flatten(Slices(g, b)) == g[..b] + Flatten(Slices(g[b..], b));
      assert g == g[..b] + g[b..];
    }
  }

  /** The left-over files of a group are its last |g| % b files. */
  lemma TailIsSuffix(g: seq<FileName>, b: nat)
    requires b > 0
    ensures Tail(g, b) == g[|g| - |g| % b..]
  {
    SlicesShape(g, b);
  }

  lemma {:induction false} SliceMembers(g: seq<FileName>, b: nat)
    requires b > 0
    ensures forall j, f :: 0 <= j < |Slices(g, b)| && f in Slices(g, b)[j] ==> f in g
    decreases |g|
  {
    if |g| >= b {
      SliceMembers(g[b..], b);
      forall j, f | 0 <= j < |Slices(g, b)| && f in Slices(g, b)[j]
        ensures f in g
      {
        if j > 0 {
          assert Slices(g, b)[j] == Slices(g[b..], b)[j - 1];
          assert f in g[b..];
        }
      }
    }
  }

  lemma {:induction false} SlicesDisjoint(g: seq<FileName>, b: nat)
    requires b > 0 && Distinct(g)
    ensures PairwiseDisjoint(Slices(g, b))
    ensures forall j :: 0 <= j < |Slices(g, b)| ==> Distinct(Slices(g, b)[j])
    decreases |g|
  {
    if |g| >= b {
      var rest := g[b..];
      assert Distinct(rest);
      SlicesDisjoint(rest, b);
      SliceMembers(rest, b);
      var s := Slices(g, b);
      forall j, k, f | 0 <= j < k < |s| && f in s[j]
        ensures f !in s[k]
      {
        assert s[k] == Slices(rest, b)[k - 1];
        if j > 0 {
          assert s[j] == Slices(rest, b)[j - 1];
        } else {
          DistinctHalves(g, b, f);
        }
      }
    }
  }

  /** A file of a distinct sequence before position b does not recur after it. */
  lemma DistinctHalves(g: seq<FileName>, b: nat, f: FileName)
    requires Distinct(g) && b <= |g| && f in g[..b]
    ensures f !in g[b..]
  {
    var x :| 0 <= x < b && g[x] == f;
    if y :| 0 <= y < |g| - b && g[b..][y] == f {
      assert g[b + y] == g[x];
    }
  }

  // ---------------------------------------------------------------------
  // Several groups

  /** The batches of the first m groups come first. */
  lemma {:induction false} BatchAllPrefix(files: seq<FileName>, ks: seq<char>, m: nat, b: nat)
    requires b > 0 && m <= |ks|
    ensures BatchAll(files, ks[..m], b) <= BatchAll(files, ks, b)
  {
    if m < |ks| {
      BatchAllPrefix(files, ks[..|ks| - 1], m, b);
      assert ks[..|ks| - 1][..m] == ks[..m];
    } else {
      assert ks[..m] == ks;
    }
  }

  lemma FlattenConcat<T>(a: seq<seq<T>>, b: seq<seq<T>>)
    ensures Flatten(a + b) == Flatten(a) + Flatten(b)
  {
    if a != [] {
      assert (a + b)[0] == a[0] && (a + b)[1..] == a[1..] + b;
      FlattenConcat(a[1..], b);
      assert Flatten(a + b) == a[0] + Flatten(a[1..] + b);
    } else {
      assert a + b == b;
    }
  }

  lemma FlattenMember<T>(ss: seq<seq<T>>, j: int, x: T)
    requires 0 <= j < |ss| && x in ss[j]
    ensures x in Flatten(ss)
  {
    if j > 0 {
      FlattenMember(ss[1..], j - 1, x);
    }
  }

  /** Every job of a round is b files of one group, all drawn from the candidates. */
  lemma {:induction false} BatchAllShape(files: seq<FileName>, ks: seq<char>, b: nat)
    requires b > 0
    ensures forall j :: 0 <= j < |BatchAll(files, ks, b)| ==>
      var job := BatchAll(files, ks, b)[j];
      |job| == b && job[0] != [] && job[0][0] in ks &&
      forall f :: f in job ==> f in files && HasKey(f, job[0][0])
  {
    if ks != [] {
      var init, k := ks[..|ks| - 1], ks[|ks| - 1];
      BatchAllShape(files, init, b);
      var g := Group(files, k);
      SlicesShape(g, b);
      SliceMembers(g, b);
      var left, right := BatchAll(files, init, b), Slices(g, b);
      forall j | 0 <= j < |left| + |right|
        ensures var job := (left + right)[j];
          |job| == b && job[0] != [] && job[0][0] in ks &&
          forall f :: f in job ==> f in files && HasKey(f, job[0][0])
      {
        if j >= |left| {
          var i := j - |left|;
          var job := right[i];
          assert (left + right)[j] == job;
          assert job[0] in job;
          assert job[0] in g;
          forall f | f in job ensures f in files && HasKey(f, k) {
            assert f in g;
          }
        } else {
          assert (left + right)[j] == left[j];
          assert left[j][0][0] in init;
        }
      }
    }
  }

  lemma {:induction false} BatchAllDisjoint(files: seq<FileName>, ks: seq<char>, b: nat)
    requires b > 0 && Distinct(files) && Distinct(ks)
    ensures PairwiseDisjoint(BatchAll(files, ks, b))
  {
    if ks != [] {
      var init, k := ks[..|ks| - 1], ks[|ks| - 1];
      BatchAllDisjoint(files, init, b);
      BatchAllShape(files, init, b);
      var g := Group(files, k);
      assert Distinct(g) by { GroupDistinct(files, k); }
      SlicesDisjoint(g, b);
      SliceMembers(g, b);
      var left, right := BatchAll(files, init, b), Slices(g, b);
      var all := left + right;
      forall j, m, f | 0 <= j < m < |all| && f in all[j]
        ensures f !in all[m]
      {
        if j < |left| && m >= |left| {
          var job := left[j];
          assert HasKey(f, job[0][0]) && job[0][0] in init;
        } else if j >= |left| {
          assert all[j] == right[j - |left|] && all[m] == right[m - |left|];
        } else {
          assert all[j] == left[j] && all[m] == left[m];
        }
      }
    }
  }

  lemma {:induction false} GroupDistinct(files: seq<FileName>, c: char)
    requires Distinct(files)
    ensures Distinct(Group(files, c))
  {
    if files != [] {
      var init, last := files[..|files| - 1], files[|files| - 1];
      GroupDistinct(init, c);
      assert last !in init;
    }
  }

  // ---------------------------------------------------------------------
  // Every candidate is planned or left over, once

  /** The multiset union of the groups keyed ks. */
  function GroupsUnion(files: seq<FileName>, ks: seq<char>): multiset<FileName>
  {
    if ks == [] then multiset{}
    else GroupsUnion(files, ks[..|ks| - 1]) + multiset(Group(files, ks[|ks| - 1]))
  }

  lemma {:induction false} GroupsUnionSnoc(init: seq<FileName>, f: FileName, ks: seq<char>)
    requires Distinct(ks) && f != []
    ensures GroupsUnion(init + [f], ks) ==
      GroupsUnion(init, ks) + (if f[0] in ks then multiset{f} else multiset{})
  {
    var files := init + [f];
    assert files[..|files| - 1] == init;
    if ks != [] {
      var ks', k := ks[..|ks| - 1], ks[|ks| - 1];
      GroupsUnionSnoc(init, f, ks');
      assert k !in ks';
    }
  }

  lemma KeysSnoc(init: seq<FileName>, f: FileName)
    requires Named(init) && f != []
    ensures Named(init + [f])
    ensures Keys(init + [f]) == if f[0] in Keys(init) then Keys(init) else Keys(init) + [f[0]]
  {
    var files := init + [f];
    assert files[..|files| - 1] == init;
  }

  lemma GroupSnoc(init: seq<FileName>, f: FileName, c: char)
    ensures Group(init + [f], c) == Group(init, c) + (if HasKey(f, c) then [f] else [])
  {
    var files := init + [f];
    assert files[..|files| - 1] == init;
  }

  /** A key no file carries has an empty group. */
  lemma GroupWithoutKey(files: seq<FileName>, c: char)
    requires forall f :: f in files ==> !HasKey(f, c)
    ensures Group(files, c) == []
  {
    if Group(files, c) != [] {
      assert Group(files, c)[0] in Group(files, c);
    }
  }

  /** The groups partition the candidates. */
  lemma {:induction false} GroupsPartition(files: seq<FileName>)
    requires Named(files)
    ensures GroupsUnion(files, Keys(files)) == multiset(files)
  {
    if files != [] {
      var init, f := files[..|files| - 1], files[|files| - 1];
      assert files == init + [f];
      GroupsPartition(init);
      var ks := Keys(init);
      KeysSnoc(init, f);
      GroupsUnionSnoc(init, f, ks);
      if f[0] !in ks {
        var ks' := ks + [f[0]];
        assert ks'[..|ks'| - 1] == ks;
        GroupWithoutKey(init, f[0]);
        GroupSnoc(init, f, f[0]);
        assert GroupsUnion(files, ks') == GroupsUnion(files, ks) + multiset{f};
      }
    }
  }

  lemma {:induction false} BatchesAndTails(files: seq<FileName>, ks: seq<char>, b: nat)
    requires b > 0
    ensures multiset(Flatten(BatchAll(files, ks, b))) + multiset(TailAll(files, ks, b)) == GroupsUnion(files, ks)
  {
    if ks != [] {
      var init, k := ks[..|ks| - 1], ks[|ks| - 1];
      BatchesAndTails(files, init, b);
      var g := Group(files, k);
      SlicesShape(g, b);
      FlattenConcat(BatchAll(files, init, b), Slices(g, b));
      assert multiset(g) == multiset(Flatten(Slices(g, b))) + multiset(Tail(g, b)) by {
        assert Flatten(Slices(g, b)) + Tail(g, b) == g;
      }
    }
  }

  /** One planning round splits the candidates, as a multiset, into the files
      of its jobs and the files it leaves unplanned. */
  lemma PlannedPlusUnplanned(files: seq<FileName>, b: nat)
    requires Named(files) && b > 0
    ensures multiset(Flatten(Batches(files, b))) + multiset(Unplanned(files, b)) == multiset(files)
  {
    BatchesAndTails(files, Keys(files), b);
    GroupsPartition(files);
  }

  lemma MulSucc(i: nat, b: nat)
    ensures (i + 1) * b == i * b + b
    ensures i * b >= 0
  {
  }

  /** Batch i of a group is the files at positions i*b up to (i+1)*b of that group. */
  lemma {:induction false} SliceAt(g: seq<FileName>, b: nat, i: nat)
    requires b > 0 && i < |g| / b
    ensures (i + 1) * b <= |g|
    ensures |Slices(g, b)| == |g| / b && Slices(g, b)[i] == g[i * b..(i + 1) * b]
    decreases i
  {
    SlicesShape(g, b);
    DivModStep(|g|, b);
    MulSucc(i, b);
    if i > 0 {
      SliceAt(g[b..], b, i - 1);
      MulSucc(i - 1, b);
    }
  }

  // ---------------------------------------------------------------------
  // Jobs per group

  /** The number of jobs whose files belong to group c. */
  function JobsWithKey(jobs: seq<seq<FileName>>, c: char): nat
  {
    if jobs == [] then 0
    else
      var last := jobs[|jobs| - 1];
      JobsWithKey(jobs[..|jobs| - 1], c) + (if last != [] && HasKey(last[0], c) then 1 else 0)
  }

  lemma {:induction false} JobsWithKeyConcat(a: seq<seq<FileName>>, b: seq<seq<FileName>>, c: char)
    ensures JobsWithKey(a + b, c) == JobsWithKey(a, c) + JobsWithKey(b, c)
    decreases |b|
  {
    if b == [] {
      assert a + b == a;
    } else {
      var b', last := b[..|b| - 1], b[|b| - 1];
      assert (a + b)[..|a + b| - 1] == a + b';
      JobsWithKeyConcat(a, b', c);
    }
  }

  /** When all jobs hold files of group k, c counts all of them or none. */
  lemma {:induction false} JobsWithOneKey(jobs: seq<seq<FileName>>, k: char, c: char)
    requires forall j :: 0 <= j < |jobs| ==> jobs[j] != [] && HasKey(jobs[j][0], k)
    ensures JobsWithKey(jobs, c) == if k == c then |jobs| else 0
  {
    if jobs != [] {
      JobsWithOneKey(jobs[..|jobs| - 1], k, c);
    }
  }

  lemma {:induction false} JobsWithKeyAll(files: seq<FileName>, ks: seq<char>, b: nat, c: char)
    requires b > 0 && Distinct(ks)
    ensures JobsWithKey(BatchAll(files, ks, b), c) == if c in ks then |Group(files, c)| / b else 0
  {
    if ks != [] {
      var init, k := ks[..|ks| - 1], ks[|ks| - 1];
      JobsWithKeyAll(files, init, b, c);
      var g := Group(files, k);
      SlicesShape(g, b);
      SliceMembers(g, b);
      var right := Slices(g, b);
      forall j | 0 <= j < |right| ensures right[j] != [] && HasKey(right[j][0], k) {
        assert right[j][0] in right[j];
      }
      JobsWithOneKey(right, k, c);
      JobsWithKeyConcat(BatchAll(files, init, b), right, c);
    }
  }

  /** Group c of n files contributes n / b jobs to a round. */
  lemma JobsPerGroup(files: seq<FileName>, b: nat, c: char)
    requires Named(files) && b > 0
    ensures JobsWithKey(Batches(files, b), c) == |Group(files, c)| / b
  {
    JobsWithKeyAll(files, Keys(files), b, c);
    if c !in Keys(files) {
      GroupWithoutKey(files, c);
    }
  }

  // ---------------------------------------------------------------------
  // What is left over

  lemma {:induction false} TailInTailAll(files: seq<FileName>, ks: seq<char>, b: nat, c: char, f: FileName)
    requires b > 0 && c in ks && f in Tail(Group(files, c), b)
    ensures f in TailAll(files, ks, b)
  {
    var init, k := ks[..|ks| - 1], ks[|ks| - 1];
    if k != c {
      TailInTailAll(files, init, b, c, f);
    }
  }

  lemma {:induction false} DistinctOnce(s: seq<FileName>, f: FileName)
    requires Distinct(s)
    ensures multiset(s)[f] <= 1
  {
    if s != [] {
      var init, last := s[..|s| - 1], s[|s| - 1];
      assert s == init + [last];
      DistinctOnce(init, f);
      if f == last {
        assert f !in init;
      }
    }
  }

  /** A sequence in which no file occurs twice is distinct. */
  lemma OnceIsDistinct(s: seq<FileName>)
    requires forall f :: multiset(s)[f] <= 1
    ensures Distinct(s)
  {
    forall i, j | 0 <= i < j < |s| ensures s[i] != s[j] {
      assert s == s[..j] + s[j..];
      assert s[..j][i] == s[i] && s[j..][0] == s[j];
      assert multiset(s)[s[i]] == multiset(s[..j])[s[i]] + multiset(s[j..])[s[i]];
    }
  }

  lemma FlattenHas<T>(ss: seq<seq<T>>, x: T)
    requires x in Flatten(ss)
    ensures exists j :: 0 <= j < |ss| && x in ss[j]
  {
    if x !in ss[0] {
      FlattenHas(ss[1..], x);
      var j :| 0 <= j < |ss[1..]| && x in ss[1..][j];
      assert x in ss[j + 1];
    }
  }

  /** Over distinct candidates, a file is in a job of the round exactly when it
      is not left over, and the left-over files of group c are its last
      |Group(files, c)| % b files. */
  lemma PlannedOrLeftOver(files: seq<FileName>, b: nat)
    requires Named(files) && Distinct(files) && b > 0
    ensures forall f :: f in files ==>
      ((exists j :: 0 <= j < |Batches(files, b)| && f in Batches(files, b)[j]) <==> f !in Unplanned(files, b))
    ensures forall c, f, j :: f in Tail(Group(files, c), b) && 0 <= j < |Batches(files, b)| ==> f !in Batches(files, b)[j]
  {
    var jobs, rest := Batches(files, b), Unplanned(files, b);
    PlannedPlusUnplanned(files, b);
    forall f | f in files
      ensures (exists j :: 0 <= j < |jobs| && f in jobs[j]) <==> f !in rest
    {
      DistinctOnce(files, f);
      if f in rest {
        assert multiset(Flatten(jobs))[f] == 0;
        forall j | 0 <= j < |jobs| ensures f !in jobs[j] {
          if f in jobs[j] { FlattenMember(jobs, j, f); }
        }
      } else {
        assert f in Flatten(jobs);
        FlattenHas(jobs, f);
      }
    }
    forall c, f, j | f in Tail(Group(files, c), b) && 0 <= j < |jobs|
      ensures f !in jobs[j]
    {
      SlicesShape(Group(files, c), b);
      assert f in Group(files, c) by {
        assert f in Flatten(Slices(Group(files, c), b)) + Tail(Group(files, c), b);
      }
      TailInTailAll(files, Keys(files), b, c, f);
    }
  }

  /** Over distinct candidates, the jobs of a round are b files each, all of
      one group, drawn from the candidates, and no two share a file. */
  lemma RoundShape(files: seq<FileName>, b: nat)
    requires Named(files) && Distinct(files) && b > 0
    ensures PairwiseDisjoint(Batches(files, b))
    ensures forall j :: 0 <= j < |Batches(files, b)| ==>
      var job := Batches(files, b)[j];
      |job| == b && job[0] != [] &&
      forall f :: f in job ==> f in files && HasKey(f, job[0][0])
  {
    BatchAllShape(files, Keys(files), b);
    BatchAllDisjoint(files, Keys(files), b);
  }

  // ---------------------------------------------------------------------
  // Groups of the unplanned files

  lemma {:induction false} GroupConcat(a: seq<FileName>, b: seq<FileName>, c: char)
    ensures Group(a + b, c) == Group(a, c) + Group(b, c)
    decreases |b|
  {
    if b == [] {
      assert a + b == a;
    } else {
      var b', last := b[..|b| - 1], b[|b| - 1];
      var extra := if HasKey(last, c) then [last] else [];
      assert a + b == (a + b') + [last];
      assert b == b' + [last];
      GroupSnoc(a + b', last, c);
      GroupSnoc(b', last, c);
      GroupConcat(a, b', c);
      assert (Group(a, c) + Group(b', c)) + extra == Group(a, c) + (Group(b', c) + extra);
    }
  }

  lemma {:induction false} GroupOfOneKey(s: seq<FileName>, c: char)
    requires forall f :: f in s ==> HasKey(f, c)
    ensures Group(s, c) == s
  {
    if s != [] {
      var init, last := s[..|s| - 1], s[|s| - 1];
      assert s == init + [last];
      GroupOfOneKey(init, c);
    }
  }

  lemma {:induction false} GroupOfTailAll(files: seq<FileName>, ks: seq<char>, b: nat, c: char)
    requires b > 0 && Distinct(ks)
    ensures Group(TailAll(files, ks, b), c) == if c in ks then Tail(Group(files, c), b) else []
  {
    if ks != [] {
      var init, k := ks[..|ks| - 1], ks[|ks| - 1];
      GroupOfTailAll(files, init, b, c);
      var g := Group(files, k);
      var t := Tail(g, b);
      SlicesShape(g, b);
      assert forall f :: f in t ==> f in g by {
        forall f | f in t ensures f in g {
          assert f in Flatten(Slices(g, b)) + t;
        }
      }
      GroupConcat(TailAll(files, init, b), t, c);
      if k == c {
        GroupOfOneKey(t, c);
      } else {
        GroupWithoutKey(t, c);
      }
    }
  }

  /** After a round, group c keeps only its |Group(files, c)| % b left-over files. */
  lemma UnplannedGroups(files: seq<FileName>, b: nat, c: char)
    requires Named(files) && b > 0
    ensures Group(Unplanned(files, b), c) == Tail(Group(files, c), b)
    ensures |Group(Unplanned(files, b), c)| == |Group(files, c)| % b
  {
    GroupOfTailAll(files, Keys(files), b, c);
    SlicesShape(Group(files, c), b);
    if c !in Keys(files) {
      GroupWithoutKey(files, c);
    }
  }
}
