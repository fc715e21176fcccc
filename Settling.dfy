/** What the integration tests expect of a tablet whose compactions the test
    planner plans: every job of a round is replaced by one new file whose
    name starts with `C`, and rounds repeat until a round plans no job.
    Counting the `F` (flush) and `C` (compaction) files is enough to follow
    the rounds, because the planner never mixes the two groups. */
module Settling {
  import opened Grouping

  /** Every file of the tablet is a flush file or a compaction output. */
  predicate FlushOrCompacted(files: seq<FileName>)
  {
    forall i :: 0 <= i < |files| ==> HasKey(files[i], 'F') || HasKey(files[i], 'C')
  }

  /** How many flush files and how many compaction outputs a tablet holds. */
  datatype Population = Population(flush: nat, compacted: nat)

  function Total(p: Population): nat
  {
    p.flush + p.compacted
  }

  function Census(files: seq<FileName>): Population
  {
    Population(|Group(files, 'F')|, |Group(files, 'C')|)
  }

  /** The files after one round: what the round left unplanned, and one new
      file per job. */
  function AfterRound(files: seq<FileName>, b: nat, outputs: seq<FileName>): seq<FileName>
    requires Named(files) && b > 0
  {
    Unplanned(files, b) + outputs
  }

  /** The counts after one round with batch size b: each group keeps its
      remainder, and every full batch of either group becomes one `C` file. */
  function Step(p: Population, b: nat): (q: Population)
    requires b > 0
    ensures q.flush < b && q.flush <= p.flush
    ensures Total(q) <= Total(p)
    ensures b >= 2 && (p.flush >= b || p.compacted >= b) ==> Total(q) < Total(p)
  {
    RemainderPlusQuotient(p.flush, b);
    RemainderPlusQuotient(p.compacted, b);
    Population(p.flush % b, p.compacted % b + p.flush / b + p.compacted / b)
  }

  /** n files in batches of b: the left-over files plus one file per batch
      are never more than n, and fewer once a batch forms and b >= 2. */
  lemma {:induction false} RemainderPlusQuotient(n: nat, b: nat)
    requires b > 0
    ensures n % b + n / b <= n
    ensures b >= 2 && n >= b ==> n % b + n / b < n
    decreases n
  {
    if n < b {
      DivModUnique(n, b, 0, n);
    } else {
      DivModStep(n, b);
      RemainderPlusQuotient(n - b, b);
    }
  }

  /** A round plans no job: both groups are smaller than a batch. */
  predicate Settled(p: Population, b: nat)
  {
    p.flush < b && p.compacted < b
  }

  /** The counts once rounds stop planning jobs. The flush files end as the
      remainder of the first round and there are fewer than b outputs. */
  function Settle(p: Population, b: nat): (r: Population)
    requires b >= 2
    ensures Settled(r, b)
    ensures r.flush == p.flush % b
    ensures Total(r) <= Total(p)
    ensures Settled(p, b) ==> r == p
    decreases Total(p)
  {
    if Settled(p, b) then p
    else
      var q := Step(p, b);
      DivModUnique(q.flush, b, 0, q.flush);
      Settle(q, b)
  }

  /** The counts after k rounds. */
  function Rounds(p: Population, b: nat, k: nat): Population
    requires b > 0
    decreases k
  {
    if k == 0 then p else Rounds(Step(p, b), b, k - 1)
  }

  /** Once settled, further rounds change nothing. */
  lemma SettledIsFixpoint(p: Population, b: nat)
    requires b > 0 && Settled(p, b)
    ensures Step(p, b) == p
  {
    DivModUnique(p.flush, b, 0, p.flush);
    DivModUnique(p.compacted, b, 0, p.compacted);
  }

  /** How many rounds it takes to settle. */
  function SettleRounds(p: Population, b: nat): nat
    requires b >= 2
    decreases Total(p)
  {
    if Settled(p, b) then 0 else 1 + SettleRounds(Step(p, b), b)
  }

  /** Settle is where the rounds arrive after SettleRounds of them. */
  lemma {:induction false} SettleByRounds(p: Population, b: nat)
    requires b >= 2
    ensures Rounds(p, b, SettleRounds(p, b)) == Settle(p, b)
    decreases Total(p)
  {
    if !Settled(p, b) {
      SettleByRounds(Step(p, b), b);
    }
  }

  /** Once settled, any number of further rounds changes nothing. */
  lemma {:induction false} RoundsStay(p: Population, b: nat, k: nat)
    requires b > 0 && Settled(p, b)
    ensures Rounds(p, b, k) == p
    decreases k
  {
    if k > 0 {
      SettledIsFixpoint(p, b);
      RoundsStay(p, b, k - 1);
    }
  }

  /** Rounds from p reach Settle(p, b) and stay there for good. */
  lemma SettleReached(p: Population, b: nat, k: nat)
    requires b >= 2 && k >= SettleRounds(p, b)
    ensures Rounds(p, b, k) == Settle(p, b)
  {
    SettleByRounds(p, b);
    RoundsAdd(p, b, SettleRounds(p, b), k - SettleRounds(p, b));
    RoundsStay(Settle(p, b), b, k - SettleRounds(p, b));
  }

  /** m rounds then n more are m + n rounds. */
  lemma {:induction false} RoundsAdd(p: Population, b: nat, m: nat, n: nat)
    requires b > 0
    ensures Rounds(Rounds(p, b, m), b, n) == Rounds(p, b, m + n)
    decreases m
  {
    if m > 0 {
      var q := Step(p, b);
      assert Rounds(p, b, m) == Rounds(q, b, m - 1);
      assert Rounds(p, b, m + n) == Rounds(q, b, m - 1 + n);
      RoundsAdd(q, b, m - 1, n);
    }
  }

  // ---------------------------------------------------------------------
  // Counting a round of the planner

  /** A round's jobs each start with a flush file or a compaction output,
      so they are counted once, by one of the two groups. */
  lemma {:induction false} JobsOfTwoKeys(jobs: seq<seq<FileName>>)
    requires forall j :: 0 <= j < |jobs| ==> jobs[j] != [] && (HasKey(jobs[j][0], 'F') || HasKey(jobs[j][0], 'C'))
    ensures |jobs| == JobsWithKey(jobs, 'F') + JobsWithKey(jobs, 'C')
  {
    if jobs != [] {
      JobsOfTwoKeys(jobs[..|jobs| - 1]);
    }
  }

  /** The number of jobs a round over a tablet of F and C files plans. */
  lemma JobCount(files: seq<FileName>, b: nat)
    requires Named(files) && FlushOrCompacted(files) && Distinct(files) && b > 0
    ensures |Batches(files, b)| == Census(files).flush / b + Census(files).compacted / b
  {
    var jobs := Batches(files, b);
    RoundShape(files, b);
    forall j | 0 <= j < |jobs| ensures jobs[j] != [] && (HasKey(jobs[j][0], 'F') || HasKey(jobs[j][0], 'C')) {
      assert jobs[j][0] in jobs[j];
      assert jobs[j][0] in files;
    }
    JobsOfTwoKeys(jobs);
    JobsPerGroup(files, b, 'F');
    JobsPerGroup(files, b, 'C');
  }

  /** A round plans no job exactly when the census is settled. */
  lemma NoJobsWhenSettled(files: seq<FileName>, b: nat)
    requires Named(files) && FlushOrCompacted(files) && Distinct(files) && b > 0
    ensures Batches(files, b) == [] <==> Settled(Census(files), b)
  {
    var p := Census(files);
    JobCount(files, b);
    var x, y := p.flush / b, p.compacted / b;
    assert |Batches(files, b)| == x + y;
    QuotientZero(p.flush, b);
    QuotientZero(p.compacted, b);
    assert Batches(files, b) == [] <==> x + y == 0;
  }

  lemma QuotientZero(n: nat, b: nat)
    requires b > 0
    ensures n / b >= 0
    ensures n / b == 0 <==> n < b
  {
    if n < b {
      DivModUnique(n, b, 0, n);
    } else {
      DivModStep(n, b);
    }
  }

  /** What a round leaves unplanned is still flush files and compaction outputs. */
  lemma UnplannedFlushOrCompacted(files: seq<FileName>, b: nat)
    requires Named(files) && FlushOrCompacted(files) && b > 0
    ensures Named(Unplanned(files, b)) && FlushOrCompacted(Unplanned(files, b))
  {
    var rest := Unplanned(files, b);
    PlannedPlusUnplanned(files, b);
    forall i | 0 <= i < |rest| ensures HasKey(rest[i], 'F') || HasKey(rest[i], 'C') {
      assert rest[i] in multiset(files);
      assert rest[i] in files;
    }
  }

  /** Replacing every job of a round by one `C` file moves the census one Step. */
  lemma RoundCensus(files: seq<FileName>, b: nat, outputs: seq<FileName>)
    requires Named(files) && FlushOrCompacted(files) && Distinct(files) && b > 0
    requires |outputs| == |Batches(files, b)|
    requires forall i :: 0 <= i < |outputs| ==> HasKey(outputs[i], 'C')
    ensures Named(AfterRound(files, b, outputs)) && FlushOrCompacted(AfterRound(files, b, outputs))
    ensures Census(AfterRound(files, b, outputs)) == Step(Census(files), b)
  {
    var rest := Unplanned(files, b);
    var after := rest + outputs;
    UnplannedFlushOrCompacted(files, b);
    assert Named(after) && FlushOrCompacted(after) by {
      forall i | 0 <= i < |after| ensures after[i] != [] && (HasKey(after[i], 'F') || HasKey(after[i], 'C')) {
        if i >= |rest| {
          assert after[i] == outputs[i - |rest|];
        }
      }
    }
    var p := Census(files);
    assert |Group(after, 'F')| == p.flush % b by {
      UnplannedGroups(files, b, 'F');
      GroupConcat(rest, outputs, 'F');
      GroupWithoutKey(outputs, 'F');
    }
    assert |Group(after, 'C')| == p.compacted % b + |outputs| by {
      UnplannedGroups(files, b, 'C');
      GroupConcat(rest, outputs, 'C');
      assert forall f :: f in outputs ==> HasKey(f, 'C');
      GroupOfOneKey(outputs, 'C');
    }
    JobCount(files, b);
  }

  /** What a round leaves unplanned is distinct files from the tablet. */
  lemma UnplannedDistinct(files: seq<FileName>, b: nat)
    requires Named(files) && Distinct(files) && b > 0
    ensures Distinct(Unplanned(files, b))
    ensures forall f :: f in Unplanned(files, b) ==> f in files
  {
    var rest := Unplanned(files, b);
    PlannedPlusUnplanned(files, b);
    assert multiset(rest) <= multiset(files);
    forall f ensures multiset(rest)[f] <= 1 {
      DistinctOnce(files, f);
    }
    OnceIsDistinct(rest);
    forall f | f in rest ensures f in files {
      assert f in multiset(rest);
    }
  }

  /** Distinct files followed by distinct new ones are distinct. */
  lemma AppendNew(rest: seq<FileName>, outputs: seq<FileName>, files: seq<FileName>)
    requires Distinct(rest) && Distinct(outputs)
    requires forall f :: f in rest ==> f in files
    requires forall o :: o in outputs ==> o !in files
    ensures Distinct(rest + outputs)
  {
    var after := rest + outputs;
    forall i, j | 0 <= i < j < |after| ensures after[i] != after[j] {
      if j >= |rest| {
        assert after[j] == outputs[j - |rest|] && after[j] in outputs;
        if i < |rest| {
          assert after[i] == rest[i] && rest[i] in rest;
        } else {
          assert after[i] == outputs[i - |rest|];
        }
      }
    }
  }

  /** A round keeps the tablet's files distinct when its outputs are new files. */
  lemma RoundKeepsDistinct(files: seq<FileName>, b: nat, outputs: seq<FileName>)
    requires Named(files) && Distinct(files) && b > 0
    requires Distinct(outputs) && forall o :: o in outputs ==> o !in files
    ensures Distinct(AfterRound(files, b, outputs))
  {
    UnplannedDistinct(files, b);
    AppendNew(Unplanned(files, b), outputs, files);
  }

  /** The outputs of successive rounds fit the files they replace: one new,
      distinct `C` file per job of the round. */
  ghost predicate FreshRounds(files: seq<FileName>, b: nat, outs: seq<seq<FileName>>)
    requires b > 0
    decreases |outs|
  {
    outs == [] ||
    (Named(files) && |outs[0]| == |Batches(files, b)| &&
     (forall o :: o in outs[0] ==> HasKey(o, 'C') && o !in files) && Distinct(outs[0]) &&
     FreshRounds(AfterRound(files, b, outs[0]), b, outs[1..]))
  }

  /** The files after one round per list of outputs. */
  function FileRounds(files: seq<FileName>, b: nat, outs: seq<seq<FileName>>): seq<FileName>
    requires b > 0 && FreshRounds(files, b, outs)
    decreases |outs|
  {
    if outs == [] then files else FileRounds(AfterRound(files, b, outs[0]), b, outs[1..])
  }

  /** k rounds over the files move their census k Steps. */
  lemma {:induction false} FileRoundsCensus(files: seq<FileName>, b: nat, outs: seq<seq<FileName>>)
    requires Named(files) && FlushOrCompacted(files) && Distinct(files) && b > 0
    requires FreshRounds(files, b, outs)
    ensures Census(FileRounds(files, b, outs)) == Rounds(Census(files), b, |outs|)
    decreases |outs|
  {
    if outs != [] {
      var out := outs[0];
      assert forall i :: 0 <= i < |out| ==> HasKey(out[i], 'C') by {
        forall i | 0 <= i < |out| ensures HasKey(out[i], 'C') {
          assert out[i] in out;
        }
      }
      var next := AfterRound(files, b, out);
      assert FreshRounds(next, b, outs[1..]);
      assert FileRounds(files, b, outs) == FileRounds(next, b, outs[1..]);
      assert Rounds(Census(files), b, |outs|) == Rounds(Step(Census(files), b), b, |outs[1..]|);
      RoundCensus(files, b, out);
      RoundKeepsDistinct(files, b, out);
      FileRoundsCensus(next, b, outs[1..]);
    }
  }

  /** Enough file-level rounds leave the tablet with the census Settle
      computes, so each count lemma below is where the planner's rounds end. */
  lemma FileRoundsSettle(files: seq<FileName>, b: nat, outs: seq<seq<FileName>>)
    requires Named(files) && FlushOrCompacted(files) && Distinct(files) && b >= 2
    requires FreshRounds(files, b, outs) && |outs| >= SettleRounds(Census(files), b)
    ensures Census(FileRounds(files, b, outs)) == Settle(Census(files), b)
  {
    FileRoundsCensus(files, b, outs);
    SettleReached(Census(files), b, |outs|);
  }

  // ---------------------------------------------------------------------
  // The file counts the tests wait for

  /** 15 flush files with batches of 5 (service cs1) settle at 3 files. */
  lemma FifteenByFive()
    ensures Step(Population(15, 0), 5) == Population(0, 3)
    ensures Settle(Population(15, 0), 5) == Population(0, 3)
  {
  }

  /** testDispatchSystem on cs1: 14 flush files leave 6 (4 flush, 2 outputs). */
  lemma DispatchSystemFirstService()
    ensures Settle(Population(14, 0), 5) == Population(4, 2)
  {
    assert Step(Population(14, 0), 5) == Population(4, 2);
  }

  /** testDispatchSystem on cs1: one more flush file brings the tablet to 3. */
  lemma DispatchSystemFirstServiceOneMore()
    ensures Settle(Population(4 + 1, 2), 5) == Population(0, 3)
  {
    assert Step(Population(5, 2), 5) == Population(0, 3);
  }

  /** testDispatchSystem on cs2: 13 flush files leave 7 (6 flush, 1 output). */
  lemma DispatchSystemSecondService()
    ensures Settle(Population(13, 0), 7) == Population(6, 1)
  {
    assert Step(Population(13, 0), 7) == Population(6, 1);
  }

  /** testDispatchSystem on cs2: one more flush file brings the tablet to 2. */
  lemma DispatchSystemSecondServiceOneMore()
    ensures Settle(Population(6 + 1, 1), 7) == Population(0, 2)
  {
    assert Step(Population(7, 1), 7) == Population(0, 2);
  }

  /** 14 flush files with batches of 7 settle at 2 files. */
  lemma FourteenBySeven()
    ensures Settle(Population(14, 0), 7) == Population(0, 2)
  {
    assert Step(Population(14, 0), 7) == Population(0, 2);
  }

  /** testAddCompactionService: 42 flush files with batches of 7 settle at 6. */
  lemma AddCompactionService()
    ensures Settle(Population(42, 0), 7) == Population(0, 6)
  {
    assert Step(Population(42, 0), 7) == Population(0, 6);
  }

  /** testReconfigureCompactionService: 22 flush files with batches of 11
      settle at 2; after switching to batches of 5, ten more flush files
      settle at 4. */
  lemma ReconfigureCompactionService()
    ensures Settle(Population(22, 0), 11) == Population(0, 2)
    ensures Settle(Population(10, 2), 5) == Population(0, 4)
  {
    assert Step(Population(22, 0), 11) == Population(0, 2);
    assert Step(Population(10, 2), 5) == Population(0, 4);
  }

  /** testDispatchUser: a user compaction of 6 files with batches of 3 (cs3)
      stops at 2 and one of 33 with batches of 11 (cs4) stops at 3; neither
      reaches a single file, so the test cancels them. */
  lemma DispatchUser()
    ensures Settle(Population(6, 0), 3) == Population(0, 2)
    ensures Settle(Population(33, 0), 11) == Population(0, 3)
  {
    assert Step(Population(6, 0), 3) == Population(0, 2);
    assert Step(Population(33, 0), 11) == Population(0, 3);
  }

  /** With batches of one file, every round plans a job per file, so a
      tablet with a file never settles. */
  lemma {:induction false} SingleFileBatchesNeverSettle(p: Population, k: nat)
    requires Total(p) >= 1
    ensures Total(Rounds(p, 1, k)) == Total(p)
    ensures !Settled(Rounds(p, 1, k), 1)
    decreases k
  {
    if k > 0 {
      var q := Step(p, 1);
      assert q == Population(0, p.compacted + p.flush);
      SingleFileBatchesNeverSettle(q, k - 1);
    }
  }
}
