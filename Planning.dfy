/** The test compaction planner: `init` reads three options and declares its
    executors; `makePlan` turns the candidates of a tablet into jobs, either
    one job of everything (the `compact_all` hint) or, for a processed kind,
    batches of `filesPerCompaction` files of one group each. */
module Planning {
  import opened JavaLang
  import opened Grouping

  /** The compaction kinds a plan can be asked for. */
  datatype CompactionKind = SYSTEM | USER

  /** An executor declared through the executor manager: its name and the
      number of jobs it may run at once. */
  datatype ExecutorId = ExecutorId(name: string, threads: nat)

  datatype Job = Job(priority: int, executor: ExecutorId, files: seq<FileName>)

  /** Why `init` stops: the Java exception it lets escape. */
  datatype ConfigError =
    | NotAnInt(option: string)   // Integer.parseInt of a missing or malformed value
    | MissingProcess             // no `process` option: split on null
    | NoSuchKind(name: string)   // CompactionKind.valueOf of an unknown name

  /** Why `makePlan` does not return a plan. */
  datatype PlanError =
    | NoExecutors     // Random.nextInt(0): no executor to pick a job's from
    | EmptyFileName   // substring(0, 1) of an empty file name
    | InvertedSlice   // subList(0, b) for a negative b
    | Unbounded       // b == 0: the loop adds empty jobs and never ends

  /** The planner's fields: batch size, declared executors, processed kinds. */
  datatype PlannerState = PlannerState(
    filesPerCompaction: int,
    executorIds: seq<ExecutorId>,
    kindsToProcess: set<CompactionKind>)

  /** Capacity of every executor the planner declares. */
  const ExecutorThreads: nat := 2

  /** Map.get: the value, or null when the key is absent. */
  function Get(options: map<string, string>, key: string): (v: Option<string>)
    ensures v.Some? <==> key in options
    ensures v.Some? ==> v.value == options[key]
  {
    if key in options then Some(options[key]) else None
  }

  /** CompactionKind.valueOf: the constant spelled exactly `name`. */
  function KindNamed(name: string): (k: Option<CompactionKind>)
    ensures k == Some(SYSTEM) <==> name == "SYSTEM"
    ensures k == Some(USER) <==> name == "USER"
  {
    if name == "SYSTEM" then Some(SYSTEM)
    else if name == "USER" then Some(USER)
    else None
  }

  /** The name of executor i: "e" followed by i in decimal. */
  function ExecutorName(i: nat): string
  {
    "e" + Decimal(i)
  }

  /** The executors e0 .. e(n-1) with capacity 2; none when n <= 0. */
  function DeclaredExecutors(n: int): (ids: seq<ExecutorId>)
    ensures |ids| == if n < 0 then 0 else n
  {
    if n <= 0 then [] else DeclaredExecutors(n - 1) + [ExecutorId(ExecutorName(n - 1), ExecutorThreads)]
  }

  /** The kinds after adding the upper-cased names one by one, and the error
      of the first name that is no kind; the names before it stay added. */
  function AddKinds(names: seq<string>, kinds: set<CompactionKind>): (set<CompactionKind>, Option<ConfigError>)
  {
    if names == [] then (kinds, None)
    else
      var (ks, err) := AddKinds(names[..|names| - 1], kinds);
      var name := names[|names| - 1];
      if err.Some? then (ks, err)
      else
        match KindNamed(ToUpperCase(name))
        case None => (ks, Some(NoSuchKind(name)))
        case Some(k) => (ks + {k}, None)
  }

  /** A name in the `process` list denotes a kind whatever its letter case. */
  lemma KindNamedIgnoringCase(name: string)
    ensures KindNamed(ToUpperCase(name)) == Some(SYSTEM) <==> EqualsIgnoreCase(name, "SYSTEM")
    ensures KindNamed(ToUpperCase(name)) == Some(USER) <==> EqualsIgnoreCase(name, "USER")
    ensures KindNamed(ToUpperCase(name)).None? <==> !EqualsIgnoreCase(name, "SYSTEM") && !EqualsIgnoreCase(name, "USER")
  {
    UpperCaseMatches(name, "SYSTEM");
    UpperCaseMatches(name, "USER");
  }

  /** Once a name fails, the names after it are not looked at. */
  lemma {:induction false} AddKindsStops(names: seq<string>, m: nat, kinds: set<CompactionKind>)
    requires m <= |names| && AddKinds(names[..m], kinds).1.Some?
    ensures AddKinds(names, kinds) == AddKinds(names[..m], kinds)
  {
    if m < |names| {
      assert names[..|names| - 1][..m] == names[..m];
      AddKindsStops(names[..|names| - 1], m, kinds);
    } else {
      assert names[..m] == names;
    }
  }

  /** The planner's fields after `init` with these options, and the error it
      throws, if any; a failed parse of either number changes nothing, later
      failures leave the fields as far as `init` got. */
  function Configure(options: map<string, string>, s: PlannerState): (PlannerState, Option<ConfigError>)
  {
    var executors := ParseInt(Get(options, "executors"));
    if executors.None? then (s, Some(NotAnInt("executors")))
    else
      var batch := ParseInt(Get(options, "filesPerCompaction"));
      if batch.None? then (s, Some(NotAnInt("filesPerCompaction")))
      else
        var process := Get(options, "process");
        if process.None? then (PlannerState(batch.value, [], s.kindsToProcess), Some(MissingProcess))
        else
          var (kinds, err) := AddKinds(Split(process.value, ','), s.kindsToProcess);
          if err.Some? then (PlannerState(batch.value, [], kinds), err)
          else (PlannerState(batch.value, DeclaredExecutors(executors.value), kinds), None)
  }

  /** getFirstChar: the one-character prefix of a file name; an empty name
      makes substring(0, 1) throw. */
  function FirstChar(f: FileName): (key: Result<string, PlanError>)
    ensures key.Ok? <==> f != []
    ensures key.Ok? ==> |key.value| == 1 && key.value <= f && HasKey(f, key.value[0])
    ensures key.Err? ==> key.error == EmptyFileName
  {
    if f == [] then Err(EmptyFileName) else Ok(f[..1])
  }

  /** Whether the `compact_all` hint parses as true; an absent hint reads "false". */
  function CompactAllRequested(hints: map<string, string>): bool
  {
    ParseBoolean(Some(if "compact_all" in hints then hints["compact_all"] else "false"))
  }

  /** The file lists of the jobs `makePlan` builds, in order, or the error it throws. */
  function PlannedFiles(kind: CompactionKind, candidates: seq<FileName>, hints: map<string, string>, s: PlannerState)
    : Result<seq<seq<FileName>>, PlanError>
  {
    if CompactAllRequested(hints) then
      if s.executorIds == [] then Err(NoExecutors) else Ok([candidates])
    else if kind !in s.kindsToProcess then Ok([])
    else GroupedFiles(candidates, s.filesPerCompaction, s.executorIds != [])
  }

  /** The jobs of a processed kind: the batches of every group, or the first
      error the grouping or the loops over the groups run into. */
  function GroupedFiles(candidates: seq<FileName>, b: int, hasExecutors: bool): Result<seq<seq<FileName>>, PlanError>
  {
    if !Named(candidates) then Err(EmptyFileName)
    else if b <= 0 then
      if candidates == [] then Ok([])
      else if !hasExecutors then Err(NoExecutors)
      else if b < 0 then Err(InvertedSlice)
      else Err(Unbounded)
    else
      var jobs := Batches(candidates, b);
      if jobs != [] && !hasExecutors then Err(NoExecutors) else Ok(jobs)
  }

  /** What the loop over one group adds: the group's batches, or the error
      of its first iteration when there is no executor to pick or the batch
      size is not positive. */
  function GroupOutcome(files: seq<FileName>, b: int, hasExecutors: bool): Result<seq<seq<FileName>>, PlanError>
  {
    if b <= 0 then
      if !hasExecutors then Err(NoExecutors) else if b < 0 then Err(InvertedSlice) else Err(Unbounded)
    else if |files| >= b && !hasExecutors then Err(NoExecutors)
    else Ok(Slices(files, b))
  }

  /** The loop over the groups keyed ks, in order: the error of the first
      group whose loop throws, or the batches of all of them. */
  function KeysOutcome(candidates: seq<FileName>, ks: seq<char>, b: int, hasExecutors: bool)
    : Result<seq<seq<FileName>>, PlanError>
  {
    if ks == [] then Ok([])
    else
      var prev := KeysOutcome(candidates, ks[..|ks| - 1], b, hasExecutors);
      if prev.Err? then prev
      else
        var more := GroupOutcome(Group(candidates, ks[|ks| - 1]), b, hasExecutors);
        if more.Err? then more else Ok(prev.value + more.value)
  }

  /** Once a group's loop throws, the later groups are not planned. */
  lemma {:induction false} KeysOutcomeStops(candidates: seq<FileName>, ks: seq<char>, m: nat, b: int, hasExecutors: bool)
    requires m <= |ks| && KeysOutcome(candidates, ks[..m], b, hasExecutors).Err?
    ensures KeysOutcome(candidates, ks, b, hasExecutors) == KeysOutcome(candidates, ks[..m], b, hasExecutors)
  {
    if m < |ks| {
      assert ks[..|ks| - 1][..m] == ks[..m];
      KeysOutcomeStops(candidates, ks[..|ks| - 1], m, b, hasExecutors);
    } else {
      assert ks[..m] == ks;
    }
  }

  /** With a positive batch size the loop over the groups yields their
      batches, unless there is a batch and no executor to give it to. */
  lemma {:induction false} KeysOutcomeBatches(candidates: seq<FileName>, ks: seq<char>, b: int, hasExecutors: bool)
    requires b > 0
    ensures KeysOutcome(candidates, ks, b, hasExecutors) ==
      if BatchAll(candidates, ks, b) != [] && !hasExecutors then Err(NoExecutors) else Ok(BatchAll(candidates, ks, b))
  {
    if ks != [] {
      KeysOutcomeBatches(candidates, ks[..|ks| - 1], b, hasExecutors);
      var g := Group(candidates, ks[|ks| - 1]);
      assert |g| >= b <==> Slices(g, b) != [];
    }
  }

  /** With a batch size of zero or below the loop of the first group throws. */
  lemma {:induction false} KeysOutcomeNoBatchSize(candidates: seq<FileName>, ks: seq<char>, b: int, hasExecutors: bool)
    requires b <= 0 && ks != []
    ensures KeysOutcome(candidates, ks, b, hasExecutors) ==
      Err(if !hasExecutors then NoExecutors else if b < 0 then InvertedSlice else Unbounded)
  {
    if |ks| > 1 {
      KeysOutcomeNoBatchSize(candidates, ks[..|ks| - 1], b, hasExecutors);
    }
  }

  /** The loop over the groups of the candidates has the outcome GroupedFiles states. */
  lemma GroupLoopOutcome(candidates: seq<FileName>, b: int, hasExecutors: bool)
    requires Named(candidates)
    ensures KeysOutcome(candidates, Keys(candidates), b, hasExecutors) == GroupedFiles(candidates, b, hasExecutors)
  {
    if b > 0 {
      KeysOutcomeBatches(candidates, Keys(candidates), b, hasExecutors);
    } else if candidates != [] {
      assert candidates[0] in candidates && HasKey(candidates[0], candidates[0][0]);
      KeysOutcomeNoBatchSize(candidates, Keys(candidates), b, hasExecutors);
    }
  }

  /** An error in the loop over one group is the error of the whole grouping. */
  lemma GroupErrorIsPlanError(candidates: seq<FileName>, b: int, hasExecutors: bool, k: nat)
    requires Named(candidates) && k < |Keys(candidates)|
    requires GroupOutcome(Group(candidates, Keys(candidates)[k]), b, hasExecutors).Err?
    ensures GroupedFiles(candidates, b, hasExecutors).Err?
    ensures GroupedFiles(candidates, b, hasExecutors).error == GroupOutcome(Group(candidates, Keys(candidates)[k]), b, hasExecutors).error
  {
    var keys := Keys(candidates);
    GroupLoopOutcome(candidates, b, hasExecutors);
    if b > 0 {
      FullGroupHasBatch(candidates, keys, k, b);
      KeysOutcomeBatches(candidates, keys, b, hasExecutors);
    } else {
      KeysOutcomeNoBatchSize(candidates, keys, b, hasExecutors);
    }
  }

  /** A group of at least b files gives the round a batch. */
  lemma FullGroupHasBatch(candidates: seq<FileName>, keys: seq<char>, k: nat, b: nat)
    requires b > 0 && k < |keys| && |Group(candidates, keys[k])| >= b
    ensures BatchAll(candidates, keys, b) != []
  {
    assert Slices(Group(candidates, keys[k]), b) != [];
    assert keys[..k + 1][..k] == keys[..k];
    assert BatchAll(candidates, keys[..k + 1], b) != [];
    BatchAllPrefix(candidates, keys, k + 1, b);
  }

  /** Without candidates there are no groups. */
  lemma NoKeysNoCandidates(candidates: seq<FileName>)
    requires Named(candidates) && Keys(candidates) == []
    ensures candidates == []
  {
  }

  /** The jobs carry the planned file lists in order, priority 1, and an executor from ids. */
  predicate Assigned(jobs: seq<Job>, planned: seq<seq<FileName>>, ids: seq<ExecutorId>)
  {
    |jobs| == |planned| &&
    forall j :: 0 <= j < |jobs| ==> jobs[j].files == planned[j] && jobs[j].priority == 1 && jobs[j].executor in ids
  }

  // ---------------------------------------------------------------------
  // What init promises

  /** Executor i is named "e" followed by i and runs two jobs at once. */
  lemma {:induction false} DeclaredExecutorAt(n: int, i: nat)
    requires i < n
    ensures DeclaredExecutors(n)[i] == ExecutorId(ExecutorName(i), ExecutorThreads)
    decreases n
  {
    if i < n - 1 {
      DeclaredExecutorAt(n - 1, i);
    }
  }

  /** No two declared executors share a name. */
  lemma ExecutorNamesDistinct(n: int)
    ensures forall i, j :: 0 <= i < j < |DeclaredExecutors(n)| ==>
      DeclaredExecutors(n)[i].name != DeclaredExecutors(n)[j].name
  {
    forall i, j | 0 <= i < j < |DeclaredExecutors(n)|
      ensures DeclaredExecutors(n)[i].name != DeclaredExecutors(n)[j].name
    {
      DeclaredExecutorAt(n, i);
      DeclaredExecutorAt(n, j);
      assert ExecutorName(i)[1..] == Decimal(i) && ExecutorName(j)[1..] == Decimal(j);
    }
  }

  /** Without an error, the kinds are the old ones plus the kind every name
      upper-cases to. */
  lemma {:induction false} AddKindsCollects(names: seq<string>, kinds: set<CompactionKind>)
    requires AddKinds(names, kinds).1.None?
    ensures forall i :: 0 <= i < |names| ==> KindNamed(ToUpperCase(names[i])).Some?
    ensures forall k :: k in AddKinds(names, kinds).0 <==>
      k in kinds || exists i :: 0 <= i < |names| && KindNamed(ToUpperCase(names[i])) == Some(k)
  {
    if names != [] {
      var init, name := names[..|names| - 1], names[|names| - 1];
      AddKindsCollects(init, kinds);
      forall k ensures k in AddKinds(names, kinds).0 <==>
        k in kinds || exists i :: 0 <= i < |names| && KindNamed(ToUpperCase(names[i])) == Some(k)
      {
        if exists i :: 0 <= i < |names| && KindNamed(ToUpperCase(names[i])) == Some(k) {
          var i :| 0 <= i < |names| && KindNamed(ToUpperCase(names[i])) == Some(k);
          if i < |init| {
            assert init[i] == names[i];
          }
        }
        if exists i :: 0 <= i < |init| && KindNamed(ToUpperCase(init[i])) == Some(k) {
          var i :| 0 <= i < |init| && KindNamed(ToUpperCase(init[i])) == Some(k);
          assert names[i] == init[i];
        }
      }
    }
  }

  /** The `process` names add without error exactly when every one of them
      upper-cases to a kind. */
  lemma {:induction false} AddKindsOk(names: seq<string>, kinds: set<CompactionKind>)
    ensures AddKinds(names, kinds).1.None? <==>
      forall i :: 0 <= i < |names| ==> KindNamed(ToUpperCase(names[i])).Some?
  {
    if AddKinds(names, kinds).1.None? {
      AddKindsCollects(names, kinds);
    } else if names != [] {
      var init := names[..|names| - 1];
      AddKindsOk(init, kinds);
      if AddKinds(init, kinds).1.None? {
        assert KindNamed(ToUpperCase(names[|names| - 1])).None?;
      } else {
        var i :| 0 <= i < |init| && KindNamed(ToUpperCase(init[i])).None?;
        assert names[i] == init[i];
      }
    }
  }

  /** The first name that is no kind is the one init throws on; the kinds of
      the names before it stay added. */
  lemma AddKindsFails(names: seq<string>, m: nat, kinds: set<CompactionKind>)
    requires m < |names| && KindNamed(ToUpperCase(names[m])).None?
    requires forall i :: 0 <= i < m ==> KindNamed(ToUpperCase(names[i])).Some?
    ensures AddKinds(names, kinds) == (AddKinds(names[..m], kinds).0, Some(NoSuchKind(names[m])))
  {
    AddKindsOk(names[..m], kinds);
    assert names[..m + 1][..m] == names[..m];
    AddKindsStops(names, m + 1, kinds);
  }

  /** init succeeds exactly when both numbers parse, the `process` option is
      present and every name of its list is a kind. */
  lemma ConfigureOk(options: map<string, string>, s: PlannerState)
    ensures Configure(options, s).1.None? <==>
      (ParseInt(Get(options, "executors")).Some? &&
       ParseInt(Get(options, "filesPerCompaction")).Some? &&
       "process" in options &&
       forall name :: name in Split(options["process"], ',') ==> KindNamed(ToUpperCase(name)).Some?)
  {
    if "process" in options {
      var names := Split(options["process"], ',');
      AddKindsOk(names, s.kindsToProcess);
      if forall i :: 0 <= i < |names| ==> KindNamed(ToUpperCase(names[i])).Some? {
        forall name | name in names ensures KindNamed(ToUpperCase(name)).Some? {
          var i :| 0 <= i < |names| && names[i] == name;
        }
      }
    }
  }

  /** Without a `process` option, split throws on null once both numbers have
      parsed; the batch size is set and no executor is declared. */
  lemma ConfigureMissingProcess(options: map<string, string>, s: PlannerState)
    requires ParseInt(Get(options, "executors")).Some? && ParseInt(Get(options, "filesPerCompaction")).Some?
    requires "process" !in options
    ensures Configure(options, s) ==
      (PlannerState(ParseInt(Get(options, "filesPerCompaction")).value, [], s.kindsToProcess), Some(MissingProcess))
  {
  }

  /** A name of the `process` list that is no kind makes init throw for the
      first such name, after the kinds named before it were added and
      before any executor is declared. */
  lemma ConfigureUnknownKind(options: map<string, string>, s: PlannerState, m: nat)
    requires ParseInt(Get(options, "executors")).Some? && ParseInt(Get(options, "filesPerCompaction")).Some?
    requires "process" in options
    requires var names := Split(options["process"], ',');
      m < |names| && KindNamed(ToUpperCase(names[m])).None? &&
      forall i :: 0 <= i < m ==> KindNamed(ToUpperCase(names[i])).Some?
    ensures var names := Split(options["process"], ',');
      Configure(options, s) ==
        (PlannerState(ParseInt(Get(options, "filesPerCompaction")).value, [], AddKinds(names[..m], s.kindsToProcess).0),
         Some(NoSuchKind(names[m])))
  {
    AddKindsFails(Split(options["process"], ','), m, s.kindsToProcess);
  }

  /** A successful init keeps the batch size it parsed, processes the kinds the
      `process` list names and declares the executors e0 .. e(n-1), each with
      capacity 2 and a name of its own, where n is the parsed executor count. */
  lemma InitDeclares(options: map<string, string>, s: PlannerState)
    requires Configure(options, s).1.None?
    ensures var s' := Configure(options, s).0;
      var n := ParseInt(Get(options, "executors"));
      var names := Split(options["process"], ',');
      n.Some? && ParseInt(Get(options, "filesPerCompaction")) == Some(s'.filesPerCompaction) &&
      |s'.executorIds| == (if n.value < 0 then 0 else n.value) &&
      (forall i :: 0 <= i < |s'.executorIds| ==> s'.executorIds[i] == ExecutorId("e" + Decimal(i), 2)) &&
      (forall i, j :: 0 <= i < j < |s'.executorIds| ==> s'.executorIds[i].name != s'.executorIds[j].name) &&
      (forall k :: k in s'.kindsToProcess <==>
        k in s.kindsToProcess || exists i :: 0 <= i < |names| && KindNamed(ToUpperCase(names[i])) == Some(k))
  {
    var n := ParseInt(Get(options, "executors")).value;
    AddKindsCollects(Split(options["process"], ','), s.kindsToProcess);
    ExecutorNamesDistinct(n);
    forall i | 0 <= i < |DeclaredExecutors(n)| ensures DeclaredExecutors(n)[i] == ExecutorId("e" + Decimal(i), 2) {
      DeclaredExecutorAt(n, i);
    }
  }

  /** A missing or malformed number stops init before it changes anything. */
  lemma InitRejectsBadNumbers(options: map<string, string>, s: PlannerState)
    requires ParseInt(Get(options, "executors")).None? || ParseInt(Get(options, "filesPerCompaction")).None?
    ensures Configure(options, s).0 == s
    ensures Configure(options, s).1 == Some(NotAnInt(
      if ParseInt(Get(options, "executors")).None? then "executors" else "filesPerCompaction"))
  {
  }

  lemma UpperCaseExamples()
    ensures ToUpperCase("system") == "SYSTEM" && ToUpperCase("User") == "USER"
    ensures ToUpperCase("SYSTEM") == "SYSTEM" && ToUpperCase("USER") == "USER" && ToUpperCase("MAJOR") == "MAJOR"
  {
    var u, v := ToUpperCase("system"), ToUpperCase("User");
    assert u[0] == 'S' && u[1] == 'Y' && u[2] == 'S' && u[3] == 'T' && u[4] == 'E' && u[5] == 'M';
    assert v[0] == 'U' && v[1] == 'S' && v[2] == 'E' && v[3] == 'R';
    UpperCaseKeeps("SYSTEM");
    UpperCaseKeeps("USER");
    UpperCaseKeeps("MAJOR");
  }

  lemma SplitExamples()
    ensures Split("SYSTEM", ',') == ["SYSTEM"]
    ensures Split("system,User,", ',') == ["system", "User"]
    ensures Split("USER,MAJOR", ',') == ["USER", "MAJOR"]
  {
    SplitTrailingExample();
    SplitPairExample();
  }

  lemma SplitTrailingExample()
    ensures Split("system,User,", ',') == ["system", "User"]
  {
    assert "system,User," == "system" + [','] + "User" + [','];
    SplitTrailing("system", ',', "User");
  }

  lemma SplitPairExample()
    ensures Split("USER,MAJOR", ',') == ["USER", "MAJOR"]
  {
    assert "USER,MAJOR" == "USER" + [','] + "MAJOR";
    SplitTwo("USER", ',', "MAJOR");
  }

  lemma ExecutorExamples()
    ensures DeclaredExecutors(3) == [ExecutorId("e0", 2), ExecutorId("e1", 2), ExecutorId("e2", 2)]
  {
    assert ExecutorName(0) == "e0" && ExecutorName(1) == "e1" && ExecutorName(2) == "e2";
    assert DeclaredExecutors(1) == [ExecutorId("e0", 2)];
    assert DeclaredExecutors(2) == [ExecutorId("e0", 2), ExecutorId("e1", 2)];
  }

  /** The numbers the tests configure parse as themselves. */
  lemma ConfiguredNumbersParse()
    ensures ParseInt(Some("1")) == Some(1) && ParseInt(Some("3")) == Some(3) && ParseInt(Some("5")) == Some(5)
  {
    assert DigitsValue("1") == 1 && DigitsValue("3") == 3 && DigitsValue("5") == 5;
  }

  /** "SYSTEM" alone processes the system kind. */
  lemma SystemListConfigured()
    ensures AddKinds(Split("SYSTEM", ','), {}) == ({SYSTEM}, None)
  {
    SplitExamples();
    UpperCaseExamples();
    assert ["SYSTEM"][..0] == [];
    assert AddKinds([], {}) == ({}, None);
    assert KindNamed(ToUpperCase("SYSTEM")) == Some(SYSTEM);
    assert {} + {SYSTEM} == {SYSTEM};
  }

  /** The service cs1 of the tests: three executors, batches of five, system compactions only. */
  lemma ServiceOneConfigured()
    ensures Configure(map["executors" := "3", "filesPerCompaction" := "5", "process" := "SYSTEM"],
                      PlannerState(0, [], {}))
      == (PlannerState(5, [ExecutorId("e0", 2), ExecutorId("e1", 2), ExecutorId("e2", 2)], {SYSTEM}), None)
  {
    var options := map["executors" := "3", "filesPerCompaction" := "5", "process" := "SYSTEM"];
    assert Get(options, "executors") == Some("3");
    assert Get(options, "filesPerCompaction") == Some("5");
    assert Get(options, "process") == Some("SYSTEM");
    ConfiguredNumbersParse();
    SystemListConfigured();
    ExecutorExamples();
  }

  /** A list of kinds is read case-insensitively, and a trailing comma adds no kind. */
  lemma KindListsConfigured(s: PlannerState)
    ensures AddKinds(Split("system,User,", ','), s.kindsToProcess) == (s.kindsToProcess + {SYSTEM, USER}, None)
  {
    SplitExamples();
    UpperCaseExamples();
    var names := ["system", "User"];
    assert names[..1] == ["system"] && names[..1][..0] == [];
    assert AddKinds([], s.kindsToProcess) == (s.kindsToProcess, None);
    assert KindNamed(ToUpperCase("system")) == Some(SYSTEM);
    assert KindNamed(ToUpperCase("User")) == Some(USER);
    assert AddKinds(names[..1], s.kindsToProcess) == (s.kindsToProcess + {SYSTEM}, None);
    assert AddKinds(names, s.kindsToProcess) == (s.kindsToProcess + {SYSTEM} + {USER}, None);
    assert s.kindsToProcess + {SYSTEM} + {USER} == s.kindsToProcess + {SYSTEM, USER};
  }

  /** A name that is no kind fails init after the kinds before it were added,
      and leaves no executor declared. */
  lemma BadKindConfigured(s: PlannerState)
    ensures Configure(map["executors" := "1", "filesPerCompaction" := "3", "process" := "USER,MAJOR"], s)
      == (PlannerState(3, [], s.kindsToProcess + {USER}), Some(NoSuchKind("MAJOR")))
  {
    var options := map["executors" := "1", "filesPerCompaction" := "3", "process" := "USER,MAJOR"];
    assert Get(options, "executors") == Some("1");
    assert Get(options, "filesPerCompaction") == Some("3");
    assert Get(options, "process") == Some("USER,MAJOR");
    ConfiguredNumbersParse();
    SplitExamples();
    UpperCaseExamples();
    var names := ["USER", "MAJOR"];
    assert names[..1] == ["USER"] && names[..1][..0] == [];
    assert AddKinds([], s.kindsToProcess) == (s.kindsToProcess, None);
    assert AddKinds(names[..1], s.kindsToProcess) == (s.kindsToProcess + {USER}, None);
    assert AddKinds(names, s.kindsToProcess) == (s.kindsToProcess + {USER}, Some(NoSuchKind("MAJOR")));
  }

  // ---------------------------------------------------------------------
  // What makePlan promises

  /** With the `compact_all` hint, the plan is one job of every candidate,
      whatever the kind and the processed kinds. */
  lemma CompactAllPlansEverything(kind: CompactionKind, candidates: seq<FileName>, hints: map<string, string>, s: PlannerState)
    requires "compact_all" in hints && EqualsIgnoreCase(hints["compact_all"], "true")
    requires s.executorIds != []
    ensures PlannedFiles(kind, candidates, hints, s) == Ok([candidates])
  {
  }

  /** With the `compact_all` hint and no declared executor, picking one
      throws, whatever the candidates. */
  lemma CompactAllWithoutExecutors(kind: CompactionKind, candidates: seq<FileName>, hints: map<string, string>, s: PlannerState)
    requires "compact_all" in hints && EqualsIgnoreCase(hints["compact_all"], "true")
    requires s.executorIds == []
    ensures PlannedFiles(kind, candidates, hints, s) == Err(NoExecutors)
  {
  }

  /** Without a true `compact_all` hint, a kind the planner does not process gets an empty plan. */
  lemma UnprocessedKindPlansNothing(kind: CompactionKind, candidates: seq<FileName>, hints: map<string, string>, s: PlannerState)
    requires "compact_all" !in hints || !EqualsIgnoreCase(hints["compact_all"], "true")
    requires kind !in s.kindsToProcess
    ensures PlannedFiles(kind, candidates, hints, s) == Ok([])
  {
  }

  /** For a processed kind over distinct, named candidates and a positive batch
      size b: every job is b files of one group taken from the candidates, no
      two jobs share a file, group c yields |group c| / b jobs, a candidate is
      planned exactly when it is not among the last |group| % b files of its
      group, and those files are in no job. */
  lemma ProcessedPlan(kind: CompactionKind, candidates: seq<FileName>, hints: map<string, string>, s: PlannerState)
    requires !CompactAllRequested(hints) && kind in s.kindsToProcess
    requires Named(candidates) && Distinct(candidates) && s.filesPerCompaction > 0
    requires s.executorIds != []
    ensures var b := s.filesPerCompaction;
      var plan := PlannedFiles(kind, candidates, hints, s);
      plan == Ok(Batches(candidates, b)) &&
      PairwiseDisjoint(plan.value) &&
      (forall j :: 0 <= j < |plan.value| ==>
        |plan.value[j]| == b && plan.value[j][0] != [] &&
        forall f :: f in plan.value[j] ==> f in candidates && HasKey(f, plan.value[j][0][0])) &&
      (forall c :: JobsWithKey(plan.value, c) == |Group(candidates, c)| / b) &&
      (forall f :: f in candidates ==>
        ((exists j :: 0 <= j < |plan.value| && f in plan.value[j]) <==> f !in Unplanned(candidates, b))) &&
      (forall c, f, j :: f in Tail(Group(candidates, c), b) && 0 <= j < |plan.value| ==> f !in plan.value[j])
  {
    var b := s.filesPerCompaction;
    RoundShape(candidates, b);
    PlannedOrLeftOver(candidates, b);
    forall c ensures JobsWithKey(Batches(candidates, b), c) == |Group(candidates, c)| / b {
      JobsPerGroup(candidates, b, c);
    }
  }

  /** Whatever the batch size, an empty file name fails a processed plan, and
      a batch size of zero or below fails it as soon as there is a candidate. */
  lemma ProcessedPlanErrors(kind: CompactionKind, candidates: seq<FileName>, hints: map<string, string>, s: PlannerState)
    requires !CompactAllRequested(hints) && kind in s.kindsToProcess
    ensures !Named(candidates) ==> PlannedFiles(kind, candidates, hints, s) == Err(EmptyFileName)
    ensures Named(candidates) && candidates != [] && s.filesPerCompaction <= 0 ==>
      PlannedFiles(kind, candidates, hints, s).Err?
    ensures Named(candidates) && s.filesPerCompaction == 0 && candidates != [] && s.executorIds != [] ==>
      PlannedFiles(kind, candidates, hints, s) == Err(Unbounded)
  {
  }

  class TestPlanner {
    var filesPerCompaction: int
    var executorIds: seq<ExecutorId>
    var kindsToProcess: set<CompactionKind>

    function State(): PlannerState
      reads this
    {
      PlannerState(filesPerCompaction, executorIds, kindsToProcess)
    }

    /** A planner before `init`: no batch size, no executors, no kinds. */
    constructor ()
      ensures State() == PlannerState(0, [], {})
    {
      filesPerCompaction := 0;
      executorIds := [];
      kindsToProcess := {};
    }

    /** init: parse the options, collect the processed kinds, declare the executors. */
    method Init(options: map<string, string>) returns (err: Option<ConfigError>)
      modifies this
      ensures (State(), err) == Configure(options, old(State()))
    {
      var executors := ParseInt(Get(options, "executors"));
      if executors.None? {
        return Some(NotAnInt("executors"));
      }
      var batch := ParseInt(Get(options, "filesPerCompaction"));
      if batch.None? {
        return Some(NotAnInt("filesPerCompaction"));
      }
      filesPerCompaction := batch.value;
      executorIds := [];
      var process := Get(options, "process");
      if process.None? {
        return Some(MissingProcess);
      }
      var names := Split(process.value, ',');
      err := AddProcessedKinds(names);
      if err.Some? {
        return;
      }
      DeclareExecutors(executors.value);
      return None;
    }

    /** The loop over the `process` names: add the kind each upper-cases
        to, and stop with the exception of the first that is no kind. */
    method AddProcessedKinds(names: seq<string>) returns (err: Option<ConfigError>)
      modifies this
      ensures (kindsToProcess, err) == AddKinds(names, old(kindsToProcess))
      ensures filesPerCompaction == old(filesPerCompaction) && executorIds == old(executorIds)
    {
      var i := 0;
      while i < |names|
        invariant 0 <= i <= |names|
        invariant AddKinds(names[..i], old(kindsToProcess)) == (kindsToProcess, None)
        invariant filesPerCompaction == old(filesPerCompaction) && executorIds == old(executorIds)
      {
        assert names[..i + 1][..i] == names[..i];
        var kind := KindNamed(ToUpperCase(names[i]));
        if kind.None? {
          AddKindsStops(names, i + 1, old(kindsToProcess));
          return Some(NoSuchKind(names[i]));
        }
        kindsToProcess := kindsToProcess + {kind.value};
        i := i + 1;
      }
      assert names[..i] == names;
      return None;
    }

    /** The loop declaring executors e0 .. e(n-1) after an empty list. */
    method DeclareExecutors(n: int)
      requires executorIds == []
      modifies this
      ensures executorIds == DeclaredExecutors(n)
      ensures filesPerCompaction == old(filesPerCompaction) && kindsToProcess == old(kindsToProcess)
    {
      var i := 0;
      while i < n
        invariant 0 <= i <= if n < 0 then 0 else n
        invariant executorIds == DeclaredExecutors(i)
        invariant filesPerCompaction == old(filesPerCompaction) && kindsToProcess == old(kindsToProcess)
      {
        executorIds := executorIds + [ExecutorId(ExecutorName(i), ExecutorThreads)];
        i := i + 1;
      }
    }

    /** makePlan: one job of every candidate when `compact_all` holds, batches
        of each group for a processed kind, nothing otherwise. Each job goes
        to an executor picked at random among the declared ones. */
    method MakePlan(kind: CompactionKind, candidates: seq<FileName>, hints: map<string, string>)
      returns (plan: Result<seq<Job>, PlanError>)
      ensures plan.Err? <==> PlannedFiles(kind, candidates, hints, State()).Err?
      ensures plan.Err? ==> plan.error == PlannedFiles(kind, candidates, hints, State()).error
      ensures plan.Ok? ==> Assigned(plan.value, PlannedFiles(kind, candidates, hints, State()).value, executorIds)
    {
      if CompactAllRequested(hints) {
        if |executorIds| == 0 {
          return Err(NoExecutors);
        }
        var pick :| 0 <= pick < |executorIds|;
        return Ok([Job(1, executorIds[pick], candidates)]);
      }
      if kind !in kindsToProcess {
        return Ok([]);
      }
      plan := PlanGroups(candidates);
    }

    /** The classifier pass of groupingBy: getFirstChar of every candidate,
        stopping at the first that throws. */
    static method GroupKeys(candidates: seq<FileName>) returns (err: Option<PlanError>)
      ensures err.None? <==> Named(candidates)
      ensures err.Some? ==> err.value == EmptyFileName
    {
      var n := 0;
      while n < |candidates|
        invariant 0 <= n <= |candidates|
        invariant Named(candidates[..n])
      {
        var key := FirstChar(candidates[n]);
        if key.Err? {
          return Some(key.error);
        }
        n := n + 1;
      }
      assert candidates[..n] == candidates;
      return None;
    }

    /** The grouping by first character and the loop over the groups. */
    method PlanGroups(candidates: seq<FileName>) returns (plan: Result<seq<Job>, PlanError>)
      ensures plan.Err? <==> GroupedFiles(candidates, filesPerCompaction, executorIds != []).Err?
      ensures plan.Err? ==> plan.error == GroupedFiles(candidates, filesPerCompaction, executorIds != []).error
      ensures plan.Ok? ==> Assigned(plan.value, GroupedFiles(candidates, filesPerCompaction, executorIds != []).value, executorIds)
    {
      var unnamed := GroupKeys(candidates);
      if unnamed.Some? {
        return Err(unnamed.value);
      }
      var keys := Keys(candidates);
      plan := PlanEachGroup(candidates, keys, filesPerCompaction);
      GroupLoopOutcome(candidates, filesPerCompaction, executorIds != []);
    }

    /** The forEach over the groups keyed keys, in order. */
    method PlanEachGroup(candidates: seq<FileName>, keys: seq<char>, b: int) returns (plan: Result<seq<Job>, PlanError>)
      ensures plan.Err? <==> KeysOutcome(candidates, keys, b, executorIds != []).Err?
      ensures plan.Err? ==> plan.error == KeysOutcome(candidates, keys, b, executorIds != []).error
      ensures plan.Ok? ==> Assigned(plan.value, KeysOutcome(candidates, keys, b, executorIds != []).value, executorIds)
    {
      var jobs: seq<Job> := [];
      ghost var planned: seq<seq<FileName>> := [];
      var k := 0;
      while k < |keys|
        invariant 0 <= k <= |keys|
        invariant Assigned(jobs, planned, executorIds)
        invariant KeysOutcome(candidates, keys[..k], b, executorIds != []) == Ok(planned)
      {
        assert keys[..k + 1][..k] == keys[..k];
        var more := PlanGroup(Group(candidates, keys[k]), b, jobs, planned);
        if more.Err? {
          KeysOutcomeStops(candidates, keys, k + 1, b, executorIds != []);
          return more;
        }
        jobs := more.value;
        planned := planned + GroupOutcome(Group(candidates, keys[k]), b, executorIds != []).value;
        k := k + 1;
      }
      assert keys[..k] == keys;
      return Ok(jobs);
    }

    /** The body of the loop over one group: append a job for every full batch. */
    method PlanGroup(files: seq<FileName>, b: int, jobs: seq<Job>, ghost planned: seq<seq<FileName>>)
      returns (r: Result<seq<Job>, PlanError>)
      requires Assigned(jobs, planned, executorIds)
      ensures r.Err? <==> GroupOutcome(files, b, executorIds != []).Err?
      ensures r.Err? ==> r.error == GroupOutcome(files, b, executorIds != []).error
      ensures r.Ok? ==> Assigned(r.value, planned + GroupOutcome(files, b, executorIds != []).value, executorIds)
    {
      r := Ok(jobs);
      ghost var done := planned;
      var i := b;
      while i <= |files|
        invariant r.Ok? && Assigned(r.value, done, executorIds)
        invariant b <= 0 || executorIds == [] ==> i == b
        invariant b > 0 ==> b <= i <= |files| + b
        invariant b > 0 ==> done + Slices(files[i - b..], b) == planned + Slices(files, b)
        decreases |files| + b - i
      {
        if |executorIds| == 0 {
          return Err(NoExecutors);
        }
        var pick :| 0 <= pick < |executorIds|;
        if b < 0 {
          return Err(InvertedSlice);
        } else if b == 0 {
          return Err(Unbounded);
        }
        var rest := files[i - b..];
        assert rest[..b] == files[i - b..i] && rest[b..] == files[i..];
        r := Ok(r.value + [Job(1, executorIds[pick], files[i - b..i])]);
        done := done + [files[i - b..i]];
        i := i + b;
      }
    }
  }
}
