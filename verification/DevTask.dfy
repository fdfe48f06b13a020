/** Project: authored tasks into task specs, all of them or none. */
module DevTask {
  import opened Text
  import opened Seqs

  datatype RawTask = RawTask(
    index: int,
    goal: string,
    assumptions: Option<seq<string>>,
    nonGoals: Option<seq<string>>,
    targetFiles: seq<string>,
    testCommand: string,
    budget: Option<int>)

  datatype TaskSpec = TaskSpec(
    index: int,
    goal: string,
    assumptions: seq<string>,
    nonGoals: seq<string>,
    targetFiles: seq<string>,
    testCommand: string,
    budget: int)

  datatype Field = Goal | Assumptions | NonGoals | TargetFiles | TestCommand | Budget

  datatype Gap = Gap(index: int, missing: seq<Field>)

  datatype Result =
    | Specs(specs: seq<TaskSpec>)
    | NoTasks
    | DuplicateIndex(index: int)
    | OutOfRange(index: int)
    | Incomplete(gaps: seq<Gap>)

  const MIN_BUDGET := 1
  const MAX_BUDGET := 5

  function ClampBudget(n: int): (r: int)
    ensures MIN_BUDGET <= r <= MAX_BUDGET && (MIN_BUDGET <= n <= MAX_BUDGET ==> r == n)
  {
    if n < MIN_BUDGET then MIN_BUDGET else if n > MAX_BUDGET then MAX_BUDGET else n
  }

  predicate HasFile(files: seq<string>) {
    exists i :: 0 <= i < |files| && Trim(files[i]) != ""
  }

  /** schemaGaps: the missing fields, in a fixed order. */
  function Missing(t: RawTask): seq<Field> {
    (if Trim(t.goal) == "" then [Goal] else []) + (if t.assumptions.None? then [Assumptions] else [])
    + (if t.nonGoals.None? then [NonGoals] else []) + (if HasFile(t.targetFiles) then [] else [TargetFiles])
    + (if Trim(t.testCommand) == "" then [TestCommand] else []) + (if t.budget.None? then [Budget] else [])
  }

  predicate Complete(t: RawTask) {
    && Trim(t.goal) != "" && t.assumptions.Some? && t.nonGoals.Some? && HasFile(t.targetFiles)
       && Trim(t.testCommand) != ""
    && t.budget.Some?
  }

  /** The trimmed, clamped image of a complete task. */
  function SpecOf(t: RawTask): TaskSpec
    requires Complete(t)
  {
    TaskSpec(t.index, Trim(t.goal), t.assumptions.value, t.nonGoals.value, t.targetFiles, Trim(t.testCommand),
             ClampBudget(t.budget.value))
  }

  lemma CompleteIff(t: RawTask)
    ensures Complete(t) <==> Missing(t) == []
  {
    hide Trim, HasFile;
  }

  /** Indices are a permutation of 0..n-1. */
  predicate Contiguous(tasks: seq<RawTask>) {
    && (forall i :: 0 <= i < |tasks| ==> 0 <= tasks[i].index < |tasks|)
    && (forall i, j :: 0 <= i < j < |tasks| ==> tasks[i].index != tasks[j].index)
  }

  /** The reported index is a real defect. */
  predicate BadIndex(tasks: seq<RawTask>, r: Result) {
    match r
    case DuplicateIndex(x) => exists i, j :: 0 <= i < j < |tasks| && tasks[i].index == x && tasks[j].index == x
    case OutOfRange(x) => (x < 0 || x >= |tasks|) && exists i :: 0 <= i < |tasks| && tasks[i].index == x
    case _ => false
  }

  method CheckIndices(tasks: seq<RawTask>) returns (bad: Option<Result>)
    ensures bad.None? <==> Contiguous(tasks)
    ensures bad.Some? ==> BadIndex(tasks, bad.value)
  {
    var seen: set<int> := {};
    for k := 0 to |tasks|
      invariant forall x :: x in seen <==> exists i :: 0 <= i < k && tasks[i].index == x
      invariant forall i :: 0 <= i < k ==> 0 <= tasks[i].index < |tasks|
      invariant forall i, j :: 0 <= i < j < k ==> tasks[i].index != tasks[j].index
    {
      var x := tasks[k].index;
      if x in seen {
        ghost var i :| 0 <= i < k && tasks[i].index == x;
        return Some(DuplicateIndex(x));
      }
      if x < 0 || x >= |tasks| {
        return Some(OutOfRange(x));
      }
      seen := seen + {x};
    }
    return None;
  }

  // --- sorting by index ---

  predicate Increasing<T>(key: T -> int, xs: seq<T>) {
    forall i, j :: 0 <= i < j < |xs| ==> key(xs[i]) < key(xs[j])
  }

  predicate DistinctKeys<T>(key: T -> int, xs: seq<T>) {
    forall i, j :: 0 <= i < j < |xs| ==> key(xs[i]) != key(xs[j])
  }

  method SortByIndex<T>(key: T -> int, xs: seq<T>) returns (ys: seq<T>)
    requires DistinctKeys(key, xs)
    ensures Increasing(key, ys) && |ys| == |xs| && forall x :: x in ys <==> x in xs
  {
    hide Increasing, DistinctKeys;
    ys := [];
    NoneIncreasing(key);
    for k := 0 to |xs|
      invariant Increasing(key, ys) && |ys| == k && forall x :: x in ys <==> x in xs[..k]
    {
      NewKey(key, xs, k, ys);
      ys := InsertAt(key, ys, xs[k]);
      assert xs[..k + 1] == xs[..k] + [xs[k]];
    }
    assert xs[..|xs|] == xs;
  }

  lemma NoneIncreasing<T>(key: T -> int)
    ensures Increasing(key, [])
  {
  }

  lemma NewKey<T>(key: T -> int, xs: seq<T>, k: nat, ys: seq<T>)
    requires DistinctKeys(key, xs) && k < |xs| && forall x :: x in ys <==> x in xs[..k]
    ensures forall i :: 0 <= i < |ys| ==> key(ys[i]) != key(xs[k])
  {
    forall i | 0 <= i < |ys|
      ensures key(ys[i]) != key(xs[k])
    {
      assert ys[i] in xs[..k];
    }
  }

  method InsertAt<T>(key: T -> int, xs: seq<T>, x: T) returns (ys: seq<T>)
    requires Increasing(key, xs) && forall i :: 0 <= i < |xs| ==> key(xs[i]) != key(x)
    ensures Increasing(key, ys) && |ys| == |xs| + 1 && forall y :: y in ys <==> y in xs || y == x
  {
    hide Increasing;
    var k: nat := |xs|;
    while k > 0 && key(x) < key(xs[k - 1])
      invariant k <= |xs| && forall i :: k <= i < |xs| ==> key(x) < key(xs[i])
    {
      k := k - 1;
    }
    Between(key, xs, x, k);
    ys := xs[..k] + [x] + xs[k..];
  }

  lemma Between<T>(key: T -> int, xs: seq<T>, x: T, k: nat)
    requires Increasing(key, xs) && k <= |xs| && (k > 0 ==> key(xs[k - 1]) < key(x))
    requires forall i :: k <= i < |xs| ==> key(x) < key(xs[i])
    ensures Increasing(key, xs[..k] + [x] + xs[k..])
    ensures forall y :: y in xs[..k] + [x] + xs[k..] <==> y in xs || y == x
  {
    forall i | 0 <= i < k
      ensures key(xs[i]) < key(x)
    {
    }
    BetweenOrder(key, xs[..k], x, xs[k..]);
    assert xs == xs[..k] + xs[k..];
  }

  lemma BetweenOrder<T>(key: T -> int, a: seq<T>, x: T, b: seq<T>)
    requires Increasing(key, a) && Increasing(key, b)
    requires forall i :: 0 <= i < |a| ==> key(a[i]) < key(x)
    requires forall i :: 0 <= i < |b| ==> key(x) < key(b[i])
    ensures Increasing(key, a + [x] + b)
  {
  }

  /** Increasing values in 0..n-1, n of them: each sits at its own index. */
  lemma {:induction false} InPlace<T>(key: T -> int, xs: seq<T>, lo: int, k: nat)
    requires Increasing(key, xs) && k < |xs| && forall i :: 0 <= i < |xs| ==> lo <= key(xs[i]) < lo + |xs|
    ensures key(xs[k]) == lo + k
    decreases |xs|
  {
    if |xs| > 1 {
      var last := |xs| - 1;
      if k == last {
        AtLeast(key, xs, lo, k);
      } else {
        AtLeast(key, xs, lo, k);
        AtMost(key, xs, lo, k);
      }
    }
  }

  lemma {:induction false} AtLeast<T>(key: T -> int, xs: seq<T>, lo: int, k: nat)
    requires Increasing(key, xs) && k < |xs| && forall i :: 0 <= i < |xs| ==> lo <= key(xs[i])
    ensures key(xs[k]) >= lo + k
    decreases k
  {
    if k > 0 {
      AtLeast(key, xs, lo, k - 1);
    }
  }

  lemma {:induction false} AtMost<T>(key: T -> int, xs: seq<T>, lo: int, k: nat)
    requires Increasing(key, xs) && k < |xs| && forall i :: 0 <= i < |xs| ==> key(xs[i]) < lo + |xs|
    ensures key(xs[k]) <= lo + k
    decreases |xs| - k
  {
    if k < |xs| - 1 {
      AtMost(key, xs, lo, k + 1);
    }
  }

  function SpecIndex(s: TaskSpec): int { s.index }

  function GapIndex(g: Gap): int { g.index }

  // --- the projection ---

  /** Exactly the incomplete tasks, each with what it lacks. */
  predicate ListsIncomplete(tasks: seq<RawTask>, gaps: seq<Gap>) {
    && (forall t :: t in tasks && !Complete(t) ==> Gap(t.index, Missing(t)) in gaps)
    && (forall g :: g in gaps ==> exists t :: t in tasks && !Complete(t) && g == Gap(t.index, Missing(t)))
  }

  method CollectGaps(tasks: seq<RawTask>) returns (gaps: seq<Gap>)
    requires Contiguous(tasks)
    ensures ListsIncomplete(tasks, gaps) && DistinctKeys(GapIndex, gaps)
    ensures gaps == [] <==> forall t :: t in tasks ==> Complete(t)
  {
    hide Missing, Complete;
    gaps := [];
    for k := 0 to |tasks|
      invariant ListsIncomplete(tasks[..k], gaps) && DistinctKeys(GapIndex, gaps)
      invariant forall g :: g in gaps ==> exists i :: 0 <= i < k && tasks[i].index == g.index
    {
      CompleteIff(tasks[k]);
      assert tasks[..k + 1] == tasks[..k] + [tasks[k]];
      var missing := Missing(tasks[k]);
      if missing != [] {
        gaps := gaps + [Gap(tasks[k].index, missing)];
      }
    }
    assert tasks[..|tasks|] == tasks;
    if gaps != [] {
      assert gaps[0] in gaps;
    }
  }

  /** The spec at position i is the image of the task with index i. */
  predicate IsImageAt(tasks: seq<RawTask>, s: TaskSpec, i: int) {
    s.index == i && exists t :: t in tasks && Complete(t) && t.index == i && s == SpecOf(t)
  }

  method Project(tasks: seq<RawTask>) returns (r: Result)
    ensures r.Specs? <==> tasks != [] && Contiguous(tasks) && forall t :: t in tasks ==> Complete(t)
    ensures r.Specs? ==> |r.specs| == |tasks|
    ensures r.Specs? ==> forall i :: 0 <= i < |r.specs| ==> IsImageAt(tasks, r.specs[i], i)
    ensures r.Incomplete? <==> tasks != [] && Contiguous(tasks) && exists t :: t in tasks && !Complete(t)
    ensures r.Incomplete? ==> Increasing(GapIndex, r.gaps) && ListsIncomplete(tasks, r.gaps)
    ensures r.NoTasks? <==> tasks == []
    ensures r.DuplicateIndex? || r.OutOfRange? ==> BadIndex(tasks, r)
  {
    hide Complete, SpecOf, Missing, Contiguous, ListsIncomplete, Increasing, DistinctKeys, IsImageAt, BadIndex;
    if tasks == [] {
      return NoTasks;
    }
    var bad := CheckIndices(tasks);
    if bad.Some? {
      return bad.value;
    }
    var gaps := CollectGaps(tasks);
    if gaps != [] {
      var sorted := SortByIndex(GapIndex, gaps);
      SameGaps(tasks, gaps, sorted);
      return Incomplete(sorted);
    }
    var specs := ProjectAll(tasks);
    var inOrder := SortByIndex(SpecIndex, specs);
    EachInPlace(tasks, specs, inOrder);
    return Specs(inOrder);
  }

  lemma SameGaps(tasks: seq<RawTask>, gaps: seq<Gap>, sorted: seq<Gap>)
    requires ListsIncomplete(tasks, gaps) && forall g :: g in sorted <==> g in gaps
    ensures ListsIncomplete(tasks, sorted)
  {
    hide Complete, Missing;
  }

  method ProjectAll(tasks: seq<RawTask>) returns (specs: seq<TaskSpec>)
    requires Contiguous(tasks) && forall t :: t in tasks ==> Complete(t)
    ensures |specs| == |tasks| && forall i :: 0 <= i < |tasks| ==> Complete(tasks[i]) && specs[i] == SpecOf(tasks[i])
    ensures DistinctKeys(SpecIndex, specs)
  {
    hide Trim, HasFile, ClampBudget;
    specs := [];
    for k := 0 to |tasks|
      invariant |specs| == k && forall i :: 0 <= i < k ==> Complete(tasks[i]) && specs[i] == SpecOf(tasks[i])
    {
      var t := tasks[k];
      assert t in tasks;
      specs := specs + [TaskSpec(t.index, Trim(t.goal), t.assumptions.value, t.nonGoals.value, t.targetFiles,
                                 Trim(t.testCommand), ClampBudget(t.budget.value))];
    }
  }

  lemma EachInPlace(tasks: seq<RawTask>, specs: seq<TaskSpec>, inOrder: seq<TaskSpec>)
    requires Contiguous(tasks) && |specs| == |tasks| == |inOrder|
    requires forall i :: 0 <= i < |tasks| ==> Complete(tasks[i]) && specs[i] == SpecOf(tasks[i])
    requires Increasing(SpecIndex, inOrder) && forall s :: s in inOrder <==> s in specs
    ensures forall i :: 0 <= i < |inOrder| ==> IsImageAt(tasks, inOrder[i], i)
  {
    hide Complete;
    forall i | 0 <= i < |inOrder|
      ensures 0 <= inOrder[i].index < |tasks|
      ensures exists t :: t in tasks && Complete(t) && t.index == inOrder[i].index && inOrder[i] == SpecOf(t)
    {
      assert inOrder[i] in specs;
      var j :| 0 <= j < |specs| && specs[j] == inOrder[i];
      assert tasks[j] in tasks;
    }
    forall i | 0 <= i < |inOrder|
      ensures inOrder[i].index == i
    {
      InPlace(SpecIndex, inOrder, 0, i);
    }
  }
}
