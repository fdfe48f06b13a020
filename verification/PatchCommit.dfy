/** Apply: reset the checkout to its committed snapshot, apply a diff, stage exactly its
    targets, commit. Git is three trees; anything may happen to the work tree and the index
    between two calls, and every git step may fail with or without its effect. */
module PatchCommit {
  import opened Seqs
  import opened Text
  import opened DiffTargets

  type Tree = map<string, string>

  function Lookup(t: Tree, path: string): Option<string> {
    if path in t then Some(t[path]) else None
  }

  function Put(t: Tree, path: string, blob: Option<string>): Tree {
    match blob
    case None => t - {path}
    case Some(b) => t[path := b]
  }

  /** What the diff makes of one file: its new content, or absence. */
  type Patch = (string, Option<string>) -> Option<string>

  /** git apply on a tree: the files its headers name, nothing else. */
  function Patched(t: Tree, targets: seq<string>, patch: Patch): Tree {
    if targets == [] then t
    else var p := targets[|targets| - 1];
      Put(Patched(t, targets[..|targets| - 1], patch), p, patch(p, Lookup(t, p)))
  }

  lemma {:induction false} PatchedAt(t: Tree, targets: seq<string>, patch: Patch, path: string)
    ensures Lookup(Patched(t, targets, patch), path) == if path in targets then patch(path, Lookup(t, path))
            else Lookup(t, path)
  {
    if targets != [] {
      PatchedAt(t, targets[..|targets| - 1], patch, path);
      assert targets == targets[..|targets| - 1] + [targets[|targets| - 1]];
    }
  }

  /** git add of some paths: the index takes what the work tree holds there. */
  function Staged(index: Tree, work: Tree, paths: seq<string>): Tree {
    if paths == [] then index
    else var p := paths[|paths| - 1];
      Put(Staged(index, work, paths[..|paths| - 1]), p, Lookup(work, p))
  }

  lemma {:induction false} StagedAt(index: Tree, work: Tree, paths: seq<string>, path: string)
    ensures Lookup(Staged(index, work, paths), path) == if path in paths then Lookup(work, path)
            else Lookup(index, path)
  {
    if paths != [] {
      StagedAt(index, work, paths[..|paths| - 1], path);
      assert paths == paths[..|paths| - 1] + [paths[|paths| - 1]];
    }
  }

  lemma TreesEqual(a: Tree, b: Tree)
    requires forall path :: Lookup(a, path) == Lookup(b, path)
    ensures a == b
  {
    forall path
      ensures path in a <==> path in b
      ensures path in a ==> a[path] == b[path]
    {
      assert Lookup(a, path) == Lookup(b, path);
    }
  }

  /** One attempt that moved HEAD. */
  datatype Commit = Commit(parent: Tree, tree: Tree, targets: seq<string>, allowed: set<string>, patch: Patch)

  /** The new tree is the diff applied to its parent, and the diff names only approved files. */
  ghost predicate Contained(c: Commit) {
    (forall p :: p in c.targets ==> p in c.allowed) && c.tree == Patched(c.parent, c.targets, c.patch)
  }

  /** Contained moves that lead from one tree to another. */
  ghost predicate Joined(start: Tree, commits: seq<Commit>, head: Tree) {
    && (forall i :: 0 <= i < |commits| ==> Contained(commits[i]))
    && (forall i :: 0 <= i < |commits| - 1 ==> commits[i].tree == commits[i + 1].parent)
    && (if commits == [] then head == start else commits[0].parent == start && head == commits[|commits| - 1].tree)
  }

  lemma JoinedMore(start: Tree, commits: seq<Commit>, head: Tree, c: Commit)
    requires Joined(start, commits, head) && Contained(c) && c.parent == head
    ensures Joined(start, commits + [c], c.tree)
  {
    hide Contained;
  }

  datatype Outcome = Applied(touched: seq<string>) | Rejected

  /** The environment's answer to one git call. */
  datatype Answer = Fine | FailBefore | FailAfter

  class Checkout {
    var head: Tree
    var index: Tree
    var work: Tree
    /** How the calls to come are answered; Fine once used up. */
    var answers: seq<Answer>
    /** What .gitignore covers. */
    const ignores: string -> bool
    /** The approved write scope; None when its facts cannot be read. */
    var allowed: Option<seq<string>>
    /** The containment guard on paths. */
    const inside: string -> bool
    ghost var start: Tree
    ghost var commits: seq<Commit>

    /** Every move of HEAD so far was contained, and the moves join up from the start to HEAD. */
    ghost predicate Valid()
      reads this
    {
      Joined(start, commits, head)
    }

    constructor (base: Tree, ignores: string -> bool, inside: string -> bool)
      ensures Valid() && head == base && start == base && commits == []
    {
      head, index, work, start := base, base, base, base;
      this.ignores, this.inside := ignores, inside;
      answers, allowed, commits := [], None, [];
    }

    /** Anything may happen to the work tree, the index and the contract between two calls. */
    method Disturb(index: Tree, work: Tree, allowed: Option<seq<string>>, answers: seq<Answer>)
      requires Valid()
      modifies this
      ensures Valid() && head == old(head) && commits == old(commits) && start == old(start)
    {
      this.index, this.work, this.allowed, this.answers := index, work, allowed, answers;
    }

    method Ask() returns (a: Answer)
      modifies this`answers
    {
      if answers == [] {
        return Fine;
      }
      a := answers[0];
      answers := answers[1..];
    }

    /** reset --hard, then clean -ffd: tracked files as committed, untracked ones only where
        they are ignored. */
    method Reset() returns (ok: bool)
      modifies this`answers, this`index, this`work
      ensures ok ==> index == head
      ensures ok ==> forall p :: p in head ==> p in work && work[p] == head[p]
      ensures ok ==> forall p :: p in work && p !in head ==> ignores(p)
    {
      var a := Ask();
      if a.FailBefore? {
        return false;
      }
      work := map p | p in work.Keys + head.Keys && (p in head || p !in index) :: if p in head then head[p]
          else work[p];
      index := head;
      if a.FailAfter? {
        return false;
      }
      a := Ask();
      if a.FailBefore? {
        return false;
      }
      work := map p | p in work && (p in index || ignores(p)) :: work[p];
      return a.Fine?;
    }

    /** git apply -p1: all of the diff or an error; an error may leave the files it names in
        any state. */
    method GitApply(targets: seq<string>, patch: Patch, residue: Tree) returns (ok: bool)
      modifies this`answers, this`work
      ensures ok ==> work == Patched(old(work), targets, patch)
    {
      var a := Ask();
      if a.FailBefore? {
        return false;
      }
      if a.FailAfter? {
        work := residue;
        return false;
      }
      work := Patched(work, targets, patch);
      return true;
    }

    /** git add on literal paths: an ignored file that is not tracked is an error, and so is
        a path that is neither in the index nor in the work tree. */
    method GitAdd(targets: seq<string>) returns (ok: bool)
      modifies this`answers, this`index
      ensures ok ==> index == Staged(old(index), work, targets)
      ensures ok ==> forall p :: p in targets && p !in old(index) ==> p in work && !ignores(p)
    {
      var a := Ask();
      if a.FailBefore? {
        return false;
      }
      for k := 0 to |targets|
        invariant forall i :: 0 <= i < k && targets[i] !in index ==> targets[i] in work && !ignores(targets[i])
      {
        if targets[k] !in index && (targets[k] !in work || ignores(targets[k])) {
          return false;
        }
      }
      index := Staged(index, work, targets);
      return a.Fine?;
    }

    /** git commit: the whole index becomes HEAD; nothing to commit is an error. */
    method GitCommit() returns (ok: bool)
      modifies this`answers, this`head
      ensures head == old(head) || head == index
      ensures ok ==> head == index && index != old(head)
    {
      var a := Ask();
      if a.FailBefore? || index == head {
        return false;
      }
      head := index;
      return a.Fine?;
    }

    /** Targets parsed, inside the checkout, and approved. */
    method Vet(diff: string) returns (targets: Option<seq<string>>)
      modifies this`answers
      ensures targets.Some? ==>
                && Enumerable(Map(Classify, Lines(diff)))
                   && targets.value == Distinct(HeaderFiles(Map(Classify, Lines(diff)))) && targets.value != []
                && allowed.Some? && forall p :: p in targets.value ==> inside(p) && p in allowed.value
    {
      hide Enumerable, HeaderFiles, Distinct, Map, Lines;
      var parsed := ParseDiffTargets(diff);
      if parsed.None? || parsed.value == [] {
        return None;
      }
      for k := 0 to |parsed.value|
        invariant forall i :: 0 <= i < k ==> inside(parsed.value[i])
      {
        if !inside(parsed.value[k]) {
          return None;
        }
      }
      if allowed.None? || allowed.value == [] {
        return None;
      }
      for k := 0 to |parsed.value|
        invariant forall i :: 0 <= i < k ==> parsed.value[i] in allowed.value
      {
        if parsed.value[k] !in allowed.value {
          return None;
        }
      }
      return parsed;
    }

    /** Vetted targets through apply, add and commit: HEAD stays, or becomes the diff applied
        to it. */
    method ApplyVetted(targets: seq<string>, patch: Patch, residue: Tree) returns (ok: bool)
      requires index == head
      requires forall p :: p in head ==> p in work && work[p] == head[p]
      requires forall p :: p in work && p !in head ==> ignores(p)
      modifies this`answers, this`work, this`index, this`head
      ensures head == old(head) || head == Patched(old(head), targets, patch)
      ensures ok ==> head == Patched(old(head), targets, patch) && head != old(head)
    {
      hide Patched, Staged;
      ghost var before, work0 := head, work;
      var applied := GitApply(targets, patch, residue);
      if !applied {
        return false;
      }
      var added := GitAdd(targets);
      if !added {
        return false;
      }
      StagedIsPatched(before, work0, work, targets, patch, ignores);
      var committed := GitCommit();
      if !committed {
        return false;
      }
      var named := Ask();
      return named.Fine?;
    }

    /** Apply. HEAD moves at most once, and then to exactly the diff applied to the tree that
        was committed before, whatever the work tree and the index held when the call began. */
    method Apply(diff: string, patch: Patch, residue: Tree) returns (outcome: Outcome)
      requires Valid()
      modifies this
      ensures Valid() && start == old(start)
      ensures commits == old(commits) || (|commits| == |old(commits)| + 1 && commits[..|old(commits)|] == old(commits))
      ensures commits == old(commits) ==> head == old(head)
      ensures commits != old(commits) ==>
                var c := commits[|old(commits)|];
                && c.parent == old(head) && c.tree == head && c.patch == patch
                && c.targets == Distinct(HeaderFiles(Map(Classify, Lines(diff))))
                && old(allowed).Some? && c.allowed == ScopeOf(old(allowed).value)
      ensures outcome.Applied? ==> commits != old(commits) && outcome.touched == commits[|old(commits)|].targets
    {
      hide Enumerable, HeaderFiles, Distinct, Map, Lines, Patched, Contained, Joined, Trim;
      if Trim(diff) == "" {
        return Rejected;
      }
      var reset := Reset();
      if !reset {
        return Rejected;
      }
      var targets := Vet(diff);
      if targets.None? {
        return Rejected;
      }
      ghost var before := head;
      var ok := ApplyVetted(targets.value, patch, residue);
      if head != before {
        ghost var c := Commit(before, head, targets.value, ScopeOf(allowed.value), patch);
        ScopeContains(c, allowed.value);
        JoinedMore(start, commits, before, c);
        commits := commits + [c];
      }
      return if ok then Applied(targets.value) else Rejected;
    }
  }

  function ScopeOf(allowed: seq<string>): set<string> {
    set p | p in allowed
  }

  lemma ScopeContains(c: Commit, allowed: seq<string>)
    requires c.allowed == ScopeOf(allowed) && (forall p :: p in c.targets ==> p in allowed)
             && c.tree == Patched(c.parent, c.targets, c.patch)
    ensures Contained(c)
  {
    hide Patched;
  }

  /** What gets staged over the committed snapshot is the diff applied to that snapshot:
      residue the reset left behind is ignored, and an ignored untracked file is refused. */
  lemma StagedIsPatched(head: Tree, work0: Tree, work: Tree, targets: seq<string>, patch: Patch,
                        ignores: string -> bool)
    requires forall p :: p in head ==> p in work0 && work0[p] == head[p]
    requires forall p :: p in work0 && p !in head ==> ignores(p)
    requires work == Patched(work0, targets, patch)
    requires forall p :: p in targets && p !in head ==> p in work && !ignores(p)
    ensures Staged(head, work, targets) == Patched(head, targets, patch)
  {
    hide Patched, Staged;
    forall path
      ensures Lookup(Staged(head, work, targets), path) == Lookup(Patched(head, targets, patch), path)
    {
      StagedAt(head, work, targets, path);
      PatchedAt(head, targets, patch, path);
      PatchedAt(work0, targets, patch, path);
      if path in targets && path !in head {
        assert path !in work0;
      }
    }
    TreesEqual(Staged(head, work, targets), Patched(head, targets, patch));
  }

  /** Over any number of attempts: a path no approved scope named is in HEAD exactly as it
      was at the start. */
  lemma {:induction false} OutsideScopesUntouched(start: Tree, commits: seq<Commit>, head: Tree, path: string)
    requires Joined(start, commits, head)
    requires forall i :: 0 <= i < |commits| ==> path !in commits[i].allowed
    ensures Lookup(head, path) == Lookup(start, path)
  {
    if commits != [] {
      var front, last := commits[..|commits| - 1], commits[|commits| - 1];
      assert Contained(last) && path !in last.targets;
      PatchedAt(last.parent, last.targets, last.patch, path);
      assert forall i :: 0 <= i < |front| ==> front[i] == commits[i];
      assert Joined(start, front, last.parent);
      OutsideScopesUntouched(start, front, last.parent, path);
    }
  }

  /** Each attempt differs from its parent only on the files its diff names. */
  lemma CommitDiffersOnTargets(c: Commit, path: string)
    requires Contained(c) && Lookup(c.tree, path) != Lookup(c.parent, path)
    ensures path in c.targets && path in c.allowed
    ensures Lookup(c.tree, path) == c.patch(path, Lookup(c.parent, path))
  {
    PatchedAt(c.parent, c.targets, c.patch, path);
  }
}
