/** Replace: a group-replacing reconcile with a retry bound that depends on the error. */
module GroupWriter {
  import opened Text
  import opened WriteRetry

  type Facts = map<string, seq<string>>

  /** The entity's facts with the group replaced by desired: a predicate of the group that
      desired leaves out is deleted. */
  function Reconciled(facts: Facts, group: set<string>, desired: Facts): Facts {
    map p | p in facts.Keys + desired.Keys && (p in desired || p !in group) :: if p in desired then desired[p]
        else facts[p]
  }

  /** The part of the entity one writer answers for. */
  function Owned(facts: Facts, group: set<string>): Facts {
    map p | p in facts && p in group :: facts[p]
  }

  function Others(facts: Facts, group: set<string>): Facts {
    map p | p in facts && p !in group :: facts[p]
  }

  lemma ReconciledParts(facts: Facts, group: set<string>, desired: Facts)
    requires desired.Keys <= group
    ensures Owned(Reconciled(facts, group, desired), group) == desired
    ensures Others(Reconciled(facts, group, desired), group) == Others(facts, group)
  {
  }

  /** One request, answered: it succeeded, or failed with a kind and may have landed. */
  datatype Answer = Success | Failure(kind: ErrorKind, landed: bool, cancelled: bool)

  predicate Landed(a: Answer) {
    a.Success? || (a.landed && MayHaveLanded(a.kind))
  }

  predicate AnyLanded(log: seq<Answer>) {
    exists i :: 0 <= i < |log| && Landed(log[i])
  }

  predicate Retries(a: Answer, request: nat) {
    a.Failure? && RetriesWrite(a.kind, request) && !(a.cancelled && !a.kind.RevisionConflict?)
  }

  /** The requests of one Replace, in order: each but the last is retried, the last is not. */
  predicate IsAttemptLog(log: seq<Answer>) {
    && log != []
    && (forall i :: 0 <= i < |log| - 1 ==> Retries(log[i], i + 1))
    && !Retries(log[|log| - 1], |log|)
  }

  function Rest<T>(s: seq<T>, n: nat): seq<T> {
    if n <= |s| then s[n..] else []
  }

  /** The answer to request number i; a request beyond the given answers succeeds. */
  function AnswerAt(answers: seq<Answer>, i: nat): Answer {
    if i < |answers| then answers[i] else Success
  }

  /** What the other writers hold after the first n of their updates. */
  function OthersAfter(facts: Facts, updates: seq<Facts>, n: nat, group: set<string>): Facts {
    if n == 0 || updates == [] then Others(facts, group)
    else if n <= |updates| then Others(updates[n - 1], group)
    else Others(updates[|updates| - 1], group)
  }

  lemma NothingSent(facts: Facts, updates: seq<Facts>, group: set<string>)
    ensures !AnyLanded([]) && OthersAfter(facts, updates, 0, group) == Others(facts, group)
  {
  }

  lemma RestStart<T>(s: seq<T>)
    ensures Rest(s, 0) == s
  {
  }

  lemma RestStep<T>(s: seq<T>, n: nat)
    ensures Rest(Rest(s, n), 1) == Rest(s, n + 1)
  {
  }

  lemma AnswerStep(answers: seq<Answer>, n: nat)
    ensures AnswerAt(Rest(answers, n), 0) == AnswerAt(answers, n)
  {
  }

  lemma OthersStep(facts: Facts, updates: seq<Facts>, n: nat, group: set<string>)
    ensures OthersAfter(facts, updates, n + 1, group)
         == if Rest(updates, n) == [] then OthersAfter(facts, updates, n, group) else Others(Rest(updates, n)[0], group)
  {
    hide Others;
  }

  class Entity {
    var facts: Facts
    /** What the other writers of this entity will do before each request. */
    var interleaved: seq<Facts>
    /** How requests will be answered. */
    var answers: seq<Answer>
    /** Every request that was ever sent, with its answer. */
    ghost var issued: seq<Answer>

    /** Another writer's facts may change at any time; this writer's cannot. */
    method OthersWrite(group: set<string>)
      modifies this`facts, this`interleaved
      ensures Owned(facts, group) == Owned(old(facts), group)
      ensures Others(facts, group) == if old(interleaved) == [] then Others(old(facts), group)
              else Others(old(interleaved)[0], group)
      ensures interleaved == Rest(old(interleaved), 1)
    {
      if interleaved != [] {
        var next := interleaved[0];
        interleaved := interleaved[1..];
        facts := map p | p in facts.Keys + next.Keys && (if p in group then p in facts else p in next) :: if p in group
            then facts[p] else next[p];
      }
    }

    /** Reconcile: one request, fenced against the revision it read. */
    method Reconcile(group: set<string>, desired: Facts) returns (a: Answer)
      modifies this`facts, this`answers, this`issued
      ensures a == AnswerAt(old(answers), 0) && answers == Rest(old(answers), 1)
      ensures facts == if Landed(a) then Reconciled(old(facts), group, desired) else old(facts)
      ensures issued == old(issued) + [a]
    {
      a := Success;
      if answers != [] {
        a := answers[0];
        answers := answers[1..];
      }
      issued := issued + [a];
      if Landed(a) {
        facts := Reconciled(facts, group, desired);
      }
    }

    /** The requests sent are exactly the log, each answered as the environment chose. The
        writer's group ends as desired if any of them landed, and untouched otherwise, never
        a mixture; every other predicate ends as its own writers left it. */
    method Replace(group: set<string>, desired: Facts) returns (ok: bool, ghost log: seq<Answer>)
      requires desired.Keys <= group
      modifies this
      ensures IsAttemptLog(log) && |log| <= TRANSPORT_ATTEMPTS && issued == old(issued) + log
      ensures forall i :: 0 <= i < |log| ==> log[i] == AnswerAt(old(answers), i)
      ensures answers == Rest(old(answers), |log|) && interleaved == Rest(old(interleaved), |log|)
      ensures ok <==> log[|log| - 1].Success?
      ensures ok ==> Owned(facts, group) == desired
      ensures Owned(facts, group) == if AnyLanded(log) then desired else Owned(old(facts), group)
      ensures Others(facts, group) == OthersAfter(old(facts), old(interleaved), |log|, group)
    {
      hide Reconciled, Owned, Others, Landed, AnyLanded, Rest, AnswerAt, OthersAfter, Retries, RetriesWrite;
      RestStart(answers);
      RestStart(interleaved);
      NothingSent(facts, interleaved, group);
      log := [];
      var attempt: nat := 1;
      while true
        invariant |log| == attempt - 1 <= 3
        invariant forall i :: 0 <= i < |log| ==> Retries(log[i], i + 1) && log[i] == AnswerAt(old(answers), i)
        invariant issued == old(issued) + log
        invariant answers == Rest(old(answers), |log|) && interleaved == Rest(old(interleaved), |log|)
        invariant Owned(facts, group) == if AnyLanded(log) then desired else Owned(old(facts), group)
        invariant Others(facts, group) == OthersAfter(old(facts), old(interleaved), |log|, group)
        decreases 5 - attempt
      {
        OthersWrite(group);
        ReconciledParts(facts, group, desired);
        ghost var before := log;
        var a := Reconcile(group, desired);
        log := log + [a];
        LandedSnoc(before, a);
        RestStep(old(answers), |before|);
        RestStep(old(interleaved), |before|);
        AnswerStep(old(answers), |before|);
        OthersStep(old(facts), old(interleaved), |before|, group);
        if a.Success? {
          SuccessLands(log, |before|);
          return true, log;
        }
        RetryRule(a, attempt);
        if attempt >= AttemptBound(a.kind) || a.kind.BugShaped? {
          return false, log;
        }
        if a.cancelled && !a.kind.RevisionConflict? {
          return false, log;
        }
        attempt := attempt + 1;
      }
    }
  }

  lemma SuccessLands(log: seq<Answer>, i: nat)
    requires i < |log| && log[i].Success?
    ensures AnyLanded(log) && !Retries(log[i], i + 1)
  {
    assert Landed(log[i]);
  }

  /** The loop's two exits, together, are the retry rule. */
  lemma RetryRule(a: Answer, request: nat)
    requires a.Failure?
    ensures Retries(a, request)
       <==> request < AttemptBound(a.kind) && !a.kind.BugShaped? && !(a.cancelled && !a.kind.RevisionConflict?)
  {
  }

  lemma LandedSnoc(log: seq<Answer>, a: Answer)
    ensures AnyLanded(log + [a]) <==> Landed(a) || AnyLanded(log)
  {
    hide Landed;
    assert (log + [a])[|log|] == a;
    if i :| 0 <= i < |log| && Landed(log[i]) {
      assert (log + [a])[i] == log[i];
    }
  }

  /** At most four requests, and a revision conflict from the third on is the last. */
  lemma RequestsBounded(log: seq<Answer>)
    requires IsAttemptLog(log)
    ensures 1 <= |log| <= TRANSPORT_ATTEMPTS
    ensures forall i :: REVISION_ATTEMPTS <= i + 1 <= |log| && log[i].Failure? && log[i].kind.RevisionConflict? ==>
              i == |log| - 1
    ensures forall i :: 0 <= i < |log| && (log[i].Success? || log[i].kind.BugShaped?) ==> i == |log| - 1
  {
    assert |log| > TRANSPORT_ATTEMPTS ==> Retries(log[TRANSPORT_ATTEMPTS - 1], TRANSPORT_ATTEMPTS);
  }
}
