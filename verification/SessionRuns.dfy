/** Runs cut in two, and what a run can never take back from the history. */
module SessionRuns {
  import opened Options
  import opened KeyValueStore
  import opened SessionOperations
  import opened SessionLedger
  import opened SessionRefinement

  function StoreAfter(st: Store, ops: seq<Operation>, i: nat): Store
    requires i <= |ops|
  {
    Run(st, ops[..i]).0
  }

  lemma RunUnfolds(st: Store, op: Operation, rest: seq<Operation>)
    ensures Run(st, [op] + rest).0 == Run(Do(st, op).0, rest).0
    ensures Run(st, [op] + rest).1 == [Do(st, op).1] + Run(Do(st, op).0, rest).1
  {
    assert ([op] + rest)[0] == op && ([op] + rest)[1..] == rest;
  }

  lemma {:induction false} StoreRunSplits(st: Store, before: seq<Operation>, after: seq<Operation>)
    ensures Run(st, before + after).0 == Run(Run(st, before).0, after).0
    ensures Run(st, before + after).1 == Run(st, before).1 + Run(Run(st, before).0, after).1
    decreases |before|
  {
    if before == [] {
      assert before + after == after;
    } else {
      var op, rest := before[0], before[1..];
      assert before == [op] + rest && before + after == [op] + (rest + after);
      RunUnfolds(st, op, rest + after);
      RunUnfolds(st, op, rest);
      StoreRunSplits(Do(st, op).0, rest, after);
    }
  }

  /** One step, then the rest. */
  lemma SpecRunUnfolds(led: Ledger, op: Operation, rest: seq<Operation>)
    requires led.Sound() && Admissible(led, op)
    ensures Spec(led, op).0.Sound()
    ensures AdmissibleRun(led, [op] + rest) <==> AdmissibleRun(Spec(led, op).0, rest)
    ensures AdmissibleRun(led, [op] + rest) ==>
              && SpecRun(led, [op] + rest).0 == SpecRun(Spec(led, op).0, rest).0
              && SpecRun(led, [op] + rest).1 == [Spec(led, op).1] + SpecRun(Spec(led, op).0, rest).1
  {
    SpecKeepsSound(led, op);
    assert ([op] + rest)[0] == op && ([op] + rest)[1..] == rest;
  }

  lemma {:induction false} SpecRunSplits(led: Ledger, before: seq<Operation>, after: seq<Operation>)
    requires led.Sound() && AdmissibleRun(led, before + after)
    ensures AdmissibleRun(led, before) && AdmissibleRun(SpecRun(led, before).0, after)
    ensures SpecRun(led, before + after).0 == SpecRun(SpecRun(led, before).0, after).0
    ensures SpecRun(led, before + after).1 == SpecRun(led, before).1 + SpecRun(SpecRun(led, before).0, after).1
    decreases |before|
  {
    if before == [] {
      assert before + after == after;
    } else {
      var op, rest := before[0], before[1..];
      assert before == [op] + rest && before + after == [op] + (rest + after);
      SpecRunUnfolds(led, op, rest + after);
      SpecRunUnfolds(led, op, rest);
      SpecRunSplits(Spec(led, op).0, rest, after);
    }
  }

  /** Two admissible runs, the second from where the first ends, make one. */
  lemma {:induction false} SpecRunJoins(led: Ledger, before: seq<Operation>, after: seq<Operation>)
    requires led.Sound() && AdmissibleRun(led, before) && AdmissibleRun(SpecRun(led, before).0, after)
    ensures AdmissibleRun(led, before + after)
    decreases |before|
  {
    if before == [] {
      assert before + after == after;
    } else {
      var op, rest := before[0], before[1..];
      assert before == [op] + rest && before + after == [op] + (rest + after);
      SpecRunUnfolds(led, op, rest);
      SpecRunJoins(Spec(led, op).0, rest, after);
      SpecRunUnfolds(led, op, rest + after);
    }
  }

  lemma RunSplits(st: Store, led: Ledger, before: seq<Operation>, after: seq<Operation>)
    requires led.Sound() && AdmissibleRun(led, before + after)
    ensures AdmissibleRun(led, before) && AdmissibleRun(SpecRun(led, before).0, after)
    ensures SpecRun(led, before + after).0 == SpecRun(SpecRun(led, before).0, after).0
    ensures SpecRun(led, before + after).1 == SpecRun(led, before).1 + SpecRun(SpecRun(led, before).0, after).1
    ensures Run(st, before + after).0 == Run(Run(st, before).0, after).0
    ensures Run(st, before + after).1 == Run(st, before).1 + Run(Run(st, before).0, after).1
  {
    StoreRunSplits(st, before, after);
    SpecRunSplits(led, before, after);
  }

  /** The state and the history just before the `i`-th operation of a run, and that operation's reply. */
  lemma RunAt(st: Store, led: Ledger, ops: seq<Operation>, i: nat)
    requires Agrees(st, led) && AdmissibleRun(led, ops) && i < |ops|
    ensures AdmissibleRun(led, ops[..i]) && Admissible(SpecRun(led, ops[..i]).0, ops[i])
    ensures Agrees(StoreAfter(st, ops, i), SpecRun(led, ops[..i]).0)
    ensures AdmissibleRun(SpecRun(led, ops[..i]).0, ops[i..])
    ensures Run(st, ops).1[i] == Do(StoreAfter(st, ops, i), ops[i]).1
    ensures Run(st, ops).1[i] == Spec(SpecRun(led, ops[..i]).0, ops[i]).1
    ensures AdmissibleRun(led, ops[..i + 1])
    ensures SpecRun(led, ops[..i + 1]).0 == Spec(SpecRun(led, ops[..i]).0, ops[i]).0
    ensures StoreAfter(st, ops, i + 1) == Do(StoreAfter(st, ops, i), ops[i]).0
  {
    assert ops == ops[..i] + ops[i..];
    RunSplits(st, led, ops[..i], ops[i..]);
    RunRefines(st, led, ops[..i]);
    StepRefines(StoreAfter(st, ops, i), SpecRun(led, ops[..i]).0, ops[i]);
    assert ops == ops[..i + 1] + ops[i + 1..];
    RunSplits(st, led, ops[..i + 1], ops[i + 1..]);
    assert ops[..i + 1] == ops[..i] + [ops[i]];
    RunSplits(st, led, ops[..i], [ops[i]]);
    assert [ops[i]][1..] == [];
  }

  /** Histories only grow: logins keep their user, chains keep their prefix, places and revocations stay. */
  ghost predicate Grows(led: Ledger, next: Ledger) {
    && led.revoked <= next.revoked
    && led.now <= next.now
    && (forall t <- led.places :: t in next.places && next.places[t] == led.places[t])
    && (forall f <- led.logins :: f in next.logins && next.logins[f].user == led.logins[f].user
                                  && led.logins[f].chain <= next.logins[f].chain)
  }

  lemma ExtendGrows(led: Ledger, f: FamilyId, login: LoginRecord, pair: SessionPair)
    requires Extensible(led, f, login) && led.FreshPair(pair)
    ensures Grows(led, led.Extend(f, login, pair))
  {
  }

  lemma StepGrows(led: Ledger, op: Operation)
    requires led.Sound() && Admissible(led, op)
    ensures Grows(led, Spec(led, op).0)
  {
    match op
    case Login(user, client, family, pair) => ExtendGrows(led, family, LoginRecord(user, client, []), pair);
    case Rotate(token, pair) =>
      if Spec(led, op).1.Issued? {
        var f := led.places[token].family;
        ExtendGrows(led, f, led.logins[f], pair);
      }
    case _ =>
  }

  lemma {:induction false} RunGrows(led: Ledger, ops: seq<Operation>)
    requires led.Sound() && AdmissibleRun(led, ops)
    ensures Grows(led, SpecRun(led, ops).0)
    decreases |ops|
  {
    if ops != [] {
      StepGrows(led, ops[0]);
      SpecKeepsSound(led, ops[0]);
      RunGrows(Spec(led, ops[0]).0, ops[1..]);
    }
  }

  lemma GrowsPast(led: Ledger, before: seq<Operation>, after: seq<Operation>)
    requires led.Sound() && AdmissibleRun(led, before + after)
    ensures AdmissibleRun(led, before)
    ensures Grows(SpecRun(led, before).0, SpecRun(led, before + after).0)
  {
    SpecRunSplits(led, before, after);
    RunGrows(SpecRun(led, before).0, after);
  }

  lemma PrefixIsAdmissible(led: Ledger, ops: seq<Operation>, j: nat)
    requires led.Sound() && AdmissibleRun(led, ops) && j <= |ops|
    ensures AdmissibleRun(led, ops[..j])
  {
    assert ops == ops[..j] + ops[j..];
    SpecRunSplits(led, ops[..j], ops[j..]);
  }

  /** Between two moments of one run the history grows. */
  lemma RunGrowsBetween(led: Ledger, ops: seq<Operation>, i: nat, j: nat)
    requires led.Sound() && AdmissibleRun(led, ops) && i <= j <= |ops|
    ensures AdmissibleRun(led, ops[..i]) && AdmissibleRun(led, ops[..j])
    ensures Grows(SpecRun(led, ops[..i]).0, SpecRun(led, ops[..j]).0)
  {
    PrefixIsAdmissible(led, ops, j);
    assert ops[..j] == ops[..i] + ops[i..j];
    GrowsPast(led, ops[..i], ops[i..j]);
  }
}
