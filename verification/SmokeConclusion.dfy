/**
  The formal smoke conclusion: one verdict over five fact lists. `FormalConclusion` is the
  classifier as coded, with its sets, length tests and last-wins stage dictionaries;
  `PassFacts` and `InconclusiveFacts` say, without any of those, what the verdict means.
 */
module SmokeConclusion {

  const FORMAL_RUN_ID := "phase16-official-smoke-v1"
  const REQUIRED_CASE_COUNT := 10
  const REQUIRED_CALL_COUNT := 20
  const ANALYST := "ANALYST"
  const PLANNER := "PLANNER"

  type Key = (string, string)

  datatype Receipt = Receipt(caseId: string, stage: string, cost: real)
  datatype Validation = Validation(caseId: string, stage: string, verdict: string)
  datatype Outcome = Outcome(caseId: string, status: string)
  datatype Attempt = Attempt(caseId: string, stage: string, hasReceipt: bool, hasValidation: bool)

  datatype Snapshot = Snapshot(
    runId: string,
    totalBudget: real,
    historicalSpend: real,
    slots: int,
    maximumExposure: real,
    receipts: seq<Receipt>,
    validations: seq<Validation>,
    outcomes: seq<Outcome>,
    claims: seq<string>,
    attempts: seq<Attempt>,
    authenticated: set<string>)

  datatype Verdict = Pass | Inconclusive | Failed

  // ---------------------------------------------------------------- the classifier

  function SetOf<T>(items: seq<T>): set<T> {
    set x | x in items
  }

  function AttemptKey(a: Attempt): Key { (a.caseId, a.stage) }

  function ReceiptKey(r: Receipt): Key { (r.caseId, r.stage) }

  function ValidationKey(v: Validation): Key { (v.caseId, v.stage) }

  function CaseOf(o: Outcome): string { o.caseId }

  function Each<T, U>(items: seq<T>, f: T -> U): seq<U> {
    seq(|items|, i requires 0 <= i < |items| => f(items[i]))
  }

  function ExpectedKeys(cases: set<string>): set<Key> {
    set c, stage | c in cases && stage in {ANALYST, PLANNER} :: (c, stage)
  }

  /** Every key once: what the length-against-set tests check. */
  predicate Distinct<T(==)>(items: seq<T>) {
    |SetOf(items)| == |items|
  }

  /** A dictionary by stage: of several entries of one stage the last wins. */
  function ByStage<T>(items: seq<T>, key: T -> Key): map<string, T> {
    if items == [] then map[]
    else ByStage(items[..|items| - 1], key)[key(items[|items| - 1]).1 := items[|items| - 1]]
  }

  function CostOf(receipts: seq<Receipt>): real {
    if receipts == [] then 0.0 else CostOf(receipts[..|receipts| - 1]) + receipts[|receipts| - 1].cost
  }

  /** What has been spent before the run and on the receipts it stored. */
  function ActualSpend(s: Snapshot): real {
    s.historicalSpend + CostOf(s.receipts)
  }

  predicate PassFactChainCoherent(s: Snapshot) {
    var cases := SetOf(s.claims);
    && Distinct(s.claims)
    && Distinct(Each(s.attempts, AttemptKey)) && Distinct(Each(s.receipts, ReceiptKey))
    && Distinct(Each(s.validations, ValidationKey)) && Distinct(Each(s.outcomes, CaseOf))
    && SetOf(Each(s.attempts, AttemptKey)) == ExpectedKeys(cases)
    && SetOf(Each(s.receipts, ReceiptKey)) == ExpectedKeys(cases)
    && SetOf(Each(s.validations, ValidationKey)) == ExpectedKeys(cases)
    && SetOf(Each(s.outcomes, CaseOf)) == cases
    && (forall i | 0 <= i < |s.attempts| :: s.attempts[i].hasReceipt && s.attempts[i].hasValidation)
  }

  predicate NoFormalFacts(s: Snapshot) {
    s.claims == [] && s.attempts == [] && s.receipts == [] && s.validations == [] && s.outcomes == []
  }

  predicate ValidEmptyPreSendRun(s: Snapshot) {
    && NoFormalFacts(s)
    && s.runId == FORMAL_RUN_ID
    && s.slots == REQUIRED_CASE_COUNT
    && s.maximumExposure <= s.totalBudget
  }

  predicate SingleBlockedCase(s: Snapshot) {
    var cases := SetOf(s.claims);
    && |s.claims| == 1 && |cases| == 1
    && |s.outcomes| == 1 && s.outcomes[0].status == "BLOCKED" && s.outcomes[0].caseId in cases
    && (forall i | 0 <= i < |s.attempts| :: s.attempts[i].caseId in cases)
    && (forall i | 0 <= i < |s.validations| :: s.validations[i].caseId in cases)
    && (forall i | 0 <= i < |s.receipts| :: s.receipts[i].caseId in cases)
    && Distinct(Each(s.attempts, AttemptKey)) && Distinct(Each(s.validations, ValidationKey))
    && (forall i | 0 <= i < |s.attempts| :: s.attempts[i].hasValidation)
    && |s.receipts| <= 1
  }

  predicate OneAnalystReceipt(s: Snapshot) {
    |s.receipts| == 1 && s.receipts[0].stage == ANALYST
  }

  predicate StoppedBeforeDispatch(s: Snapshot) {
    s.attempts == [] && s.validations == [] && s.receipts == []
  }

  predicate AnalystNotSent(s: Snapshot) {
    var attempts, validations := ByStage(s.attempts, AttemptKey), ByStage(s.validations, ValidationKey);
    && attempts.Keys == {ANALYST} && validations.Keys == {ANALYST}
    && !attempts[ANALYST].hasReceipt && validations[ANALYST].verdict == "BLOCKED"
    && s.receipts == []
  }

  predicate PlannerNotCreated(s: Snapshot) {
    var attempts, validations := ByStage(s.attempts, AttemptKey), ByStage(s.validations, ValidationKey);
    && attempts.Keys == {ANALYST} && validations.Keys == {ANALYST}
    && attempts[ANALYST].hasReceipt && validations[ANALYST].verdict == "PASS"
    && OneAnalystReceipt(s)
  }

  predicate PlannerNotSent(s: Snapshot) {
    var attempts, validations := ByStage(s.attempts, AttemptKey), ByStage(s.validations, ValidationKey);
    && attempts.Keys == {ANALYST, PLANNER} && validations.Keys == {ANALYST, PLANNER}
    && attempts[ANALYST].hasReceipt && !attempts[PLANNER].hasReceipt
    && validations[ANALYST].verdict == "PASS" && validations[PLANNER].verdict == "BLOCKED"
    && OneAnalystReceipt(s)
  }

  predicate ValidPreSendBlockedChain(s: Snapshot) {
    && SingleBlockedCase(s)
    && (StoppedBeforeDispatch(s) || AnalystNotSent(s) || PlannerNotCreated(s) || PlannerNotSent(s))
  }

  predicate AllCasesPass(s: Snapshot) {
    && |s.outcomes| == REQUIRED_CASE_COUNT
    && (forall i | 0 <= i < |s.outcomes| :: s.outcomes[i].status == "PASS")
  }

  predicate AllCallsValid(s: Snapshot) {
    && |s.receipts| == REQUIRED_CALL_COUNT && |s.validations| == REQUIRED_CALL_COUNT
    && (forall i | 0 <= i < |s.validations| :: s.validations[i].verdict == "PASS")
  }

  function PassedCases(s: Snapshot): set<string> {
    set o | o in s.outcomes && o.status == "PASS" :: o.caseId
  }

  /** The source's last two branches return the same verdict and are one here. */
  function FormalConclusion(s: Snapshot): Verdict {
    if && s.slots == REQUIRED_CASE_COUNT
       && |s.claims| == REQUIRED_CASE_COUNT
       && |s.attempts| == REQUIRED_CALL_COUNT
       && PassFactChainCoherent(s)
       && AllCasesPass(s)
       && AllCallsValid(s)
       && s.authenticated == PassedCases(s)
       && ActualSpend(s) <= s.totalBudget
    then Pass
    else if ValidEmptyPreSendRun(s) || ValidPreSendBlockedChain(s) then Inconclusive
    else Failed
  }

  // ---------------------------------------------------------------- what the verdicts mean

  /** Each element of `all`, exactly once, in any order. */
  ghost predicate Enumerates<T>(items: seq<T>, all: set<T>) {
    multiset(items) == multiset(all)
  }

  /** One claim per case, and for each case one Analyst and one Planner call with its receipt and validation. */
  ghost predicate ChainEnumerates(s: Snapshot) {
    var cases := SetOf(s.claims);
    && Enumerates(s.claims, cases)
    && Enumerates(Each(s.attempts, AttemptKey), ExpectedKeys(cases))
    && Enumerates(Each(s.receipts, ReceiptKey), ExpectedKeys(cases))
    && Enumerates(Each(s.validations, ValidationKey), ExpectedKeys(cases))
    && Enumerates(Each(s.outcomes, CaseOf), cases)
    && (forall a | a in s.attempts :: a.hasReceipt && a.hasValidation)
  }

  ghost predicate PassEnumeration(s: Snapshot) {
    && s.slots == 10 && |SetOf(s.claims)| == 10
    && ChainEnumerates(s)
    && (forall v | v in s.validations :: v.verdict == "PASS")
    && (forall o | o in s.outcomes :: o.status == "PASS")
    && s.authenticated == SetOf(s.claims)
    && ActualSpend(s) <= s.totalBudget
  }

  /** Each claimed case has exactly one such item of either stage, and there are no others. */
  ghost predicate OnePerCall<T(!new)>(items: seq<T>, claims: seq<string>, caseOf: T -> string, stageOf: T -> string) {
    && (forall i | 0 <= i < |items| ::
         caseOf(items[i]) in claims && (stageOf(items[i]) == "ANALYST" || stageOf(items[i]) == "PLANNER"))
    && (forall c | c in claims ::
         && (exists i | 0 <= i < |items| :: caseOf(items[i]) == c && stageOf(items[i]) == "ANALYST")
         && (exists i | 0 <= i < |items| :: caseOf(items[i]) == c && stageOf(items[i]) == "PLANNER"))
    && (forall i, j | 0 <= i < j < |items| ::
         caseOf(items[i]) != caseOf(items[j]) || stageOf(items[i]) != stageOf(items[j]))
  }

  /** The receipts' costs added one by one to what had been spent. */
  function SpentFrom(spent: real, receipts: seq<Receipt>): real
    decreases receipts
  {
    if receipts == [] then spent else SpentFrom(spent + receipts[0].cost, receipts[1..])
  }

  /** What PASS means, on the facts themselves. */
  ghost predicate PassFacts(s: Snapshot) {
    && s.slots == 10
    && |s.claims| == 10 && (forall i, j | 0 <= i < j < 10 :: s.claims[i] != s.claims[j])
    && OnePerCall(s.attempts, s.claims, (a: Attempt) => a.caseId, (a: Attempt) => a.stage)
    && OnePerCall(s.receipts, s.claims, (r: Receipt) => r.caseId, (r: Receipt) => r.stage)
    && OnePerCall(s.validations, s.claims, (v: Validation) => v.caseId, (v: Validation) => v.stage)
    && (forall a | a in s.attempts :: a.hasReceipt && a.hasValidation)
    && (forall v | v in s.validations :: v.verdict == "PASS")
    && (forall o | o in s.outcomes :: o.caseId in s.claims && o.status == "PASS")
    && (forall c | c in s.claims :: exists o | o in s.outcomes :: o.caseId == c)
    && (forall i, j | 0 <= i < j < |s.outcomes| :: s.outcomes[i].caseId != s.outcomes[j].caseId)
    && (forall c :: c in s.authenticated <==> c in s.claims)
    && SpentFrom(s.historicalSpend, s.receipts) <= s.totalBudget
  }

  ghost predicate Facts(s: Snapshot, attempts: multiset<Attempt>, validations: multiset<Validation>) {
    multiset(s.attempts) == attempts && multiset(s.validations) == validations
  }

  ghost predicate OnlyAnalystReceived(s: Snapshot, c: string) {
    |s.receipts| == 1 && s.receipts[0].caseId == c && s.receipts[0].stage == "ANALYST"
  }

  /** Nothing of the one claimed case was sent, or only an Analyst call, and that one passed. */
  ghost predicate BlockedBeforeSending(s: Snapshot, c: string) {
    var analystUnsent := Attempt(c, "ANALYST", false, true);
    var analystSent := Attempt(c, "ANALYST", true, true);
    var plannerUnsent := Attempt(c, "PLANNER", false, true);
    var analystBlocked := Validation(c, "ANALYST", "BLOCKED");
    var analystPassed := Validation(c, "ANALYST", "PASS");
    var plannerBlocked := Validation(c, "PLANNER", "BLOCKED");
    && s.claims == [c] && s.outcomes == [Outcome(c, "BLOCKED")]
    && ((Facts(s, multiset{}, multiset{}) && s.receipts == [])
        || (Facts(s, multiset{analystUnsent}, multiset{analystBlocked}) && s.receipts == [])
        || (Facts(s, multiset{analystSent}, multiset{analystPassed}) && OnlyAnalystReceived(s, c))
        || (Facts(s, multiset{analystSent, plannerUnsent}, multiset{analystPassed, plannerBlocked})
            && OnlyAnalystReceived(s, c)))
  }

  /** Ten slots and the budget are reserved for the formal run, and nothing has been recorded yet. */
  ghost predicate PreparedAndEmpty(s: Snapshot) {
    && s.runId == "phase16-official-smoke-v1" && s.slots == 10 && s.maximumExposure <= s.totalBudget
    && |s.claims| + |s.attempts| + |s.receipts| + |s.validations| + |s.outcomes| == 0
  }

  ghost predicate InconclusiveFacts(s: Snapshot) {
    PreparedAndEmpty(s) || exists c :: BlockedBeforeSending(s, c)
  }

  // ---------------------------------------------------------------- counting

  lemma {:induction false} SetIsNoLarger<T>(items: seq<T>)
    ensures |SetOf(items)| <= |items|
    ensures |SetOf(items)| == |items| <==> forall x | x in items :: multiset(items)[x] == 1
  {
    if items == [] {
      assert SetOf(items) == {};
    } else {
      var n := |items| - 1;
      var rest, last := items[..n], items[n];
      assert items == rest + [last];
      SetIsNoLarger(rest);
      assert SetOf(items) == SetOf(rest) + {last};
      if last in rest {
        assert SetOf(items) == SetOf(rest);
        assert multiset(items)[last] >= 2;
      } else {
        assert multiset(items)[last] == 1;
        assert forall x | x in rest :: multiset(items)[x] == multiset(rest)[x];
        assert forall x :: x in items <==> x in rest || x == last;
      }
    }
  }

  lemma DistinctEnumerates<T>(items: seq<T>, all: set<T>)
    ensures Distinct(items) && SetOf(items) == all <==> Enumerates(items, all)
    ensures Enumerates(items, all) ==> |items| == |all|
  {
    SetIsNoLarger(items);
    if Distinct(items) && SetOf(items) == all {
      forall x ensures multiset(items)[x] == multiset(all)[x] {
        if x in items { assert x in SetOf(items); }
      }
    }
    if Enumerates(items, all) {
      assert |multiset(items)| == |multiset(all)|;
      forall x ensures x in SetOf(items) <==> x in all {
        assert x in items <==> x in multiset(items);
      }
      assert SetOf(items) == all;
    }
  }

  lemma ExpectedKeysDouble(cases: set<string>)
    ensures |ExpectedKeys(cases)| == 2 * |cases|
  {
    if cases == {} {
      assert ExpectedKeys(cases) == {};
    } else {
      var c :| c in cases;
      var rest := cases - {c};
      ExpectedKeysDouble(rest);
      assert ExpectedKeys(cases) == ExpectedKeys(rest) + {(c, ANALYST), (c, PLANNER)};
    }
  }

  lemma ChainMeansEnumeration(s: Snapshot)
    ensures PassFactChainCoherent(s) <==> ChainEnumerates(s)
    ensures ChainEnumerates(s) ==>
      var n := |SetOf(s.claims)|;
      && |s.claims| == |s.outcomes| == n
      && |s.attempts| == |s.receipts| == |s.validations| == 2 * n
      && SetOf(Each(s.outcomes, CaseOf)) == SetOf(s.claims)
  {
    var cases := SetOf(s.claims);
    DistinctEnumerates(s.claims, cases);
    DistinctEnumerates(Each(s.attempts, AttemptKey), ExpectedKeys(cases));
    DistinctEnumerates(Each(s.receipts, ReceiptKey), ExpectedKeys(cases));
    DistinctEnumerates(Each(s.validations, ValidationKey), ExpectedKeys(cases));
    DistinctEnumerates(Each(s.outcomes, CaseOf), cases);
    ExpectedKeysDouble(cases);
  }

  lemma PassedAreOutcomeCases(s: Snapshot)
    requires forall o | o in s.outcomes :: o.status == "PASS"
    ensures PassedCases(s) == SetOf(Each(s.outcomes, CaseOf))
  {
    var cases := Each(s.outcomes, CaseOf);
    forall c ensures c in PassedCases(s) <==> c in SetOf(cases) {
      if c in cases {
        var i :| 0 <= i < |cases| && cases[i] == c;
        assert CaseOf(s.outcomes[i]) == c && s.outcomes[i] in s.outcomes;
      }
      if c in PassedCases(s) {
        var o :| o in s.outcomes && o.caseId == c;
        var i :| 0 <= i < |s.outcomes| && s.outcomes[i] == o;
        assert cases[i] == CaseOf(o);
      }
    }
  }

  lemma PassIsEnumeration(s: Snapshot)
    ensures FormalConclusion(s) == Pass <==> PassEnumeration(s)
  {
    ChainMeansEnumeration(s);
    if forall o | o in s.outcomes :: o.status == "PASS" {
      PassedAreOutcomeCases(s);
    }
  }

  lemma NoRepeatIsDistinct<T>(items: seq<T>)
    ensures Distinct(items) <==> forall i, j | 0 <= i < j < |items| :: items[i] != items[j]
  {
    RepeatsBreakDistinct(items);
    SetIsNoLarger(items);
    if !Distinct(items) {
      var x :| x in items && multiset(items)[x] != 1;
      TwicePresent(items, x);
    }
  }

  lemma {:induction false} TwicePresent<T>(items: seq<T>, x: T)
    requires multiset(items)[x] > 1
    ensures exists i, j | 0 <= i < j < |items| :: items[i] == items[j]
  {
    var n := |items| - 1;
    assert items == items[..n] + [items[n]];
    if multiset(items[..n])[x] > 1 {
      TwicePresent(items[..n], x);
      var i, j :| 0 <= i < j < n && items[..n][i] == items[..n][j];
      assert items[i] == items[j];
    } else {
      assert x in multiset(items[..n]) && items[n] == x;
      var i :| 0 <= i < n && items[..n][i] == x;
      assert items[i] == items[n];
    }
  }

  lemma KeysCover<T(!new)>(
    items: seq<T>, claims: seq<string>, key: T -> Key, caseOf: T -> string, stageOf: T -> string)
    requires forall x :: key(x) == (caseOf(x), stageOf(x))
    ensures SetOf(Each(items, key)) == ExpectedKeys(SetOf(claims)) <==>
      && (forall i | 0 <= i < |items| ::
           caseOf(items[i]) in claims && (stageOf(items[i]) == "ANALYST" || stageOf(items[i]) == "PLANNER"))
      && (forall c | c in claims ::
           && (exists i | 0 <= i < |items| :: caseOf(items[i]) == c && stageOf(items[i]) == "ANALYST")
           && (exists i | 0 <= i < |items| :: caseOf(items[i]) == c && stageOf(items[i]) == "PLANNER"))
  {
    var keys, expected := SetOf(Each(items, key)), ExpectedKeys(SetOf(claims));
    KeysPresent(items, key, caseOf, stageOf);
    KeysExpected(claims);
    hide SetOf, Each, ExpectedKeys;
    forall i | 0 <= i < |items| ensures (caseOf(items[i]), stageOf(items[i])) in keys {
    }
    if keys == expected {
      forall c | c in claims ensures (c, "ANALYST") in keys && (c, "PLANNER") in keys {
      }
    } else {
      var k: Key :| k in keys <==> k !in expected;
      assert k == (k.0, k.1);
    }
  }

  lemma KeysPresent<T(!new)>(items: seq<T>, key: T -> Key, caseOf: T -> string, stageOf: T -> string)
    requires forall x :: key(x) == (caseOf(x), stageOf(x))
    ensures forall c, st :: (c, st) in SetOf(Each(items, key)) <==>
      exists i | 0 <= i < |items| :: caseOf(items[i]) == c && stageOf(items[i]) == st
  {
    var keys := Each(items, key);
    forall c, st
      ensures (c, st) in SetOf(keys) <==>
        exists i | 0 <= i < |items| :: caseOf(items[i]) == c && stageOf(items[i]) == st
    {
      if (c, st) in keys {
        var i :| 0 <= i < |keys| && keys[i] == (c, st);
        assert keys[i] == key(items[i]);
      }
      if i :| 0 <= i < |items| && caseOf(items[i]) == c && stageOf(items[i]) == st {
        assert keys[i] == key(items[i]);
      }
    }
  }

  lemma KeysExpected(claims: seq<string>)
    ensures forall c, st :: (c, st) in ExpectedKeys(SetOf(claims)) <==>
      c in claims && (st == "ANALYST" || st == "PLANNER")
  {
  }

  lemma OnePerCallIsEnumeration<T(!new)>(
    items: seq<T>, claims: seq<string>, key: T -> Key, caseOf: T -> string, stageOf: T -> string)
    requires forall x :: key(x) == (caseOf(x), stageOf(x))
    ensures Enumerates(Each(items, key), ExpectedKeys(SetOf(claims))) <==> OnePerCall(items, claims, caseOf, stageOf)
  {
    var keys := Each(items, key);
    DistinctEnumerates(keys, ExpectedKeys(SetOf(claims)));
    NoRepeatIsDistinct(keys);
    KeysCover(items, claims, key, caseOf, stageOf);
    hide ExpectedKeys, SetOf, Distinct, Enumerates;
    assert forall i, j | 0 <= i < j < |items| ::
      keys[i] != keys[j] <==> caseOf(items[i]) != caseOf(items[j]) || stageOf(items[i]) != stageOf(items[j]);
  }

  lemma OutcomesCover(s: Snapshot)
    ensures SetOf(Each(s.outcomes, CaseOf)) == SetOf(s.claims) <==>
      && (forall o | o in s.outcomes :: o.caseId in s.claims)
      && (forall c | c in s.claims :: exists o | o in s.outcomes :: o.caseId == c)
  {
    var cases := Each(s.outcomes, CaseOf);
    forall c ensures c in SetOf(cases) <==> exists o | o in s.outcomes :: o.caseId == c {
      if c in cases {
        var i :| 0 <= i < |cases| && cases[i] == c;
        assert CaseOf(s.outcomes[i]) == c && s.outcomes[i] in s.outcomes;
      }
      if o :| o in s.outcomes && o.caseId == c {
        var i :| 0 <= i < |s.outcomes| && s.outcomes[i] == o;
        assert cases[i] == CaseOf(o);
      }
    }
    forall c ensures c in SetOf(s.claims) <==> c in s.claims {
    }
    hide SetOf;
    if SetOf(cases) == SetOf(s.claims) {
      forall o | o in s.outcomes ensures o.caseId in s.claims {
        assert o.caseId in SetOf(cases);
      }
      forall c | c in s.claims ensures exists o | o in s.outcomes :: o.caseId == c {
        assert c in SetOf(cases);
      }
    }
  }

  lemma OneOutcomePerCase(s: Snapshot)
    ensures Enumerates(Each(s.outcomes, CaseOf), SetOf(s.claims)) <==>
      && (forall o | o in s.outcomes :: o.caseId in s.claims)
      && (forall c | c in s.claims :: exists o | o in s.outcomes :: o.caseId == c)
      && (forall i, j | 0 <= i < j < |s.outcomes| :: s.outcomes[i].caseId != s.outcomes[j].caseId)
  {
    var cases := Each(s.outcomes, CaseOf);
    OutcomesCover(s);
    DistinctEnumerates(cases, SetOf(s.claims));
    NoRepeatIsDistinct(cases);
    hide SetOf, Distinct, Enumerates;
    assert forall i | 0 <= i < |s.outcomes| :: cases[i] == s.outcomes[i].caseId;
  }

  lemma {:induction false} SpentIsSum(spent: real, receipts: seq<Receipt>)
    ensures SpentFrom(spent, receipts) == spent + CostOf(receipts)
    decreases receipts
  {
    if receipts != [] {
      SpentIsSum(spent + receipts[0].cost, receipts[1..]);
      CostSplits([receipts[0]], receipts[1..]);
      assert receipts == [receipts[0]] + receipts[1..];
      assert [receipts[0]][..0] == [];
    }
  }

  lemma ChainIsOnePerCall(s: Snapshot)
    ensures ChainEnumerates(s) <==>
      && (forall i, j | 0 <= i < j < |s.claims| :: s.claims[i] != s.claims[j])
      && OnePerCall(s.attempts, s.claims, (a: Attempt) => a.caseId, (a: Attempt) => a.stage)
      && OnePerCall(s.receipts, s.claims, (r: Receipt) => r.caseId, (r: Receipt) => r.stage)
      && OnePerCall(s.validations, s.claims, (v: Validation) => v.caseId, (v: Validation) => v.stage)
      && (forall o | o in s.outcomes :: o.caseId in s.claims)
      && (forall c | c in s.claims :: exists o | o in s.outcomes :: o.caseId == c)
      && (forall i, j | 0 <= i < j < |s.outcomes| :: s.outcomes[i].caseId != s.outcomes[j].caseId)
      && (forall a | a in s.attempts :: a.hasReceipt && a.hasValidation)
  {
    DistinctEnumerates(s.claims, SetOf(s.claims));
    NoRepeatIsDistinct(s.claims);
    OnePerCallIsEnumeration(s.attempts, s.claims, AttemptKey, (a: Attempt) => a.caseId, (a: Attempt) => a.stage);
    OnePerCallIsEnumeration(s.receipts, s.claims, ReceiptKey, (r: Receipt) => r.caseId, (r: Receipt) => r.stage);
    OnePerCallIsEnumeration(
      s.validations, s.claims, ValidationKey, (v: Validation) => v.caseId, (v: Validation) => v.stage);
    OneOutcomePerCase(s);
    hide OnePerCall, Enumerates, ExpectedKeys, SetOf, Distinct, Each, AttemptKey, ReceiptKey, ValidationKey, CaseOf;
  }

  /** PASS holds exactly of the passing facts; the separate length-20 tests follow from them. */
  lemma PassCharacterisation(s: Snapshot)
    ensures FormalConclusion(s) == Pass <==> PassFacts(s)
  {
    PassIsEnumeration(s);
    ChainIsOnePerCall(s);
    SpentIsSum(s.historicalSpend, s.receipts);
    DistinctEnumerates(s.claims, SetOf(s.claims));
    ClaimsAsSet(s);
    hide OnePerCall, ChainEnumerates, FormalConclusion, Enumerates, SetOf, SpentFrom, CostOf, Distinct;
  }

  lemma ClaimsAsSet(s: Snapshot)
    ensures s.authenticated == SetOf(s.claims) <==> forall c :: c in s.authenticated <==> c in s.claims
    ensures ChainEnumerates(s) ==> Enumerates(s.claims, SetOf(s.claims))
    ensures Enumerates(s.claims, SetOf(s.claims)) ==> |SetOf(s.claims)| == |s.claims|
  {
    DistinctEnumerates(s.claims, SetOf(s.claims));
    hide Enumerates, Distinct;
  }

  /** Money spent before the run counts: a PASS turns FAILED exactly when it leaves too little for the receipts. */
  lemma EarlierSpendDecides(s: Snapshot, earlier: real)
    requires FormalConclusion(s) == Pass
    ensures FormalConclusion(s.(historicalSpend := earlier))
      == if earlier > s.totalBudget - SpentFrom(0.0, s.receipts) then Failed else Pass
  {
    var t := s.(historicalSpend := earlier);
    PassCharacterisation(s);
    PassCharacterisation(t);
    SpentIsSum(0.0, s.receipts);
    SpentIsSum(earlier, s.receipts);
    hide OnePerCall, SpentFrom, CostOf, ActualSpend;
  }

  // ---------------------------------------------------------------- the blocked chain

  lemma {:induction false} ByStageEntries<T>(items: seq<T>, key: T -> Key)
    ensures forall x | x in items :: key(x).1 in ByStage(items, key)
    ensures forall st | st in ByStage(items, key) ::
      ByStage(items, key)[st] in items && key(ByStage(items, key)[st]).1 == st
  {
    if items != [] {
      var n := |items| - 1;
      ByStageEntries(items[..n], key);
      assert items == items[..n] + [items[n]];
    }
  }

  lemma KeysOfOneCase<T>(items: seq<T>, key: T -> Key, c: string)
    requires forall i | 0 <= i < |items| :: key(items[i]).0 == c
    ensures SetOf(Each(items, key)) == set st | st in ByStage(items, key) :: (c, st)
  {
    ByStageEntries(items, key);
    var keys := Each(items, key);
    forall k ensures k in SetOf(keys) <==> k in (set st | st in ByStage(items, key) :: (c, st)) {
      if k in keys {
        var i :| 0 <= i < |items| && keys[i] == k;
        assert items[i] in items;
      }
      if k in (set st | st in ByStage(items, key) :: (c, st)) {
        var i :| 0 <= i < |items| && items[i] == ByStage(items, key)[k.1];
        assert keys[i] == k;
      }
    }
  }

  /** With one case and distinct keys, a one-stage dictionary is a one-entry list. */
  lemma OneStage<T>(items: seq<T>, key: T -> Key, c: string, st: string)
    requires forall i | 0 <= i < |items| :: key(items[i]).0 == c
    ensures Distinct(Each(items, key)) && ByStage(items, key).Keys == {st} <==> |items| == 1 && key(items[0]) == (c, st)
    ensures |items| == 1 && key(items[0]) == (c, st) ==> ByStage(items, key) == map[st := items[0]]
  {
    KeysOfOneCase(items, key, c);
    ByStageEntries(items, key);
    if ByStage(items, key).Keys == {st} {
      assert SetOf(Each(items, key)) == {(c, st)};
    }
    if |items| == 1 && key(items[0]) == (c, st) {
      assert items[..0] == [];
      assert ByStage(items, key) == map[st := items[0]];
      assert SetOf(Each(items, key)) == {(c, st)};
    }
  }

  predicate PairOf<T>(items: seq<T>, key: T -> Key, a: Key, b: Key) {
    |items| == 2 && key(items[0]) == a && key(items[1]) == b
  }

  lemma PairByStage<T>(items: seq<T>, key: T -> Key, a: Key, b: Key)
    requires PairOf(items, key, a, b) && a.1 != b.1
    ensures ByStage(items, key) == map[a.1 := items[0], b.1 := items[1]]
    ensures Distinct(Each(items, key))
    ensures multiset(items) == multiset{items[0], items[1]}
  {
    assert items == [items[0], items[1]];
    assert items[..1][..0] == [];
    assert ByStage(items[..1], key) == map[a.1 := items[0]];
    assert Each(items, key) == [a, b];
    assert SetOf([a, b]) == {a, b};
  }

  lemma PairContents<T>(items: seq<T>, key: T -> Key, a: Key, b: Key)
    requires PairOf(items, key, a, b) && a.1 != b.1
    ensures a.1 in ByStage(items, key) && b.1 in ByStage(items, key)
    ensures var x, y := ByStage(items, key)[a.1], ByStage(items, key)[b.1];
      multiset(items) == multiset{x, y} && x in items && y in items && key(x) == a && key(y) == b
  {
    PairByStage(items, key, a, b);
    assert items[0] in items && items[1] in items;
  }

  lemma TwoKeysMakeAPair<T>(items: seq<T>, key: T -> Key, a: Key, b: Key)
    requires a != b && Distinct(Each(items, key)) && SetOf(Each(items, key)) == {a, b}
    ensures PairOf(items, key, a, b) || PairOf(items, key, b, a)
  {
    var keys := Each(items, key);
    assert |items| == |keys| == 2;
    assert keys == [keys[0], keys[1]];
    assert keys[0] in SetOf(keys) && keys[1] in SetOf(keys);
    assert a in keys && b in keys;
  }

  lemma OneElement<T>(items: seq<T>, x: T)
    ensures multiset(items) == multiset{x} <==> items == [x]
  {
    if multiset(items) == multiset{x} {
      assert |items| == |multiset(items)| == 1;
      assert items[0] in multiset(items);
    }
  }

  lemma TwoElements<T>(items: seq<T>, x: T, y: T)
    ensures multiset(items) == multiset{x, y} <==> items == [x, y] || items == [y, x]
  {
    if multiset(items) == multiset{x, y} {
      assert |items| == |multiset(items)| == 2;
      assert items == [items[0], items[1]];
      assert multiset{items[0], items[1]} == multiset{x, y};
      assert items[0] in multiset{x, y};
    }
  }

  lemma TwoStagesMakeAPair<T>(items: seq<T>, key: T -> Key, c: string, st: string, su: string)
    requires st != su && Distinct(Each(items, key))
    requires forall i | 0 <= i < |items| :: key(items[i]).0 == c
    requires ByStage(items, key).Keys == {st, su}
    ensures PairOf(items, key, (c, st), (c, su)) || PairOf(items, key, (c, su), (c, st))
  {
    KeysOfOneCase(items, key, c);
    assert SetOf(Each(items, key)) == {(c, st), (c, su)};
    TwoKeysMakeAPair(items, key, (c, st), (c, su));
  }

  /** With one case and distinct keys, the list holds the dictionary's two entries and nothing else. */
  lemma TwoStages<T>(items: seq<T>, key: T -> Key, c: string, st: string, su: string)
    requires st != su && Distinct(Each(items, key))
    requires forall i | 0 <= i < |items| :: key(items[i]).0 == c
    requires ByStage(items, key).Keys == {st, su}
    ensures var d := ByStage(items, key);
      && multiset(items) == multiset{d[st], d[su]} && d[st] in items && d[su] in items
      && key(d[st]) == (c, st) && key(d[su]) == (c, su)
  {
    TwoStagesMakeAPair(items, key, c, st, su);
    if PairOf(items, key, (c, st), (c, su)) {
      PairContents(items, key, (c, st), (c, su));
    } else {
      PairContents(items, key, (c, su), (c, st));
    }
  }

  lemma TwoContents<T>(items: seq<T>, key: T -> Key, x: T, y: T)
    requires multiset(items) == multiset{x, y} && key(x).1 != key(y).1
    ensures Distinct(Each(items, key)) && ByStage(items, key) == map[key(x).1 := x, key(y).1 := y]
    ensures forall i | 0 <= i < |items| :: items[i] == x || items[i] == y
  {
    TwoElements(items, x, y);
    if items == [x, y] { PairByStage(items, key, key(x), key(y)); }
    else { PairByStage(items, key, key(y), key(x)); }
  }

  lemma OneContent<T>(items: seq<T>, key: T -> Key, x: T)
    requires multiset(items) == multiset{x}
    ensures Distinct(Each(items, key)) && ByStage(items, key) == map[key(x).1 := x] && items == [x]
  {
    OneElement(items, x);
    OneStage(items, key, key(x).0, key(x).1);
  }

  lemma NoContent<T>(items: seq<T>, key: T -> Key)
    requires items == []
    ensures Distinct(Each(items, key))
  {
    assert SetOf(Each(items, key)) == {};
  }

  lemma ChainToFacts(s: Snapshot)
    requires ValidPreSendBlockedChain(s)
    ensures BlockedBeforeSending(s, s.claims[0])
  {
    var c := s.claims[0];
    assert SetOf(s.claims) == {c};
    if StoppedBeforeDispatch(s) {
      assert Facts(s, multiset{}, multiset{});
    } else if AnalystNotSent(s) || PlannerNotCreated(s) {
      OneStage(s.attempts, AttemptKey, c, ANALYST);
      OneStage(s.validations, ValidationKey, c, ANALYST);
      assert s.attempts == [s.attempts[0]] && s.validations == [s.validations[0]];
    } else {
      PlannerNotSentToFacts(s, c);
    }
  }

  lemma PlannerNotSentToFacts(s: Snapshot, c: string)
    requires SingleBlockedCase(s) && SetOf(s.claims) == {c} && PlannerNotSent(s)
    ensures Facts(s,
      multiset{Attempt(c, ANALYST, true, true), Attempt(c, PLANNER, false, true)},
      multiset{Validation(c, ANALYST, "PASS"), Validation(c, PLANNER, "BLOCKED")})
  {
    TwoStages(s.attempts, AttemptKey, c, ANALYST, PLANNER);
    TwoStages(s.validations, ValidationKey, c, ANALYST, PLANNER);
    assert forall a | a in s.attempts :: a.hasValidation;
  }

  lemma NothingSentIsAChain(s: Snapshot, c: string)
    requires s.claims == [c] && s.outcomes == [Outcome(c, "BLOCKED")]
    requires s.attempts == [] && s.validations == [] && s.receipts == []
    ensures ValidPreSendBlockedChain(s)
  {
    assert SetOf(s.claims) == {c};
    NoContent(s.attempts, AttemptKey);
    NoContent(s.validations, ValidationKey);
  }

  lemma AnalystOnlyIsAChain(s: Snapshot, c: string, a: Attempt, v: Validation)
    requires s.claims == [c] && s.outcomes == [Outcome(c, "BLOCKED")]
    requires Facts(s, multiset{a}, multiset{v})
    requires a.caseId == v.caseId == c && a.stage == v.stage == ANALYST && a.hasValidation
    requires if a.hasReceipt then v.verdict == "PASS" && OnlyAnalystReceived(s, c)
             else v.verdict == "BLOCKED" && s.receipts == []
    ensures ValidPreSendBlockedChain(s)
  {
    assert SetOf(s.claims) == {c};
    OneContent(s.attempts, AttemptKey, a);
    OneContent(s.validations, ValidationKey, v);
    if a.hasReceipt { assert PlannerNotCreated(s); } else { assert AnalystNotSent(s); }
  }

  lemma BothStagesAreAChain(s: Snapshot, c: string)
    requires s.claims == [c] && s.outcomes == [Outcome(c, "BLOCKED")]
    requires Facts(s,
      multiset{Attempt(c, ANALYST, true, true), Attempt(c, PLANNER, false, true)},
      multiset{Validation(c, ANALYST, "PASS"), Validation(c, PLANNER, "BLOCKED")})
    requires OnlyAnalystReceived(s, c)
    ensures ValidPreSendBlockedChain(s)
  {
    assert SetOf(s.claims) == {c};
    TwoContents(s.attempts, AttemptKey, Attempt(c, ANALYST, true, true), Attempt(c, PLANNER, false, true));
    TwoContents(s.validations, ValidationKey, Validation(c, ANALYST, "PASS"), Validation(c, PLANNER, "BLOCKED"));
    assert PlannerNotSent(s);
  }

  lemma FactsToChain(s: Snapshot, c: string)
    requires BlockedBeforeSending(s, c)
    ensures ValidPreSendBlockedChain(s)
  {
    if Facts(s, multiset{}, multiset{}) {
      assert |multiset(s.attempts)| == |s.attempts| && |multiset(s.validations)| == |s.validations|;
      NothingSentIsAChain(s, c);
    } else if Facts(s, multiset{Attempt(c, ANALYST, false, true)}, multiset{Validation(c, ANALYST, "BLOCKED")}) {
      AnalystOnlyIsAChain(s, c, Attempt(c, ANALYST, false, true), Validation(c, ANALYST, "BLOCKED"));
    } else if Facts(s, multiset{Attempt(c, ANALYST, true, true)}, multiset{Validation(c, ANALYST, "PASS")}) {
      AnalystOnlyIsAChain(s, c, Attempt(c, ANALYST, true, true), Validation(c, ANALYST, "PASS"));
    } else {
      BothStagesAreAChain(s, c);
    }
  }

  /** INCONCLUSIVE holds exactly of a fully prepared empty run or of one case blocked before sending. */
  lemma InconclusiveCharacterisation(s: Snapshot)
    ensures FormalConclusion(s) == Inconclusive <==> InconclusiveFacts(s)
  {
    if ValidPreSendBlockedChain(s) { ChainToFacts(s); }
    if exists c :: BlockedBeforeSending(s, c) {
      var c :| BlockedBeforeSending(s, c);
      FactsToChain(s, c);
    }
  }

  /** INCONCLUSIVE means nothing failed and at most one receipt, an Analyst's. */
  lemma InconclusiveMeansNothingFailed(s: Snapshot)
    requires FormalConclusion(s) == Inconclusive
    ensures forall v | v in s.validations :: v.verdict != "FAILED"
    ensures forall o | o in s.outcomes :: o.status == "BLOCKED"
    ensures |s.receipts| <= 1 && forall r | r in s.receipts :: r.stage == "ANALYST"
  {
    InconclusiveCharacterisation(s);
    if !PreparedAndEmpty(s) {
      var c :| BlockedBeforeSending(s, c);
      forall v | v in s.validations ensures v.verdict != "FAILED" {
        assert v in multiset(s.validations);
      }
    }
  }

  // ---------------------------------------------------------------- order and growth

  /** The same facts in any order. */
  ghost predicate SameFacts(s: Snapshot, t: Snapshot) {
    && multiset(s.claims) == multiset(t.claims) && multiset(s.attempts) == multiset(t.attempts)
    && multiset(s.receipts) == multiset(t.receipts) && multiset(s.validations) == multiset(t.validations)
    && multiset(s.outcomes) == multiset(t.outcomes)
    && s.(claims := [], attempts := [], receipts := [], validations := [], outcomes := [])
       == t.(claims := [], attempts := [], receipts := [], validations := [], outcomes := [])
  }

  lemma SameMembers<T>(a: seq<T>, b: seq<T>)
    requires multiset(a) == multiset(b)
    ensures forall x :: x in a <==> x in b
    ensures SetOf(a) == SetOf(b) && |a| == |b|
  {
    forall x ensures x in a <==> x in b {
      assert x in a <==> x in multiset(a);
      assert x in b <==> x in multiset(b);
    }
    assert |multiset(a)| == |a| && |multiset(b)| == |b|;
  }

  lemma SplitAt<T>(b: seq<T>, x: T) returns (left: seq<T>, right: seq<T>)
    requires x in b
    ensures b == left + [x] + right && multiset(left + right) == multiset(b) - multiset{x}
  {
    var k :| 0 <= k < |b| && b[k] == x;
    left, right := b[..k], b[k + 1..];
    assert b == left + [x] + right;
  }

  lemma EachSplits<T, U>(a: seq<T>, x: T, b: seq<T>, f: T -> U)
    ensures Each(a + [x] + b, f) == Each(a, f) + [f(x)] + Each(b, f)
    ensures Each(a + b, f) == Each(a, f) + Each(b, f)
  {
  }

  lemma {:induction false} EachKeepsMultiset<T, U>(a: seq<T>, b: seq<T>, f: T -> U)
    requires multiset(a) == multiset(b)
    ensures multiset(Each(a, f)) == multiset(Each(b, f))
  {
    SameMembers(a, b);
    if a != [] {
      var n := |a| - 1;
      assert a == a[..n] + [a[n]] + [];
      var left, right := SplitAt(b, a[n]);
      EachKeepsMultiset(a[..n], left + right, f);
      EachSplits(a[..n], a[n], [], f);
      EachSplits(left, a[n], right, f);
    } else {
      assert b == [];
    }
  }

  lemma {:induction false} CostSplits(a: seq<Receipt>, b: seq<Receipt>)
    ensures CostOf(a + b) == CostOf(a) + CostOf(b)
  {
    if b == [] {
      assert a + b == a;
    } else {
      var n := |b| - 1;
      assert (a + b)[..|a + b| - 1] == a + b[..n];
      CostSplits(a, b[..n]);
    }
  }

  lemma CostOfMiddle(a: seq<Receipt>, x: Receipt, b: seq<Receipt>)
    ensures CostOf(a + [x] + b) == CostOf(a + b) + x.cost
  {
    CostSplits(a + [x], b);
    CostSplits(a, [x]);
    CostSplits(a, b);
    assert [x][..0] == [];
  }

  lemma {:induction false} CostIgnoresOrder(a: seq<Receipt>, b: seq<Receipt>)
    requires multiset(a) == multiset(b)
    ensures CostOf(a) == CostOf(b)
  {
    SameMembers(a, b);
    if a != [] {
      var n := |a| - 1;
      assert a == a[..n] + [a[n]];
      var left, right := SplitAt(b, a[n]);
      CostIgnoresOrder(a[..n], left + right);
      CostOfMiddle(left, a[n], right);
    }
  }

  lemma ChainIgnoresOrder(s: Snapshot, t: Snapshot)
    requires SameFacts(s, t) && ChainEnumerates(s)
    ensures ChainEnumerates(t)
  {
    SameMembers(s.claims, t.claims);
    SameMembers(s.attempts, t.attempts);
    EachKeepsMultiset(s.attempts, t.attempts, AttemptKey);
    EachKeepsMultiset(s.receipts, t.receipts, ReceiptKey);
    EachKeepsMultiset(s.validations, t.validations, ValidationKey);
    EachKeepsMultiset(s.outcomes, t.outcomes, CaseOf);
  }

  lemma PassIgnoresOrder(s: Snapshot, t: Snapshot)
    requires SameFacts(s, t) && PassEnumeration(s)
    ensures PassEnumeration(t)
  {
    ChainIgnoresOrder(s, t);
    SameMembers(s.claims, t.claims);
    SameMembers(s.validations, t.validations);
    SameMembers(s.outcomes, t.outcomes);
    CostIgnoresOrder(s.receipts, t.receipts);
  }

  lemma InconclusiveIgnoresOrder(s: Snapshot, t: Snapshot)
    requires SameFacts(s, t) && InconclusiveFacts(s)
    ensures InconclusiveFacts(t)
  {
    if PreparedAndEmpty(s) {
      SameMembers(s.claims, t.claims);
      SameMembers(s.attempts, t.attempts);
      SameMembers(s.receipts, t.receipts);
      SameMembers(s.validations, t.validations);
      SameMembers(s.outcomes, t.outcomes);
    } else {
      var c :| BlockedBeforeSending(s, c);
      BlockedIgnoresOrder(s, t, c);
    }
  }

  lemma BlockedIgnoresOrder(s: Snapshot, t: Snapshot, c: string)
    requires SameFacts(s, t) && BlockedBeforeSending(s, c)
    ensures BlockedBeforeSending(t, c)
  {
    OneElement(t.claims, c);
    OneElement(t.outcomes, Outcome(c, "BLOCKED"));
    SameMembers(s.receipts, t.receipts);
    if s.receipts != [] {
      assert t.receipts == [s.receipts[0]] by { assert t.receipts[0] in s.receipts; }
    }
  }

  lemma SameFactsSymmetric(s: Snapshot, t: Snapshot)
    requires SameFacts(s, t)
    ensures SameFacts(t, s)
  {
  }

  /** Permuting any of the five lists never changes the conclusion, last-wins dictionaries notwithstanding. */
  lemma ConclusionIgnoresOrder(s: Snapshot, t: Snapshot)
    requires SameFacts(s, t)
    ensures FormalConclusion(s) == FormalConclusion(t)
  {
    SameFactsSymmetric(s, t);
    PassIsEnumeration(s);
    PassIsEnumeration(t);
    InconclusiveCharacterisation(s);
    InconclusiveCharacterisation(t);
    if PassEnumeration(s) { PassIgnoresOrder(s, t); }
    if PassEnumeration(t) { PassIgnoresOrder(t, s); }
    if InconclusiveFacts(s) { InconclusiveIgnoresOrder(s, t); }
    if InconclusiveFacts(t) { InconclusiveIgnoresOrder(t, s); }
  }

  /** Append-only growth of the ledger; the other fields may change at will. */
  predicate Extends(s: Snapshot, t: Snapshot) {
    && s.claims <= t.claims && s.attempts <= t.attempts && s.receipts <= t.receipts
    && s.validations <= t.validations && s.outcomes <= t.outcomes
  }

  predicate Repeats<T(==)>(items: seq<T>) {
    exists i, j | 0 <= i < j < |items| :: items[i] == items[j]
  }

  predicate Tainted(s: Snapshot) {
    || (exists v | v in s.validations :: v.verdict == "FAILED")
    || (exists o | o in s.outcomes :: o.status == "FAILED")
    || Repeats(s.claims) || Repeats(Each(s.outcomes, CaseOf))
    || Repeats(Each(s.attempts, AttemptKey)) || Repeats(Each(s.receipts, ReceiptKey))
    || Repeats(Each(s.validations, ValidationKey))
  }

  lemma RepeatsGrow<T, U>(a: seq<T>, b: seq<T>, f: T -> U)
    requires a <= b
    ensures Repeats(a) ==> Repeats(b)
    ensures Repeats(Each(a, f)) ==> Repeats(Each(b, f))
  {
    if Repeats(Each(a, f)) {
      var i, j :| 0 <= i < j < |a| && Each(a, f)[i] == Each(a, f)[j];
      assert Each(b, f)[i] == Each(b, f)[j];
    }
  }

  lemma TaintGrows(s: Snapshot, t: Snapshot)
    requires Tainted(s) && Extends(s, t)
    ensures Tainted(t)
  {
    RepeatsGrow(s.claims, t.claims, (c: string) => c);
    RepeatsGrow(s.outcomes, t.outcomes, CaseOf);
    RepeatsGrow(s.attempts, t.attempts, AttemptKey);
    RepeatsGrow(s.receipts, t.receipts, ReceiptKey);
    RepeatsGrow(s.validations, t.validations, ValidationKey);
  }

  lemma RepeatsBreakDistinct<T>(items: seq<T>)
    ensures Repeats(items) ==> !Distinct(items)
  {
    if Repeats(items) {
      var i, j :| 0 <= i < j < |items| && items[i] == items[j];
      var left, right := items[..j], items[j..];
      assert items == left + right && left[i] in left && right[0] in right;
      assert multiset(items)[items[i]] == multiset(left)[items[i]] + multiset(right)[items[i]] >= 2;
      SetIsNoLarger(items);
    }
  }

  lemma TaintedFails(s: Snapshot)
    requires Tainted(s)
    ensures FormalConclusion(s) == Failed
  {
    if FormalConclusion(s) == Pass {
      RepeatsBreakDistinct(s.claims);
      RepeatsBreakDistinct(Each(s.outcomes, CaseOf));
      RepeatsBreakDistinct(Each(s.attempts, AttemptKey));
      RepeatsBreakDistinct(Each(s.receipts, ReceiptKey));
      RepeatsBreakDistinct(Each(s.validations, ValidationKey));
    } else if FormalConclusion(s) == Inconclusive {
      InconclusiveMeansNothingFailed(s);
      if !ValidEmptyPreSendRun(s) {
        RepeatsBreakDistinct(Each(s.attempts, AttemptKey));
        RepeatsBreakDistinct(Each(s.validations, ValidationKey));
      }
    }
  }

  /** A FAILED validation, a FAILED outcome or any repeated key keeps every append-only extension FAILED. */
  lemma TaintIsForever(s: Snapshot, t: Snapshot)
    requires Tainted(s) && Extends(s, t)
    ensures FormalConclusion(t) == Failed
  {
    TaintGrows(s, t);
    TaintedFails(t);
  }
}
