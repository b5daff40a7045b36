/** The sequential validator pipeline of the risk engine. */
module RiskPipeline {
  import opened Wrappers

  /** The checks of validate_signal, in the order in which the code reaches them. */
  datatype Check =
    | Age | KillSwitch | EntryBlock | Reconciliation | RiskData
    | Position | Exposure
    | Liquidity | SpreadGate | Sector
    | Margin | Slippage | DailyLoss

  /** What the validators answer for one signal; their bodies are not modelled. */
  datatype Inputs = Inputs(passes: Check -> bool, dataErrors: bool, paper: bool)

  /** Missing risk data stops a live signal and only warns about a paper one. */
  predicate LetsThrough(inputs: Inputs, check: Check) {
    if check == RiskData then inputs.dataErrors ==> inputs.paper else inputs.passes(check)
  }

  const CHECKS: seq<Check> := [
    Age, KillSwitch, EntryBlock, Reconciliation, RiskData, Position, Exposure,
    Liquidity, SpreadGate, Sector, Margin, Slippage, DailyLoss]

  /** What an approval has to mean: no check holds the signal back. */
  ghost predicate Approves(inputs: Inputs) {
    forall check: Check :: LetsThrough(inputs, check)
  }

  datatype Result = Result(check: Check, approved: bool)

  /**
   * The audit trail after a prefix of the checks: the in-memory kill switch leaves no
   * result, and the risk-data check leaves one only when reads failed.
   */
  function Trail(inputs: Inputs, checks: seq<Check>): seq<Result> {
    if checks == [] then []
    else
      var last := checks[|checks| - 1];
      Trail(inputs, checks[..|checks| - 1]) +
      if last == KillSwitch || (last == RiskData && !inputs.dataErrors) then []
      else [Result(last, LetsThrough(inputs, last))]
  }

  datatype Decision = Approved(results: seq<Result>) | Rejected(check: Check, results: seq<Result>)

  /** The results a rejection carries; two early rejections drop what came before. */
  function RejectionTrail(inputs: Inputs, k: nat): seq<Result>
    requires k < |CHECKS|
  {
    match CHECKS[k]
    case KillSwitch => []
    case EntryBlock => [Result(EntryBlock, false)]
    case _ => Trail(inputs, CHECKS[..k + 1])
  }

  /** All checks before `n` let the signal through. */
  predicate PassesTo(inputs: Inputs, n: nat)
    requires n <= |CHECKS|
  {
    forall j :: 0 <= j < n ==> LetsThrough(inputs, CHECKS[j])
  }

  /** The decision is the rejection by check `k`, the first that does not let the signal through. */
  ghost predicate RejectsAt(inputs: Inputs, decision: Decision, k: nat) {
    k < |CHECKS| && PassesTo(inputs, k) && !LetsThrough(inputs, CHECKS[k]) &&
    decision == Rejected(CHECKS[k], RejectionTrail(inputs, k))
  }

  ghost predicate Decides(inputs: Inputs, decision: Decision) {
    if decision.Approved?
    then PassesTo(inputs, |CHECKS|) && decision.results == Trail(inputs, CHECKS)
    else exists k :: RejectsAt(inputs, decision, k)
  }

  /** The approvals of some checks. */
  function Passed(checks: seq<Check>): (results: seq<Result>)
    ensures |results| == |checks|
  {
    seq(|checks|, i requires 0 <= i < |checks| => Result(checks[i], true))
  }

  class Validator {
    /** How often the daily-loss check has triggered the global kill switch. */
    var activations: nat

    constructor ()
      ensures activations == 0
    {
      activations := 0;
    }

    /** The checks up to the risk data: either a decision, or the trail to go on with. */
    method RunHead(inputs: Inputs) returns (stop: bool, decision: Decision, trail: seq<Result>)
      ensures stop ==> decision.Rejected? && decision.check != DailyLoss && exists k :: RejectsAt(inputs, decision, k)
      ensures !stop ==> PassesTo(inputs, 5) && trail == Trail(inputs, CHECKS[..5])
    {
      stop, decision, trail := true, Rejected(Age, [Result(Age, false)]), [Result(Age, inputs.passes(Age))];
      if !inputs.passes(Age) {
        FirstTrail(inputs);
        assert RejectsAt(inputs, decision, 0);
        return;
      }
      if !inputs.passes(KillSwitch) {
        decision := Rejected(KillSwitch, []);
        assert RejectsAt(inputs, decision, 1);
        return;
      }
      if !inputs.passes(EntryBlock) {
        decision := Rejected(EntryBlock, [Result(EntryBlock, false)]);
        assert RejectsAt(inputs, decision, 2);
        return;
      }
      trail := trail + [Result(EntryBlock, true)];
      trail := trail + [Result(Reconciliation, inputs.passes(Reconciliation))];
      HeadTrail(inputs);
      if !inputs.passes(Reconciliation) {
        decision := Rejected(Reconciliation, trail);
        assert RejectsAt(inputs, decision, 3);
        return;
      }
      if inputs.dataErrors {
        trail := trail + [Result(RiskData, inputs.paper)];
        if !inputs.paper {
          decision := Rejected(RiskData, trail);
          assert RejectsAt(inputs, decision, 4);
          return;
        }
      }
      stop := false;
    }

    /** One of the validator loops; stops at the first rejection. */
    method RunValidators(inputs: Inputs, validators: seq<Check>, results: seq<Result>)
      returns (trail: seq<Result>, n: nat)
      ensures n <= |validators| && (forall i :: 0 <= i < n ==> inputs.passes(validators[i]))
      ensures n < |validators| ==>
          !inputs.passes(validators[n]) && trail == results + Passed(validators[..n]) + [Result(validators[n], false)]
      ensures n == |validators| ==> trail == results + Passed(validators)
    {
      trail := results;
      n := 0;
      while n < |validators|
        invariant n <= |validators| && trail == results + Passed(validators[..n])
        invariant forall i :: 0 <= i < n ==> inputs.passes(validators[i])
      {
        trail := trail + [Result(validators[n], inputs.passes(validators[n]))];
        if !inputs.passes(validators[n]) { return; }
        assert Passed(validators[..n + 1]) == Passed(validators[..n]) + [Result(validators[n], true)];
        n := n + 1;
      }
      assert validators[..n] == validators;
    }

    /** The loop over the validators that stand in the pipeline from place `first` on. */
    method RunGroup(inputs: Inputs, validators: seq<Check>, results: seq<Result>, ghost first: nat)
      returns (trail: seq<Result>, n: nat)
      requires StandAt(validators, first) && Reached(inputs, first, results)
      ensures n <= |validators|
      ensures n < |validators| ==> RejectsAt(inputs, Rejected(validators[n], trail), first + n)
      ensures n == |validators| ==> Reached(inputs, first + n, trail)
    {
      trail, n := RunValidators(inputs, validators, results);
      GroupDecides(inputs, validators, results, first, n);
    }

    /**
     * validate_signal: APPROVED exactly when every check lets the signal through, and
     * otherwise the first check in order that does not is the one that rejects. Only a
     * rejection by the daily-loss check activates the kill switch.
     */
    method Validate(inputs: Inputs) returns (decision: Decision)
      modifies this
      ensures Decides(inputs, decision)
      ensures activations == old(activations) + if decision.Rejected? && decision.check == DailyLoss then 1 else 0
    {
      var stop, trail;
      stop, decision, trail := RunHead(inputs);
      if stop { return; }
      var n;
      var group := [Position, Exposure];
      trail, n := RunGroup(inputs, group, trail, 5);
      if n < |group| { return Rejected(group[n], trail); }
      group := [Liquidity, SpreadGate, Sector];
      trail, n := RunGroup(inputs, group, trail, 7);
      if n < |group| { return Rejected(group[n], trail); }
      group := [Margin, Slippage, DailyLoss];
      trail, n := RunGroup(inputs, group, trail, 10);
      if n < |group| {
        if group[n] == DailyLoss { activations := activations + 1; }
        return Rejected(group[n], trail);
      }
      assert CHECKS[..13] == CHECKS;
      decision := Approved(trail);
    }
  }

  lemma TrailGrows(inputs: Inputs, n: nat)
    requires 5 <= n < |CHECKS|
    ensures Trail(inputs, CHECKS[..n + 1]) ==
            Trail(inputs, CHECKS[..n]) + [Result(CHECKS[n], LetsThrough(inputs, CHECKS[n]))]
  {
    assert CHECKS[..n + 1][..n] == CHECKS[..n];
  }

  /** The validators stand in the pipeline from place `first` on. */
  ghost predicate StandAt(validators: seq<Check>, first: nat) {
    5 <= first && first + |validators| <= |CHECKS| &&
    forall i :: 0 <= i < |validators| ==> validators[i] == CHECKS[first + i]
  }

  lemma {:induction false} GroupReaches(inputs: Inputs, validators: seq<Check>, before: seq<Result>, first: nat, n: nat)
    requires StandAt(validators, first) && Reached(inputs, first, before) && n <= |validators|
    requires forall i :: 0 <= i < n ==> inputs.passes(validators[i])
    ensures Reached(inputs, first + n, before + Passed(validators[..n]))
    decreases n
  {
    if n == 0 {
      assert before + Passed(validators[..0]) == before;
    } else {
      var passed := before + Passed(validators[..n - 1]);
      GroupReaches(inputs, validators, before, first, n - 1);
      assert before + Passed(validators[..n]) == passed + [Result(validators[n - 1], true)];
      GroupStep(inputs, validators[n - 1], first + n - 1, passed);
    }
  }

  /** A group that let `n` checks through: the pass has come that far, or ends at the next one. */
  lemma GroupDecides(inputs: Inputs, validators: seq<Check>, before: seq<Result>, first: nat, n: nat)
    requires StandAt(validators, first) && Reached(inputs, first, before) && n <= |validators|
    requires forall i :: 0 <= i < n ==> inputs.passes(validators[i])
    ensures n == |validators| ==> Reached(inputs, first + n, before + Passed(validators))
    ensures n < |validators| && !inputs.passes(validators[n]) ==>
              var trail := before + Passed(validators[..n]) + [Result(validators[n], false)];
              RejectsAt(inputs, Rejected(validators[n], trail), first + n)
  {
    GroupReaches(inputs, validators, before, first, n);
    if n == |validators| {
      assert validators[..n] == validators;
    } else {
      GroupStep(inputs, validators[n], first + n, before + Passed(validators[..n]));
    }
  }

  lemma FirstTrail(inputs: Inputs)
    ensures Trail(inputs, CHECKS[..1]) == [Result(Age, inputs.passes(Age))]
  {
    assert CHECKS[..1] == [Age] && CHECKS[..1][..0] == [];
    assert Trail(inputs, CHECKS[..1][..0]) == [];
  }

  /** The pass has come to check `k` with this trail. */
  ghost predicate Reached(inputs: Inputs, k: nat, trail: seq<Result>) {
    k <= |CHECKS| && PassesTo(inputs, k) && trail == Trail(inputs, CHECKS[..k])
  }

  /** One validator of a group: the trail grows by its result, and the pass ends there or goes on. */
  lemma GroupStep(inputs: Inputs, check: Check, k: nat, before: seq<Result>)
    requires 5 <= k < |CHECKS| && check == CHECKS[k] && Reached(inputs, k, before)
    ensures var trail := before + [Result(check, inputs.passes(check))];
            if inputs.passes(check) then Reached(inputs, k + 1, trail)
            else RejectsAt(inputs, Rejected(check, trail), k)
  {
    assert CHECKS[k] !in {KillSwitch, EntryBlock, RiskData};
    TrailGrows(inputs, k);
  }

  /** The audit trail after the four checks that come before the context is built, and after the fifth. */
  lemma HeadTrail(inputs: Inputs)
    requires inputs.passes(Age) && inputs.passes(EntryBlock)
    ensures Trail(inputs, CHECKS[..4]) ==
            [Result(Age, true), Result(EntryBlock, true), Result(Reconciliation, inputs.passes(Reconciliation))]
    ensures Trail(inputs, CHECKS[..5]) ==
            Trail(inputs, CHECKS[..4]) + if inputs.dataErrors then [Result(RiskData, inputs.paper)] else []
  {
    assert CHECKS[..1] == [Age] && CHECKS[..1][..0] == [];
    assert CHECKS[..2][..1] == CHECKS[..1] && CHECKS[..3][..2] == CHECKS[..2];
    assert CHECKS[..4][..3] == CHECKS[..3] && CHECKS[..5][..4] == CHECKS[..4];
    assert Trail(inputs, CHECKS[..1]) == [Result(Age, true)];
    assert Trail(inputs, CHECKS[..2]) == [Result(Age, true)];
    assert Trail(inputs, CHECKS[..3]) == [Result(Age, true), Result(EntryBlock, true)];
  }

  /** Every result of an approving pass is an approval, and every check but the silent ones is in it. */
  lemma {:induction false} TrailOfPrefix(inputs: Inputs, n: nat)
    requires n <= |CHECKS| && PassesTo(inputs, n)
    ensures forall r :: r in Trail(inputs, CHECKS[..n]) ==> r.approved
    ensures forall j :: 0 <= j < n && CHECKS[j] != KillSwitch && CHECKS[j] != RiskData ==>
      Result(CHECKS[j], true) in Trail(inputs, CHECKS[..n])
  {
    if n > 0 {
      TrailOfPrefix(inputs, n - 1);
      assert CHECKS[..n][..n - 1] == CHECKS[..n - 1];
    }
  }

  /**
   * A decision approves exactly when all thirteen checks let the signal through, wherever
   * in the pipeline they stand, and its trail then holds approvals only.
   */
  lemma ApprovedMeansEveryCheck(inputs: Inputs, decision: Decision)
    requires Decides(inputs, decision)
    ensures decision.Approved? <==> Approves(inputs)
    ensures Approves(inputs) <==>
              (forall check: Check :: check != RiskData ==> inputs.passes(check)) &&
              (inputs.dataErrors ==> inputs.paper)
    ensures decision.Approved? ==> forall r :: r in decision.results ==> r.approved
    ensures decision.Rejected? ==> !LetsThrough(inputs, decision.check)
  {
    if Approves(inputs) {
      forall check: Check | check != RiskData ensures inputs.passes(check) { assert LetsThrough(inputs, check); }
      assert LetsThrough(inputs, RiskData);
    }
    if decision.Approved? {
      TrailOfPrefix(inputs, |CHECKS|);
      assert CHECKS[..|CHECKS|] == CHECKS;
      forall check: Check ensures LetsThrough(inputs, check) {
        var k := IndexOf(check);
        assert CHECKS[k] == check;
      }
    }
  }

  /** The check that stops the signal, read straight down the pipeline. */
  function Stopper(inputs: Inputs): Option<Check> {
    if !LetsThrough(inputs, Age) then Some(Age)
    else if !LetsThrough(inputs, KillSwitch) then Some(KillSwitch)
    else if !LetsThrough(inputs, EntryBlock) then Some(EntryBlock)
    else if !LetsThrough(inputs, Reconciliation) then Some(Reconciliation)
    else if !LetsThrough(inputs, RiskData) then Some(RiskData)
    else if !LetsThrough(inputs, Position) then Some(Position)
    else if !LetsThrough(inputs, Exposure) then Some(Exposure)
    else if !LetsThrough(inputs, Liquidity) then Some(Liquidity)
    else if !LetsThrough(inputs, SpreadGate) then Some(SpreadGate)
    else if !LetsThrough(inputs, Sector) then Some(Sector)
    else if !LetsThrough(inputs, Margin) then Some(Margin)
    else if !LetsThrough(inputs, Slippage) then Some(Slippage)
    else if !LetsThrough(inputs, DailyLoss) then Some(DailyLoss)
    else None
  }

  lemma IndexOfCheck(k: nat)
    requires k < |CHECKS|
    ensures IndexOf(CHECKS[k]) == k
  {
  }

  /** The pass gets past every check that stands before place k. */
  lemma PassesBefore(inputs: Inputs, k: nat)
    requires k <= |CHECKS| && PassesTo(inputs, k)
    ensures forall check: Check :: IndexOf(check) < k ==> LetsThrough(inputs, check)
  {
    forall check: Check | IndexOf(check) < k ensures LetsThrough(inputs, check) {
      assert CHECKS[IndexOf(check)] == check;
    }
  }

  lemma StoppedAt(inputs: Inputs, check: Check)
    requires !LetsThrough(inputs, check)
    requires forall before: Check :: IndexOf(before) < IndexOf(check) ==> LetsThrough(inputs, before)
    ensures Stopper(inputs) == Some(check)
  {
  }

  /** What the rejection by check `k` carries. */
  lemma RejectionCarries(inputs: Inputs, k: nat)
    requires k < |CHECKS| && PassesTo(inputs, k) && !LetsThrough(inputs, CHECKS[k])
    ensures var results := RejectionTrail(inputs, k);
            match CHECKS[k]
            case KillSwitch => results == []
            case EntryBlock => results == [Result(EntryBlock, false)]
            case _ =>
              |results| > 0 && results[|results| - 1] == Result(CHECKS[k], false) &&
              forall i :: 0 <= i < |results| - 1 ==> results[i].approved
  {
    TrailOfPrefix(inputs, k);
    assert CHECKS[..k + 1][..k] == CHECKS[..k];
  }

  /**
   * A pass decides by the first check that stops the signal. Its rejection carries nothing for
   * the kill switch and that one result for the entry block; for every other check it carries
   * the trail so far, in which all but the last result approve.
   */
  lemma DecidesByStopper(inputs: Inputs, decision: Decision)
    requires Decides(inputs, decision)
    ensures decision.Approved? <==> Stopper(inputs) == None
    ensures decision.Rejected? ==> Stopper(inputs) == Some(decision.check)
    ensures decision.Rejected? && decision.check in {KillSwitch, EntryBlock} ==>
              decision.results == if decision.check == KillSwitch then [] else [Result(EntryBlock, false)]
    ensures decision.Rejected? && decision.check !in {KillSwitch, EntryBlock} ==>
              var n := |decision.results| - 1;
              n >= 0 && decision.results[n] == Result(decision.check, false) &&
              forall i :: 0 <= i < n ==> decision.results[i].approved
  {
    if decision.Approved? {
      PassesBefore(inputs, |CHECKS|);
      assert forall check: Check :: LetsThrough(inputs, check);
    } else {
      var k: nat :| RejectsAt(inputs, decision, k);
      IndexOfCheck(k);
      PassesBefore(inputs, k);
      StoppedAt(inputs, decision.check);
      RejectionCarries(inputs, k);
    }
  }

  /** The fallback loop takes a rejection for a stale signal when its first result is the age check's. */
  predicate TakenForStale(decision: Decision) {
    |decision.results| > 0 && decision.results[0].check == Age
  }

  /**
   * The age check's own result heads the trail of almost every rejection, so the fallback
   * loop dead-letters as stale every rejected signal but those the kill switch or the entry
   * block stopped, whether or not it was stale.
   */
  lemma TakenForStaleExactly(inputs: Inputs, decision: Decision)
    requires Decides(inputs, decision) && decision.Rejected?
    ensures TakenForStale(decision) <==> decision.check != KillSwitch && decision.check != EntryBlock
  {
    var k: nat :| RejectsAt(inputs, decision, k);
    AgeHeadsTheTrail(inputs, k + 1);
  }

  lemma {:induction false} AgeHeadsTheTrail(inputs: Inputs, n: nat)
    requires 0 < n <= |CHECKS|
    ensures |Trail(inputs, CHECKS[..n])| > 0 && Trail(inputs, CHECKS[..n])[0].check == Age
  {
    if n == 1 {
      FirstTrail(inputs);
    } else {
      AgeHeadsTheTrail(inputs, n - 1);
      assert CHECKS[..n][..n - 1] == CHECKS[..n - 1];
    }
  }

  function IndexOf(check: Check): (k: nat)
    ensures k < |CHECKS| && CHECKS[k] == check
  {
    match check
    case Age => 0
    case KillSwitch => 1
    case EntryBlock => 2
    case Reconciliation => 3
    case RiskData => 4
    case Position => 5
    case Exposure => 6
    case Liquidity => 7
    case SpreadGate => 8
    case Sector => 9
    case Margin => 10
    case Slippage => 11
    case DailyLoss => 12
  }
}
