/**
 * The MPPT charger bus (the mpptChg library is not part of this model) and
 * the short-circuit call chains both firmwares build on it:
 * `a() && b() && c()` or a sequence of `if (!x()) return false;`.
 *
 * A chain is described by the answers the charger WOULD give to each call if
 * asked; the calls after the first refusal are never issued.
 */
module Charger {
  /** Registers read with `getIndexedValue`. */
  datatype Value = VB | IB | VS | IS | IntTemp

  /** Configuration registers. */
  datatype Config = PowerOnThreshold | PowerOffThreshold

  /** One call issued to the charger. */
  datatype Op =
    | Begin
    | GetIndexedValue(value: Value)
    | GetStatusValue
    | IsNight
    | IsAlert
    | IsPowerEnabled
    | GetWatchdogEnable
    | GetWatchdogPoweroff
    | GetWatchdogTimeout
    | GetConfigurationValue(config: Config)
    | SetWatchdogPoweroff(seconds: int)
    | SetWatchdogTimeout(seconds: int)
    | SetWatchdogEnable(on: bool)
    | SetConfigurationValue(config: Config, millivolts: int)

  /** Index of the first refused call of a chain, or its length when every call succeeds. */
  function FirstFailure(answers: seq<bool>): (k: nat)
    ensures k <= |answers|
    ensures forall i :: 0 <= i < k ==> answers[i]
    ensures k < |answers| ==> !answers[k]
  {
    if answers == [] then 0
    else if !answers[0] then 0
    else 1 + FirstFailure(answers[1..])
  }

  /** The chain succeeds when no call is refused. */
  predicate Succeeds(answers: seq<bool>)
  {
    FirstFailure(answers) == |answers|
  }

  /** Number of calls issued: up to and including the first refusal. */
  function Evaluated(answers: seq<bool>): (n: nat)
    ensures n <= |answers|
    ensures Succeeds(answers) ==> n == |answers|
    ensures !Succeeds(answers) ==> n == FirstFailure(answers) + 1
  {
    if Succeeds(answers) then |answers| else FirstFailure(answers) + 1
  }

  /** The calls of `ops` that a chain issues, given the charger's answers. */
  function Issued(ops: seq<Op>, answers: seq<bool>): (r: seq<Op>)
    requires |answers| == |ops|
    ensures r <= ops
    ensures Succeeds(answers) ==> r == ops
  {
    ops[..Evaluated(answers)]
  }

  /** The first refusal is the first false answer. */
  lemma {:induction false} FirstFailureAt(answers: seq<bool>, i: nat)
    requires i < |answers| && !answers[i]
    requires forall j :: 0 <= j < i ==> answers[j]
    ensures FirstFailure(answers) == i
  {
    if i > 0 {
      FirstFailureAt(answers[1..], i - 1);
    }
  }

  /** A chain succeeds exactly when every answer is a success. */
  lemma {:induction false} SucceedsIffAll(answers: seq<bool>)
    ensures Succeeds(answers) <==> forall i :: 0 <= i < |answers| ==> answers[i]
  {
  }

  /** Appending one more call: the chain succeeds iff the prefix and the new call do. */
  lemma SucceedsSnoc(answers: seq<bool>, last: bool)
    ensures Succeeds(answers + [last]) <==> Succeeds(answers) && last
  {
    var all := answers + [last];
    SucceedsIffAll(answers);
    SucceedsIffAll(all);
    if Succeeds(answers) && last {
      forall i | 0 <= i < |all| ensures all[i] {
        if i < |answers| { assert all[i] == answers[i]; }
      }
    }
    if Succeeds(all) {
      assert all[|answers|] == last;
      forall i | 0 <= i < |answers| ensures answers[i] {
        assert all[i] == answers[i];
      }
    }
  }
}
