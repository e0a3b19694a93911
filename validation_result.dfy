/**
 * The validation result the validators hand back: a state and a condition. The result is
 * built optimistically as succeeded and changed in place when validation fails.
 */
module ValidationResults {

  datatype ValidationState = ValidationSucceeded | ValidationFailed

  /** The Kubernetes condition status; the validators only use True and False. */
  datatype ConditionStatus = ConditionTrue | ConditionFalse

  /** The prefix of every validation rule identifier. */
  const ValidationRulePrefix := "validation"

  /** The validation types of the two validators. */
  const ValidationTypeRoleAssignment := "azure-role-assignment"
  const ValidationTypeRBAC := "azure-rbac"

  /** The identifier of a validation rule: the prefix, a dash, then the given tag. */
  function RuleIdentifier(tag: string): (id: string)
    ensures |id| == |ValidationRulePrefix| + 1 + |tag|
    ensures id[..|ValidationRulePrefix| + 1] == ValidationRulePrefix + "-"
    ensures id[|ValidationRulePrefix| + 1..] == tag
  {
    ValidationRulePrefix + "-" + tag
  }

  /** Different labels give different identifiers. */
  lemma RuleIdentifierInjective(a: string, b: string)
    requires RuleIdentifier(a) == RuleIdentifier(b)
    ensures a == b
  {
    assert a == RuleIdentifier(a)[|ValidationRulePrefix| + 1..];
  }

  /** The observable part of a validation result: its state and its condition's fields. */
  datatype Outcome = Outcome(
    state: ValidationState,
    validationType: string,
    validationRule: string,
    message: string,
    details: seq<string>,
    failures: seq<string>,
    status: ConditionStatus)

  /**
   * A default condition (status True, every string and list empty) under the succeeded state.
   * The condition's timestamp is not modelled.
   */
  function DefaultOutcome(): Outcome
  {
    Outcome(ValidationSucceeded, "", "", "", [], [], ConditionTrue)
  }

  /** A validation result, whose state and condition the validators update in place. */
  class ValidationResult {
    var state: ValidationState
    var validationType: string
    var validationRule: string
    var message: string
    var details: seq<string>
    var failures: seq<string>
    var status: ConditionStatus

    /** The result's fields as a value. */
    function View(): Outcome
      reads this
    {
      Outcome(state, validationType, validationRule, message, details, failures, status)
    }

    constructor (o: Outcome)
      ensures View() == o
    {
      state := o.state;
      validationType := o.validationType;
      validationRule := o.validationRule;
      message := o.message;
      details := o.details;
      failures := o.failures;
      status := o.status;
    }
  }
}
