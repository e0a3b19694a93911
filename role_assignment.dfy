/**
 * The role assignment validator: does a service principal hold one given role somewhere in a
 * subscription? It drains the subscription's role assignment pager, resolves the role to its
 * name, and looks for an assignment of that role.
 */
module RoleAssignmentValidator {
  import opened Wrappers
  import opened GoFormat
  import opened AzureValidatorTypes
  import opened AzureData
  import opened ValidationResults

  /** What the validator needs of a rule: one role, the principal and the subscription. */
  datatype SingleRoleRule = SingleRoleRule(role: Role, servicePrincipalID: string, subscriptionID: string)

  /**
   * The service's view of the role assignments API: for a principal ID (the filter of the
   * request), the pages the subscription pager yields, in order.
   */
  datatype RoleAssignmentRuleService = RoleAssignmentRuleService(listForSubscriptionPages: string -> seq<Page>)

  const PagerErrorContext := "failed to retrieve next page of role assignment results from pager"
  const LookupMapErrorContext := "failed to get role lookup map"
  const MalformedAssignment := Malformed("data from Azure API response malformed; missing Properties.RoleDefinitionID")

  const FoundMessage := "Required role assignment was found."
  const NoAssignmentsMessage := "No role assignments found."
  const UnknownRoleNameMessage := "Role name specified does not exist. Cannot validate."
  const NoIdentifierMessage := "Neither role name nor name specified. Cannot validate."
  const NotFoundMessage := "Desired role assignment not found."

  // ---------------------------------------------------------------------------------------
  // Draining the pager

  /**
   * The assignments of the pages read so far, in page order, or the first page error
   * (wrapped). Once a page fails, no later page changes the outcome.
   */
  function Drained(pages: seq<Page>): Result<seq<RoleAssignment>, Error>
  {
    if pages == [] then Success([])
    else
      var prior := Drained(pages[..|pages| - 1]);
      if prior.Failure? then prior
      else
        match pages[|pages| - 1]
        case PageFailure(e) => Failure(Wrapped(PagerErrorContext, e))
        case PageOk(v) => Success(prior.value + PageValues(v))
  }

  /**
   * Draining two runs of pages one after the other: the first run's error wins and the second
   * run is then never looked at; otherwise an error of the second run, or the two runs'
   * assignments concatenated in order.
   */
  lemma {:induction false} DrainedSplit(p: seq<Page>, q: seq<Page>)
    ensures Drained(p + q) ==
      match Drained(p)
      case Failure(e) => Failure(e)
      case Success(a) =>
        match Drained(q)
        case Failure(e) => Failure(e)
        case Success(b) => Success(a + b)
  {
    if q == [] {
      assert p + q == p;
      if Drained(p).Success? {
        assert Drained(p).value + [] == Drained(p).value;
      }
    } else {
      var q' := q[..|q| - 1];
      assert (p + q)[..|p + q| - 1] == p + q';
      assert (p + q)[|p + q| - 1] == q[|q| - 1];
      DrainedSplit(p, q');
      if Drained(p).Success? && Drained(q').Success? && q[|q| - 1].PageOk? {
        assert Drained(p).value + Drained(q').value + PageValues(q[|q| - 1].value)
            == Drained(p).value + (Drained(q').value + PageValues(q[|q| - 1].value));
      }
    }
  }

  /** The first page that fails decides the outcome: its error, wrapped, whatever follows. */
  lemma DrainedFirstError(pages: seq<Page>, k: nat)
    requires k < |pages| && pages[k].PageFailure?
    requires forall j :: 0 <= j < k ==> pages[j].PageOk?
    ensures Drained(pages) == Failure(Wrapped(PagerErrorContext, pages[k].error))
  {
    DrainedAllOk(pages[..k]);
    assert pages[..k + 1][..k] == pages[..k];
    DrainedSplit(pages[..k + 1], pages[k + 1..]);
    assert pages[..k + 1] + pages[k + 1..] == pages;
  }

  /** Pages that all succeed drain to success. */
  lemma {:induction false} DrainedAllOk(pages: seq<Page>)
    requires forall j :: 0 <= j < |pages| ==> pages[j].PageOk?
    ensures Drained(pages).Success?
  {
    if pages != [] {
      DrainedAllOk(pages[..|pages| - 1]);
    }
  }

  /** A page whose list is nil contributes nothing, wherever it stands. */
  lemma NilPageContributesNothing(p: seq<Page>, q: seq<Page>)
    ensures Drained(p + [PageOk(None)] + q) == Drained(p + q)
  {
    DrainedSplit(p + [PageOk(None)], q);
    DrainedSplit(p, q);
    assert (p + [PageOk(None)])[..|p|] == p;
    if Drained(p).Success? {
      assert Drained(p).value + [] == Drained(p).value;
    }
  }

  /** Reads the pager to its end, stopping at the first page that fails. */
  method DrainPages(pages: seq<Page>) returns (r: Result<seq<RoleAssignment>, Error>)
    ensures r == Drained(pages)
  {
    var found: seq<RoleAssignment> := [];
    var i := 0;
    while i < |pages|
      invariant 0 <= i <= |pages|
      invariant Drained(pages[..i]) == Success(found)
    {
      assert pages[..i + 1][..i] == pages[..i];
      match pages[i]
      case PageFailure(e) =>
        r := Failure(Wrapped(PagerErrorContext, e));
        DrainedSplit(pages[..i + 1], pages[i + 1..]);
        assert pages[..i + 1] + pages[i + 1..] == pages;
        return;
      case PageOk(v) =>
        found := found + PageValues(v);
      i := i + 1;
    }
    assert pages[..i] == pages;
    r := Success(found);
  }

  // ---------------------------------------------------------------------------------------
  // Resolving the role

  /** What resolving the rule's role yields when no error occurs. */
  datatype Resolution = Resolved(name: string) | UnknownRoleName(roleName: string) | NoIdentifier

  /**
   * The name is used as given; a role name is looked up in the subscription's built-in role
   * catalogue, whose failure is an error; a role name missing from it and a role with
   * neither field are no errors but failed validations.
   */
  function ResolveRole(utils: AzureUtils, rule: SingleRoleRule): Result<Resolution, Error>
  {
    match Selected(rule.role)
    case CanonicalID(id) => Success(Resolved(id))
    case FriendlyName(n) =>
      (match utils.builtInRoleLookupMap(rule.subscriptionID)
       case Failure(e) => Failure(Wrapped(LookupMapErrorContext, e))
       case Success(m) => if n in m then Success(Resolved(m[n])) else Success(UnknownRoleName(n)))
    case Unspecified => Success(NoIdentifier)
  }

  /** A given name is used as it is: the catalogue is not consulted and cannot fail. */
  lemma NameNeedsNoLookup(utils: AzureUtils, rule: SingleRoleRule, other: string -> Result<map<string, string>, Error>)
    requires rule.role.name.Some?
    ensures ResolveRole(utils, rule) == Success(Resolved(rule.role.name.value))
    ensures ResolveRole(utils.(builtInRoleLookupMap := other), rule) == ResolveRole(utils, rule)
  {
  }

  /**
   * A role name alone is looked up in the catalogue of the rule's subscription: a catalogue
   * error is returned wrapped, a role name in it resolves to its name, one not in it is unknown.
   */
  lemma RoleNameIsLookedUp(utils: AzureUtils, rule: SingleRoleRule)
    requires rule.role.name.None? && rule.role.roleName.Some?
    ensures var n := rule.role.roleName.value;
      match utils.builtInRoleLookupMap(rule.subscriptionID)
      case Failure(e) => ResolveRole(utils, rule) == Failure(Wrapped(LookupMapErrorContext, e))
      case Success(m) =>
        (n in m ==> ResolveRole(utils, rule) == Success(Resolved(m[n]))) &&
        (n !in m ==> ResolveRole(utils, rule) == Success(UnknownRoleName(n)))
  {
  }

  // ---------------------------------------------------------------------------------------
  // Scanning the assignments

  /** The assignment is well formed and assigns the role with this name. */
  predicate Assigns(ra: RoleAssignment, name: string, roleNameOf: string -> string)
  {
    DefinitionID(ra).Some? && roleNameOf(DefinitionID(ra).value) == name
  }

  /** The assignment is well formed and assigns some other role. */
  predicate AssignsOther(ra: RoleAssignment, name: string, roleNameOf: string -> string)
  {
    DefinitionID(ra).Some? && roleNameOf(DefinitionID(ra).value) != name
  }

  /**
   * Scanning the assignments in order for the role: true at the first assignment of it, an
   * error at a malformed assignment met before that, false when none assigns it.
   */
  function FirstMatch(found: seq<RoleAssignment>, name: string, roleNameOf: string -> string): Result<bool, Error>
  {
    if found == [] then Success(false)
    else
      match DefinitionID(found[0])
      case None => Failure(MalformedAssignment)
      case Some(id) => if roleNameOf(id) == name then Success(true) else FirstMatch(found[1..], name, roleNameOf)
  }

  /**
   * Once an assignment of the role is reached past well-formed assignments of other roles, the
   * scan succeeds: whatever comes after, malformed or not, is never inspected.
   */
  lemma {:induction false} ScanStopsAtFirstMatch(pre: seq<RoleAssignment>, ra: RoleAssignment, rest: seq<RoleAssignment>, name: string, roleNameOf: string -> string)
    requires forall j :: 0 <= j < |pre| ==> AssignsOther(pre[j], name, roleNameOf)
    requires Assigns(ra, name, roleNameOf)
    ensures FirstMatch(pre + [ra] + rest, name, roleNameOf) == Success(true)
  {
    if pre != [] {
      assert (pre + [ra] + rest)[1..] == pre[1..] + [ra] + rest;
      ScanStopsAtFirstMatch(pre[1..], ra, rest, name, roleNameOf);
    }
  }

  /** A malformed assignment met before any match is an error, whatever comes after. */
  lemma {:induction false} ScanFailsAtMalformed(pre: seq<RoleAssignment>, ra: RoleAssignment, rest: seq<RoleAssignment>, name: string, roleNameOf: string -> string)
    requires forall j :: 0 <= j < |pre| ==> AssignsOther(pre[j], name, roleNameOf)
    requires DefinitionID(ra).None?
    ensures FirstMatch(pre + [ra] + rest, name, roleNameOf) == Failure(MalformedAssignment)
  {
    if pre != [] {
      assert (pre + [ra] + rest)[1..] == pre[1..] + [ra] + rest;
      ScanFailsAtMalformed(pre[1..], ra, rest, name, roleNameOf);
    }
  }

  /** The scan finds nothing exactly when every assignment is well formed and of another role. */
  lemma {:induction false} ScanFindsNothing(found: seq<RoleAssignment>, name: string, roleNameOf: string -> string)
    ensures FirstMatch(found, name, roleNameOf) == Success(false)
        <==> forall j :: 0 <= j < |found| ==> AssignsOther(found[j], name, roleNameOf)
  {
    if found != [] {
      ScanFindsNothing(found[1..], name, roleNameOf);
      if FirstMatch(found, name, roleNameOf) == Success(false) {
        forall j | 0 <= j < |found| ensures AssignsOther(found[j], name, roleNameOf) {
          if j > 0 { assert found[j] == found[1..][j - 1]; }
        }
      }
      if forall j :: 0 <= j < |found| ==> AssignsOther(found[j], name, roleNameOf) {
        assert AssignsOther(found[0], name, roleNameOf);
        forall j | 0 <= j < |found| - 1 ensures AssignsOther(found[1..][j], name, roleNameOf) {
          assert found[1..][j] == found[j + 1];
        }
      }
    }
  }

  /** Looks through the assignments in order, returning at the first match or malformed one. */
  method FindAssignment(found: seq<RoleAssignment>, name: string, roleNameOf: string -> string) returns (r: Result<bool, Error>)
    ensures r == FirstMatch(found, name, roleNameOf)
  {
    var i := 0;
    while i < |found|
      invariant 0 <= i <= |found|
      invariant FirstMatch(found, name, roleNameOf) == FirstMatch(found[i..], name, roleNameOf)
    {
      assert found[i..][1..] == found[i + 1..];
      var ra := found[i];
      if ra.properties.None? || ra.properties.value.roleDefinitionID.None? {
        return Failure(MalformedAssignment);
      }
      if roleNameOf(ra.properties.value.roleDefinitionID.value) == name {
        return Success(true);
      }
      i := i + 1;
    }
    return Success(false);
  }

  // ---------------------------------------------------------------------------------------
  // Building and failing the validation result

  /**
   * The label of a result: the role name if given, else the name, else "invalid-config". This
   * precedence is the opposite of the one used to resolve the role.
   */
  function RoleLabel(role: Role): string
  {
    if role.roleName.Some? then role.roleName.value
    else if role.name.Some? then role.name.value
    else "invalid-config"
  }

  /**
   * The label is the role name when given, else the name, else "invalid-config"; so when both
   * fields are set, the label names the role name while resolution uses the name.
   */
  lemma LabelPrecedenceIsOpposite(role: Role)
    ensures role.roleName.Some? ==> RoleLabel(role) == role.roleName.value
    ensures role.roleName.None? && role.name.Some? ==> RoleLabel(role) == role.name.value
    ensures role.roleName.None? && role.name.None? ==> RoleLabel(role) == "invalid-config"
    ensures role.name.Some? && role.roleName.Some? ==>
      RoleLabel(role) == role.roleName.value && Selected(role) == CanonicalID(role.name.value)
  {
  }

  /** The optimistic result for a rule: succeeded, status True, labelled by the rule's role. */
  function InitialOutcome(rule: SingleRoleRule, validationType: string): Outcome
  {
    DefaultOutcome().(
      message := FoundMessage,
      validationRule := RuleIdentifier(RoleLabel(rule.role)),
      validationType := validationType)
  }

  /**
   * A result turned into a failure: details, message, status, rule identifier, type and state
   * are set together and the failures list is left as it was.
   */
  function FailedOutcome(o: Outcome, rule: SingleRoleRule, validationType: string, message: string, details: seq<string>): Outcome
  {
    o.(details := details,
       message := message,
       status := ConditionFalse,
       validationRule := RuleIdentifier(RoleLabel(rule.role)),
       validationType := validationType,
       state := ValidationFailed)
  }

  /**
   * Failing an optimistic result keeps its rule identifier and type, adds no failures, and
   * leaves a result that is failed with status False, the given message and exactly the given
   * details.
   */
  lemma FailingKeepsIdentity(rule: SingleRoleRule, validationType: string, message: string, details: seq<string>)
    ensures var o := FailedOutcome(InitialOutcome(rule, validationType), rule, validationType, message, details);
      o.validationRule == InitialOutcome(rule, validationType).validationRule &&
      o.validationType == validationType &&
      o.state == ValidationFailed && o.status == ConditionFalse &&
      o.message == message && o.details == details && o.failures == []
  {
  }

  /** Creates the optimistic result for a rule. */
  method BuildValidationResult(rule: SingleRoleRule, validationType: string) returns (vr: ValidationResult)
    ensures fresh(vr)
    ensures vr.View() == InitialOutcome(rule, validationType)
    ensures vr.state == ValidationSucceeded && vr.status == ConditionTrue
    ensures vr.message == FoundMessage && vr.details == [] && vr.failures == []
    ensures vr.validationRule == RuleIdentifier(RoleLabel(rule.role)) && vr.validationType == validationType
  {
    vr := new ValidationResult(InitialOutcome(rule, validationType));
  }

  /** Turns a result into a failure in place. */
  method FailValidationResult(result: ValidationResult, rule: SingleRoleRule, validationType: string, message: string, details: seq<string>)
    modifies result
    ensures result.View() == FailedOutcome(old(result.View()), rule, validationType, message, details)
    ensures result.failures == old(result.failures)
  {
    var identifier := "invalid-config";
    if rule.role.roleName.Some? {
      identifier := rule.role.roleName.value;
    } else if rule.role.name.Some? {
      identifier := rule.role.name.value;
    }
    result.details := details;
    result.message := message;
    result.status := ConditionFalse;
    result.validationRule := RuleIdentifier(identifier);
    result.validationType := validationType;
    result.state := ValidationFailed;
  }

  // ---------------------------------------------------------------------------------------
  // Reconciling a rule

  /** The result when the subscription holds no assignment at all for the principal. */
  function NoAssignmentsOutcome(): Outcome
  {
    DefaultOutcome().(state := ValidationFailed, status := ConditionFalse, message := NoAssignmentsMessage)
  }

  /** The details of an unknown role name. */
  function UnknownRoleNameDetails(roleName: string): seq<string>
  {
    ["provided role name: " + Quote(roleName)]
  }

  /** The details when no assignment of the role is found, in this order. */
  function NotFoundDetails(rule: SingleRoleRule): seq<string>
  {
    [ "specified role name of role? " + FormatBool(rule.role.roleName.Some?),
      "specified name of role? " + FormatBool(rule.role.name.Some?),
      "specified service principal ID = " + Quote(rule.servicePrincipalID),
      "specified subscription ID = " + Quote(rule.subscriptionID) ]
  }

  /** The outcome of reconciling a rule: an error, or the validation result. */
  function RoleAssignmentOutcome(s: RoleAssignmentRuleService, utils: AzureUtils, rule: SingleRoleRule): Result<Outcome, Error>
  {
    match Drained(s.listForSubscriptionPages(rule.servicePrincipalID))
    case Failure(e) => Failure(e)
    case Success(found) =>
      if |found| == 0 then Success(NoAssignmentsOutcome())
      else
        var initial := InitialOutcome(rule, ValidationTypeRoleAssignment);
        match ResolveRole(utils, rule)
        case Failure(e) => Failure(e)
        case Success(UnknownRoleName(n)) =>
          Success(FailedOutcome(initial, rule, ValidationTypeRoleAssignment, UnknownRoleNameMessage, UnknownRoleNameDetails(n)))
        case Success(NoIdentifier) =>
          Success(FailedOutcome(initial, rule, ValidationTypeRoleAssignment, NoIdentifierMessage, []))
        case Success(Resolved(name)) =>
          match FirstMatch(found, name, utils.roleNameFromRoleDefinitionID)
          case Failure(e) => Failure(e)
          case Success(true) => Success(initial)
          case Success(false) =>
            Success(FailedOutcome(initial, rule, ValidationTypeRoleAssignment, NotFoundMessage, NotFoundDetails(rule)))
  }

  /**
   * Reconciles a rule: on an error the result is nil, otherwise a fresh result whose fields are
   * the outcome's.
   */
  method ReconcileRoleAssignmentRule(s: RoleAssignmentRuleService, utils: AzureUtils, rule: SingleRoleRule)
    returns (vr: ValidationResult?, err: Option<Error>)
    ensures RoleAssignmentOutcome(s, utils, rule).Failure? ==>
      vr == null && err == Some(RoleAssignmentOutcome(s, utils, rule).error)
    ensures RoleAssignmentOutcome(s, utils, rule).Success? ==>
      vr != null && fresh(vr) && err == None && vr.View() == RoleAssignmentOutcome(s, utils, rule).value
  {
    vr := BuildValidationResult(rule, ValidationTypeRoleAssignment);
    var pages := s.listForSubscriptionPages(rule.servicePrincipalID);
    var drained := DrainPages(pages);
    if drained.Failure? {
      return null, Some(drained.error);
    }
    var found := drained.value;
    if |found| == 0 {
      vr := new ValidationResult(NoAssignmentsOutcome());
      return vr, None;
    }

    var roleName: string;
    if rule.role.name.Some? {
      roleName := rule.role.name.value;
    } else if rule.role.roleName.Some? {
      var lookup := utils.builtInRoleLookupMap(rule.subscriptionID);
      if lookup.Failure? {
        return null, Some(Wrapped(LookupMapErrorContext, lookup.error));
      }
      var specified := rule.role.roleName.value;
      if specified !in lookup.value {
        FailValidationResult(vr, rule, ValidationTypeRoleAssignment, UnknownRoleNameMessage, UnknownRoleNameDetails(specified));
        return vr, None;
      }
      roleName := lookup.value[specified];
    } else {
      FailValidationResult(vr, rule, ValidationTypeRoleAssignment, NoIdentifierMessage, []);
      return vr, None;
    }

    var matched := FindAssignment(found, roleName, utils.roleNameFromRoleDefinitionID);
    if matched.Failure? {
      return null, Some(matched.error);
    }
    if matched.value {
      return vr, None;
    }
    FailValidationResult(vr, rule, ValidationTypeRoleAssignment, NotFoundMessage, NotFoundDetails(rule));
    return vr, None;
  }

  // ---------------------------------------------------------------------------------------
  // Properties of a reconciliation

  /**
   * With no assignments at all the result is the fixed "none found" failure, built from a
   * default condition (empty rule identifier and type), before the role is even looked at: a
   * role with neither field set gets this result too.
   */
  lemma NoAssignmentsComesFirst(s: RoleAssignmentRuleService, utils: AzureUtils, rule: SingleRoleRule)
    requires Drained(s.listForSubscriptionPages(rule.servicePrincipalID)) == Success([])
    ensures RoleAssignmentOutcome(s, utils, rule) == Success(NoAssignmentsOutcome())
    ensures var o := NoAssignmentsOutcome();
      o.state == ValidationFailed && o.status == ConditionFalse && o.message == NoAssignmentsMessage &&
      o.validationRule == "" && o.validationType == "" && o.details == [] && o.failures == []
  {
  }

  /** A pager error is returned as the outcome, whatever the role. */
  lemma PagerErrorIsReturned(s: RoleAssignmentRuleService, utils: AzureUtils, rule: SingleRoleRule, k: nat)
    requires var pages := s.listForSubscriptionPages(rule.servicePrincipalID);
      k < |pages| && pages[k].PageFailure? && forall j :: 0 <= j < k ==> pages[j].PageOk?
    ensures RoleAssignmentOutcome(s, utils, rule) ==
      Failure(Wrapped(PagerErrorContext, s.listForSubscriptionPages(rule.servicePrincipalID)[k].error))
  {
    DrainedFirstError(s.listForSubscriptionPages(rule.servicePrincipalID), k);
  }

  /**
   * A role name missing from the catalogue fails validation with exactly one detail naming it,
   * and a role with neither field fails it with no details; neither is an error.
   */
  lemma MisconfiguredRoleFails(s: RoleAssignmentRuleService, utils: AzureUtils, rule: SingleRoleRule)
    requires var d := Drained(s.listForSubscriptionPages(rule.servicePrincipalID)); d.Success? && d.value != []
    requires rule.role.name.None?
    requires rule.role.roleName.Some? ==>
      var m := utils.builtInRoleLookupMap(rule.subscriptionID); m.Success? && rule.role.roleName.value !in m.value
    ensures var r := RoleAssignmentOutcome(s, utils, rule);
      r.Success? && r.value.state == ValidationFailed && r.value.status == ConditionFalse &&
      r.value.validationRule == RuleIdentifier(RoleLabel(rule.role)) &&
      r.value.validationType == ValidationTypeRoleAssignment && r.value.failures == [] &&
      (rule.role.roleName.Some? ==>
         r.value.message == UnknownRoleNameMessage &&
         r.value.details == ["provided role name: " + Quote(rule.role.roleName.value)]) &&
      (rule.role.roleName.None? ==>
         r.value.message == NoIdentifierMessage && r.value.details == [] &&
         r.value.validationRule == RuleIdentifier("invalid-config"))
  {
  }

  /**
   * With assignments present and the role resolved to a name, the rule succeeds with the
   * optimistic result exactly when an assignment of that role comes before any malformed one;
   * a malformed one met first is an error; with no match the result is the "not found" failure
   * with its four details.
   */
  lemma ScanDecidesOutcome(s: RoleAssignmentRuleService, utils: AzureUtils, rule: SingleRoleRule, name: string)
    requires var d := Drained(s.listForSubscriptionPages(rule.servicePrincipalID)); d.Success? && d.value != []
    requires ResolveRole(utils, rule) == Success(Resolved(name))
    ensures var found := Drained(s.listForSubscriptionPages(rule.servicePrincipalID)).value;
      var r := RoleAssignmentOutcome(s, utils, rule);
      match FirstMatch(found, name, utils.roleNameFromRoleDefinitionID)
      case Failure(e) => r == Failure(e) && e == MalformedAssignment
      case Success(true) => r == Success(InitialOutcome(rule, ValidationTypeRoleAssignment))
      case Success(false) =>
        r.Success? && r.value.state == ValidationFailed && r.value.status == ConditionFalse &&
        r.value.message == NotFoundMessage && r.value.details == NotFoundDetails(rule) &&
        |r.value.details| == 4 && r.value.failures == []
  {
    var found := Drained(s.listForSubscriptionPages(rule.servicePrincipalID)).value;
    FirstMatchErrorIsMalformed(found, name, utils.roleNameFromRoleDefinitionID);
  }

  /** The only error a scan returns is the malformed-assignment error. */
  lemma {:induction false} FirstMatchErrorIsMalformed(found: seq<RoleAssignment>, name: string, roleNameOf: string -> string)
    ensures FirstMatch(found, name, roleNameOf).Failure? ==> FirstMatch(found, name, roleNameOf).error == MalformedAssignment
  {
    if found != [] {
      FirstMatchErrorIsMalformed(found[1..], name, roleNameOf);
    }
  }

  /**
   * The "not found" details say, in order, whether a role name and whether a name was given,
   * then quote the principal and the subscription, each recoverable from its detail.
   */
  lemma NotFoundDetailsReport(rule: SingleRoleRule)
    ensures var d := NotFoundDetails(rule);
      |d| == 4 &&
      d[0] == "specified role name of role? " + (if rule.role.roleName.Some? then "true" else "false") &&
      d[1] == "specified name of role? " + (if rule.role.name.Some? then "true" else "false") &&
      d[2] == "specified service principal ID = " + Quote(rule.servicePrincipalID) &&
      d[3] == "specified subscription ID = " + Quote(rule.subscriptionID)
    ensures Unquote(Quote(rule.servicePrincipalID)) == Some(rule.servicePrincipalID)
    ensures Unquote(Quote(rule.subscriptionID)) == Some(rule.subscriptionID)
  {
    QuoteRoundTrip(rule.servicePrincipalID);
    QuoteRoundTrip(rule.subscriptionID);
  }
}
