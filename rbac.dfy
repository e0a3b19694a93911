/**
 * The RBAC validator: does a security principal hold every role of a list of (scope, role)
 * permission sets? Each set is checked with its own fetch of the assignments at its scope;
 * missing roles are collected as failures, and any resolution problem aborts the rule.
 */
module RbacValidator {
  import opened Wrappers
  import opened AzureValidatorTypes
  import opened AzureData
  import opened ValidationResults

  /**
   * The service's collaborators: the role assignments API facade (the assignments of a principal
   * that apply at a scope, given the scope and the principal ID of the filter) and the injected
   * provider of a subscription's role lookup map.
   */
  datatype RBACRuleService = RBACRuleService(
    listRoleAssignmentsForScope: (string, string) -> Result<seq<RoleAssignment>, Error>,
    getRoleLookupMap: string -> Result<map<string, string>, Error>)

  const FetchErrorContext := "failed to get role assignments"
  const AllRolesMessage := "Security principal has all required roles."
  const MissingRolesMessage := "Security principal missing one or more required roles."

  /** The failure recorded for a role the principal does not hold. */
  function MissingRoleFailure(roleName: string): string
  {
    "Security principal missing role " + roleName
  }

  // ---------------------------------------------------------------------------------------
  // The set of role names found

  /** The role name of every well-formed assignment; malformed ones are skipped. */
  function FoundRoleNames(assignments: seq<RoleAssignment>, roleNameOf: string -> string): set<string>
  {
    if assignments == [] then {}
    else
      var last := assignments[|assignments| - 1];
      FoundRoleNames(assignments[..|assignments| - 1], roleNameOf) +
        (match DefinitionID(last)
         case None => {}
         case Some(id) => {roleNameOf(id)})
  }

  /** A role name is found exactly when some well-formed assignment maps to it. */
  lemma {:induction false} FoundRoleNamesMembership(assignments: seq<RoleAssignment>, roleNameOf: string -> string, name: string)
    ensures name in FoundRoleNames(assignments, roleNameOf) <==>
      exists i :: 0 <= i < |assignments| && DefinitionID(assignments[i]).Some? &&
                  roleNameOf(DefinitionID(assignments[i]).value) == name
  {
    if assignments != [] {
      var n := |assignments| - 1;
      var init := assignments[..n];
      FoundRoleNamesMembership(init, roleNameOf, name);
      if exists i :: 0 <= i < |init| && DefinitionID(init[i]).Some? && roleNameOf(DefinitionID(init[i]).value) == name {
        var i :| 0 <= i < |init| && DefinitionID(init[i]).Some? && roleNameOf(DefinitionID(init[i]).value) == name;
        assert assignments[i] == init[i];
      }
      if exists i :: 0 <= i < |assignments| && DefinitionID(assignments[i]).Some? &&
                     roleNameOf(DefinitionID(assignments[i]).value) == name {
        var i :| 0 <= i < |assignments| && DefinitionID(assignments[i]).Some? &&
                 roleNameOf(DefinitionID(assignments[i]).value) == name;
        if i < n {
          assert init[i] == assignments[i];
        }
      }
    }
  }

  /** The names found in two runs of assignments are the names found in each. */
  lemma {:induction false} FoundRoleNamesSplit(p: seq<RoleAssignment>, q: seq<RoleAssignment>, roleNameOf: string -> string)
    ensures FoundRoleNames(p + q, roleNameOf) == FoundRoleNames(p, roleNameOf) + FoundRoleNames(q, roleNameOf)
  {
    if q == [] {
      assert p + q == p;
    } else {
      assert (p + q)[..|p + q| - 1] == p + q[..|q| - 1];
      FoundRoleNamesSplit(p, q[..|q| - 1], roleNameOf);
    }
  }

  /**
   * A malformed assignment adds nothing (it is skipped, not an error), and an assignment of a
   * role already found adds nothing either: duplicates collapse.
   */
  lemma SkippedAndCollapsed(p: seq<RoleAssignment>, ra: RoleAssignment, q: seq<RoleAssignment>, roleNameOf: string -> string)
    requires DefinitionID(ra).None? || roleNameOf(DefinitionID(ra).value) in FoundRoleNames(p + q, roleNameOf)
    ensures FoundRoleNames(p + [ra] + q, roleNameOf) == FoundRoleNames(p + q, roleNameOf)
  {
    FoundRoleNamesSplit(p + [ra], q, roleNameOf);
    FoundRoleNamesSplit(p, [ra], roleNameOf);
    FoundRoleNamesSplit(p, q, roleNameOf);
    assert [ra][..0] == [];
  }

  // ---------------------------------------------------------------------------------------
  // One permission set

  /**
   * The role's name: the name as given; otherwise the role name looked up in the lookup map of
   * the subscription parsed from the scope (a parse error, a provider error, or a role name
   * missing from the map is an error); with neither field, an error.
   */
  function ResolveRoleName(s: RBACRuleService, utils: AzureUtils, ps: PermissionSet): Result<string, Error>
  {
    match Selected(ps.role)
    case CanonicalID(id) => Success(id)
    case FriendlyName(n) =>
      (match utils.roleAssignmentScopeSubscription(ps.scope)
       case Failure(e) => Failure(e)
       case Success(sub) =>
         match s.getRoleLookupMap(sub)
         case Failure(e) => Failure(e)
         case Success(m) => if n in m then Success(m[n]) else Failure(NoSuchBuiltInRole))
    case Unspecified => Failure(NoRoleIdentifierSpecified)
  }

  /**
   * A set's contribution: an error, or the failure it appends (none when the principal holds
   * the role at the scope).
   */
  function PermissionSetResult(s: RBACRuleService, utils: AzureUtils, ps: PermissionSet, principalID: string): Result<Option<string>, Error>
  {
    match s.listRoleAssignmentsForScope(ps.scope, principalID)
    case Failure(e) => Failure(Wrapped(FetchErrorContext, e))
    case Success(assignments) =>
      match ResolveRoleName(s, utils, ps)
      case Failure(e) => Failure(e)
      case Success(name) =>
        if name in FoundRoleNames(assignments, utils.roleNameFromRoleDefinitionID) then Success(None)
        else Success(Some(MissingRoleFailure(name)))
  }

  /**
   * Processes one permission set: on an error the failures are unchanged; otherwise at most
   * one failure is appended and earlier ones stay as they are.
   */
  method ProcessPermissionSet(s: RBACRuleService, utils: AzureUtils, ps: PermissionSet, principalID: string, failures: seq<string>)
    returns (failuresOut: seq<string>, err: Option<Error>)
    ensures PermissionSetResult(s, utils, ps, principalID).Failure? ==>
      err == Some(PermissionSetResult(s, utils, ps, principalID).error) && failuresOut == failures
    ensures PermissionSetResult(s, utils, ps, principalID).Success? ==>
      err == None && failuresOut == failures + OptionToSeq(PermissionSetResult(s, utils, ps, principalID).value)
  {
    failuresOut := failures;
    var foundRoleNames: set<string> := {};

    var roleAssignments := s.listRoleAssignmentsForScope(ps.scope, principalID);
    if roleAssignments.Failure? {
      return failuresOut, Some(Wrapped(FetchErrorContext, roleAssignments.error));
    }
    var assignments := roleAssignments.value;
    var i := 0;
    while i < |assignments|
      invariant 0 <= i <= |assignments|
      invariant foundRoleNames == FoundRoleNames(assignments[..i], utils.roleNameFromRoleDefinitionID)
    {
      assert assignments[..i + 1][..i] == assignments[..i];
      var ra := assignments[i];
      if ra.properties.Some? && ra.properties.value.roleDefinitionID.Some? {
        foundRoleNames := foundRoleNames + {utils.roleNameFromRoleDefinitionID(ra.properties.value.roleDefinitionID.value)};
      }
      i := i + 1;
    }
    assert assignments[..i] == assignments;

    var roleName: string;
    var role := ps.role;
    if role.name.Some? {
      roleName := role.name.value;
    } else if role.roleName.Some? {
      var subForLookup := utils.roleAssignmentScopeSubscription(ps.scope);
      if subForLookup.Failure? {
        return failuresOut, Some(subForLookup.error);
      }
      var roleLookupMap := s.getRoleLookupMap(subForLookup.value);
      if roleLookupMap.Failure? {
        return failuresOut, Some(roleLookupMap.error);
      }
      var specifiedRoleName := role.roleName.value;
      if specifiedRoleName !in roleLookupMap.value {
        return failuresOut, Some(NoSuchBuiltInRole);
      }
      roleName := roleLookupMap.value[specifiedRoleName];
    } else {
      return failuresOut, Some(NoRoleIdentifierSpecified);
    }

    if roleName !in foundRoleNames {
      failuresOut := failuresOut + [MissingRoleFailure(roleName)];
    }
    return failuresOut, None;
  }

  // ---------------------------------------------------------------------------------------
  // The whole rule

  /** The failures of the sets processed so far, in set order, or the first set's error. */
  function RbacFailures(s: RBACRuleService, utils: AzureUtils, sets: seq<PermissionSet>, principalID: string): Result<seq<string>, Error>
  {
    if sets == [] then Success([])
    else
      var prior := RbacFailures(s, utils, sets[..|sets| - 1], principalID);
      if prior.Failure? then prior
      else
        match PermissionSetResult(s, utils, sets[|sets| - 1], principalID)
        case Failure(e) => Failure(e)
        case Success(f) => Success(prior.value + OptionToSeq(f))
  }

  /**
   * Processing two runs of sets one after the other: an error in the first run ends the rule
   * and the second run is never fetched; otherwise an error of the second run, or the first
   * run's failures followed by the second's.
   */
  lemma {:induction false} RbacFailuresSplit(s: RBACRuleService, utils: AzureUtils, p: seq<PermissionSet>, q: seq<PermissionSet>, principalID: string)
    ensures RbacFailures(s, utils, p + q, principalID) ==
      match RbacFailures(s, utils, p, principalID)
      case Failure(e) => Failure(e)
      case Success(a) =>
        match RbacFailures(s, utils, q, principalID)
        case Failure(e) => Failure(e)
        case Success(b) => Success(a + b)
  {
    if q == [] {
      assert p + q == p;
      var r := RbacFailures(s, utils, p, principalID);
      if r.Success? {
        assert r.value + [] == r.value;
      }
    } else {
      var q' := q[..|q| - 1];
      assert (p + q)[..|p + q| - 1] == p + q';
      assert (p + q)[|p + q| - 1] == q[|q| - 1];
      RbacFailuresSplit(s, utils, p, q', principalID);
      var a := RbacFailures(s, utils, p, principalID);
      var b := RbacFailures(s, utils, q', principalID);
      var f := PermissionSetResult(s, utils, q[|q| - 1], principalID);
      if a.Success? && b.Success? && f.Success? {
        assert a.value + b.value + OptionToSeq(f.value) == a.value + (b.value + OptionToSeq(f.value));
      }
    }
  }

  /** Each set adds at most one failure, so there are never more failures than sets. */
  lemma {:induction false} AtMostOneFailurePerSet(s: RBACRuleService, utils: AzureUtils, sets: seq<PermissionSet>, principalID: string)
    ensures RbacFailures(s, utils, sets, principalID).Success? ==>
      |RbacFailures(s, utils, sets, principalID).value| <= |sets|
  {
    if sets != [] {
      AtMostOneFailurePerSet(s, utils, sets[..|sets| - 1], principalID);
    }
  }

  /** The result a rule starts from: succeeded, labelled by the security principal. */
  function RbacInitialOutcome(principalID: string): Outcome
  {
    DefaultOutcome().(
      message := AllRolesMessage,
      validationRule := RuleIdentifier(principalID),
      validationType := ValidationTypeRBAC)
  }

  /**
   * The result and error of reconciling a rule. On an error the result is the initial one;
   * otherwise it is failed, with the failures attached, exactly when there are failures.
   */
  function RbacOutcome(s: RBACRuleService, utils: AzureUtils, rule: RBACRule): (Outcome, Option<Error>)
  {
    var initial := RbacInitialOutcome(rule.securityPrincipalID);
    match RbacFailures(s, utils, rule.permissions, rule.securityPrincipalID)
    case Failure(e) => (initial, Some(e))
    case Success(failures) =>
      if |failures| > 0 then
        (initial.(state := ValidationFailed, failures := failures, message := MissingRolesMessage, status := ConditionFalse), None)
      else (initial, None)
  }

  /** Reconciles a rule: a fresh result with the outcome's fields, and the outcome's error. */
  method ReconcileRBACRule(s: RBACRuleService, utils: AzureUtils, rule: RBACRule) returns (vr: ValidationResult, err: Option<Error>)
    ensures fresh(vr)
    ensures (vr.View(), err) == RbacOutcome(s, utils, rule)
  {
    vr := new ValidationResult(RbacInitialOutcome(rule.securityPrincipalID));
    var failures: seq<string> := [];
    var sets := rule.permissions;
    var i := 0;
    while i < |sets|
      invariant 0 <= i <= |sets|
      invariant RbacFailures(s, utils, sets[..i], rule.securityPrincipalID) == Success(failures)
      invariant vr.View() == RbacInitialOutcome(rule.securityPrincipalID)
    {
      assert sets[..i + 1][..i] == sets[..i];
      var e;
      failures, e := ProcessPermissionSet(s, utils, sets[i], rule.securityPrincipalID, failures);
      if e.Some? {
        RbacFailuresSplit(s, utils, sets[..i + 1], sets[i + 1..], rule.securityPrincipalID);
        assert sets[..i + 1] + sets[i + 1..] == sets;
        return vr, e;
      }
      i := i + 1;
    }
    assert sets[..i] == sets;
    if |failures| > 0 {
      vr.state := ValidationFailed;
      vr.failures := failures;
      vr.message := MissingRolesMessage;
      vr.status := ConditionFalse;
    }
    return vr, None;
  }

  // ---------------------------------------------------------------------------------------
  // Properties of a reconciliation

  /** The initial result is succeeded and identified by the principal, not by any role. */
  lemma InitialResultNamesPrincipal(principalID: string)
    ensures var o := RbacInitialOutcome(principalID);
      o.state == ValidationSucceeded && o.status == ConditionTrue && o.message == AllRolesMessage &&
      o.validationRule == RuleIdentifier(principalID) && o.validationType == ValidationTypeRBAC &&
      o.failures == [] && o.details == []
  {
  }

  /**
   * The first set that returns an error ends the rule: the error is returned with the initial
   * result, no failures attached, whatever the later sets are.
   */
  lemma FirstErrorStopsRule(s: RBACRuleService, utils: AzureUtils, rule: RBACRule, k: nat)
    requires k < |rule.permissions|
    requires RbacFailures(s, utils, rule.permissions[..k], rule.securityPrincipalID).Success?
    requires PermissionSetResult(s, utils, rule.permissions[k], rule.securityPrincipalID).Failure?
    ensures RbacOutcome(s, utils, rule) ==
      (RbacInitialOutcome(rule.securityPrincipalID),
       Some(PermissionSetResult(s, utils, rule.permissions[k], rule.securityPrincipalID).error))
  {
    var sets := rule.permissions;
    assert sets[..k + 1][..k] == sets[..k];
    RbacFailuresSplit(s, utils, sets[..k + 1], sets[k + 1..], rule.securityPrincipalID);
    assert sets[..k + 1] + sets[k + 1..] == sets;
  }

  /**
   * When no error occurs, the result is failed exactly when some role is missing; then its
   * status is False, its message the "missing roles" message and its failures the collected
   * list; otherwise it is the initial result.
   */
  lemma FailedExactlyWhenRolesMissing(s: RBACRuleService, utils: AzureUtils, rule: RBACRule)
    requires RbacFailures(s, utils, rule.permissions, rule.securityPrincipalID).Success?
    ensures var failures := RbacFailures(s, utils, rule.permissions, rule.securityPrincipalID).value;
      var (o, err) := RbacOutcome(s, utils, rule);
      err == None &&
      (o.state == ValidationFailed <==> failures != []) &&
      (o.failures == failures) &&
      (failures != [] ==> o.status == ConditionFalse && o.message == MissingRolesMessage &&
                          o.validationRule == RuleIdentifier(rule.securityPrincipalID)) &&
      (failures == [] ==> o == RbacInitialOutcome(rule.securityPrincipalID))
  {
  }

  /**
   * A set appends a failure exactly when its role, once resolved, is not among the role names
   * found at its scope, and the failure names the role only.
   */
  lemma MissingRoleAppendsOneFailure(s: RBACRuleService, utils: AzureUtils, ps: PermissionSet, principalID: string, name: string)
    requires s.listRoleAssignmentsForScope(ps.scope, principalID).Success?
    requires ResolveRoleName(s, utils, ps) == Success(name)
    ensures var found := s.listRoleAssignmentsForScope(ps.scope, principalID).value;
      var r := PermissionSetResult(s, utils, ps, principalID);
      r.Success? &&
      (r.value.Some? <==> !exists i :: 0 <= i < |found| && DefinitionID(found[i]).Some? &&
                                       utils.roleNameFromRoleDefinitionID(DefinitionID(found[i]).value) == name) &&
      (r.value.Some? ==> r.value.value == "Security principal missing role " + name)
  {
    FoundRoleNamesMembership(s.listRoleAssignmentsForScope(ps.scope, principalID).value, utils.roleNameFromRoleDefinitionID, name);
  }

  /** A fetch error is returned, wrapped, before the role is resolved: even an unset role. */
  lemma FetchErrorComesFirst(s: RBACRuleService, utils: AzureUtils, ps: PermissionSet, principalID: string)
    requires s.listRoleAssignmentsForScope(ps.scope, principalID).Failure?
    ensures PermissionSetResult(s, utils, ps, principalID) ==
      Failure(Wrapped(FetchErrorContext, s.listRoleAssignmentsForScope(ps.scope, principalID).error))
  {
  }

  /**
   * A given name is used directly: neither the scope parser nor the lookup map provider is
   * consulted, so replacing them changes nothing.
   */
  lemma NameUsedDirectly(s: RBACRuleService, utils: AzureUtils, ps: PermissionSet,
                         parse: string -> Result<string, Error>, provider: string -> Result<map<string, string>, Error>)
    requires ps.role.name.Some?
    ensures ResolveRoleName(s, utils, ps) == Success(ps.role.name.value)
    ensures ResolveRoleName(s.(getRoleLookupMap := provider), utils.(roleAssignmentScopeSubscription := parse), ps)
         == ResolveRoleName(s, utils, ps)
  {
  }

  /**
   * A role name alone is looked up in the map the provider gives for the subscription parsed
   * from the scope; a parse error or a provider error is returned as it is, and a role name
   * missing from the map is the "no such built-in role" error. With neither field set the
   * rule cannot be validated.
   */
  lemma RoleNameResolution(s: RBACRuleService, utils: AzureUtils, ps: PermissionSet)
    requires ps.role.name.None?
    ensures ps.role.roleName.None? ==> ResolveRoleName(s, utils, ps) == Failure(NoRoleIdentifierSpecified)
    ensures ps.role.roleName.Some? ==>
      var n := ps.role.roleName.value;
      match utils.roleAssignmentScopeSubscription(ps.scope)
      case Failure(e) => ResolveRoleName(s, utils, ps) == Failure(e)
      case Success(sub) =>
        match s.getRoleLookupMap(sub)
        case Failure(e) => ResolveRoleName(s, utils, ps) == Failure(e)
        case Success(m) =>
          (n in m ==> ResolveRoleName(s, utils, ps) == Success(m[n])) &&
          (n !in m ==> ResolveRoleName(s, utils, ps) == Failure(NoSuchBuiltInRole))
  {
  }
}
