/**
 * Where the two validators treat the same situation differently: a malformed assignment, a
 * role name the catalogue does not know, and the identifier of the result.
 */
module ValidatorDifferences {
  import opened Wrappers
  import opened AzureValidatorTypes
  import opened AzureData
  import opened ValidationResults
  import RA = RoleAssignmentValidator
  import RBAC = RbacValidator

  /**
   * A malformed assignment at the head of the list is an error for the role assignment
   * validator, even when a later assignment has the role, while the RBAC validator skips it.
   */
  lemma MalformedAssignmentTreatment(ra: RoleAssignment, rest: seq<RoleAssignment>, name: string, roleNameOf: string -> string)
    requires DefinitionID(ra).None?
    ensures RA.FirstMatch([ra] + rest, name, roleNameOf) == Failure(RA.MalformedAssignment)
    ensures RBAC.FoundRoleNames([ra] + rest, roleNameOf) == RBAC.FoundRoleNames(rest, roleNameOf)
  {
    RA.ScanFailsAtMalformed([], ra, rest, name, roleNameOf);
    assert [] + [ra] + rest == [ra] + rest;
    RBAC.SkippedAndCollapsed([], ra, rest, roleNameOf);
    assert [] + rest == rest;
  }

  /**
   * A role name the lookup map does not hold is a failed validation for the role assignment
   * validator but the "no such built-in role" error for the RBAC validator.
   */
  lemma UnknownRoleNameTreatment(utils: AzureUtils, s: RBAC.RBACRuleService, role: Role,
                                 principalID: string, subscriptionID: string, scope: string, sub: string)
    requires role.name.None? && role.roleName.Some?
    requires utils.builtInRoleLookupMap(subscriptionID).Success?
    requires role.roleName.value !in utils.builtInRoleLookupMap(subscriptionID).value
    requires utils.roleAssignmentScopeSubscription(scope) == Success(sub)
    requires s.getRoleLookupMap(sub).Success? && role.roleName.value !in s.getRoleLookupMap(sub).value
    ensures RA.ResolveRole(utils, RA.SingleRoleRule(role, principalID, subscriptionID)) == Success(RA.UnknownRoleName(role.roleName.value))
    ensures RBAC.ResolveRoleName(s, utils, PermissionSet(scope, role)) == Failure(NoSuchBuiltInRole)
  {
  }

  /**
   * The role assignment validator identifies its result by the role (role name first), the
   * RBAC validator by the principal; the two schemes agree only when the labels coincide.
   */
  lemma IdentifierSchemes(rule: RA.SingleRoleRule, principalID: string)
    ensures RA.InitialOutcome(rule, ValidationTypeRoleAssignment).validationRule == RuleIdentifier(RA.RoleLabel(rule.role))
    ensures RBAC.RbacInitialOutcome(principalID).validationRule == RuleIdentifier(principalID)
    ensures RA.InitialOutcome(rule, ValidationTypeRoleAssignment).validationRule == RBAC.RbacInitialOutcome(principalID).validationRule
        <==> RA.RoleLabel(rule.role) == principalID
  {
    if RuleIdentifier(RA.RoleLabel(rule.role)) == RuleIdentifier(principalID) {
      RuleIdentifierInjective(RA.RoleLabel(rule.role), principalID);
    }
  }
}
