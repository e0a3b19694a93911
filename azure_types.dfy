/**
 * The configuration types of the Azure validator: how a user names a role, the rules that
 * ask for role assignments, and the validator spec that holds them.
 */
module AzureValidatorTypes {
  import opened Wrappers

  /**
   * A role given either by its role name (a friendly name such as "Contributor") or by its
   * name (the role definition's GUID). Both fields are optional.
   */
  datatype Role = Role(name: Option<string>, roleName: Option<string>)

  /** The one field of a `Role` that validation uses, after the precedence rule is applied. */
  datatype RoleReference = CanonicalID(id: string) | FriendlyName(friendly: string) | Unspecified

  /**
   * The precedence rule of `Role`: the name, when given, is used; otherwise the role name,
   * when given, is looked up; with neither the role is a misconfiguration.
   */
  function Selected(r: Role): RoleReference
  {
    if r.name.Some? then CanonicalID(r.name.value)
    else if r.roleName.Some? then FriendlyName(r.roleName.value)
    else Unspecified
  }

  /** The `Role` a user writes to mean exactly one reference. */
  function RoleOf(ref: RoleReference): Role
  {
    match ref
    case CanonicalID(id) => Role(Some(id), None)
    case FriendlyName(n) => Role(None, Some(n))
    case Unspecified => Role(None, None)
  }

  /**
   * Every reference can be written as a `Role`, and a `Role` is read back unchanged unless both
   * fields are set: then the role name is ignored and the name wins.
   */
  lemma SelectedRoundTrip(r: Role, ref: RoleReference)
    ensures Selected(RoleOf(ref)) == ref
    ensures RoleOf(Selected(r)) == r <==> !(r.name.Some? && r.roleName.Some?)
    ensures r.name.Some? ==> Selected(r) == Selected(r.(roleName := None))
  {
  }

  /** A rule asking for role assignments of a service principal within one subscription. */
  datatype RoleAssignmentRule = RoleAssignmentRule(
    roles: seq<Role>,
    servicePrincipalID: string,
    subscriptionID: string)

  /** How the validator authenticates; only carried along, never consulted by the core. */
  datatype AzureAuth = AzureAuth(implicit: bool, secretName: string)

  /** The desired state of an Azure validator. */
  datatype AzureValidatorSpec = AzureValidatorSpec(auth: AzureAuth, roleAssignmentRules: seq<RoleAssignmentRule>)

  /** The number of validation results the validator produces: one per role assignment rule. */
  function ResultCount(s: AzureValidatorSpec): nat
  {
    |s.roleAssignmentRules|
  }

  /**
   * A spec without rules yields no result, each added rule yields one more, and the
   * authentication settings play no part.
   */
  lemma ResultCountPerRule(s: AzureValidatorSpec, r: RoleAssignmentRule, a: AzureAuth)
    ensures ResultCount(AzureValidatorSpec(a, [])) == 0
    ensures ResultCount(s.(roleAssignmentRules := s.roleAssignmentRules + [r])) == ResultCount(s) + 1
    ensures ResultCount(s.(auth := a)) == ResultCount(s)
  {
  }

  /** One (scope, role) pair of an RBAC rule. */
  datatype PermissionSet = PermissionSet(scope: string, role: Role)

  /** A rule asking that one security principal hold every role of its permission sets. */
  datatype RBACRule = RBACRule(securityPrincipalID: string, permissions: seq<PermissionSet>)
}
