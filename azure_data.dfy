/**
 * What the validators receive from Azure and from the Azure helper functions: role
 * assignments, pages of them, errors, and the helpers themselves as injected functions.
 */
module AzureData {
  import opened Wrappers

  /** The properties of a role assignment; only the role definition ID is consulted. */
  datatype RoleAssignmentProperties = RoleAssignmentProperties(roleDefinitionID: Option<string>)

  /** A role assignment as returned by the authorization API. */
  datatype RoleAssignment = RoleAssignment(properties: Option<RoleAssignmentProperties>)

  /** The role definition ID of an assignment, `None` when its properties or the ID are nil. */
  function DefinitionID(ra: RoleAssignment): (id: Option<string>)
    ensures id.Some? <==> ra.properties.Some? && ra.properties.value.roleDefinitionID.Some?
  {
    match ra.properties
    case None => None
    case Some(p) => p.roleDefinitionID
  }

  /**
   * Errors as Go values: an opaque error from Azure or a helper, an `fmt.Errorf` wrapping with
   * `%w`, an `errors.New` value, and the two sentinel errors of the validators package.
   */
  datatype Error =
    | AzureError(description: string)
    | Wrapped(context: string, cause: Error)
    | Malformed(description: string)
    | NoSuchBuiltInRole
    | NoRoleIdentifierSpecified

  /** `errors.Is`: the error is the target or wraps it. */
  function Is(err: Error, target: Error): (b: bool)
    ensures err == target ==> b
  {
    err == target || (err.Wrapped? && Is(err.cause, target))
  }

  /** Wrapping keeps every error the wrapped one is. */
  lemma {:induction false} WrappedIs(context: string, err: Error, target: Error)
    requires Is(err, target)
    ensures Is(Wrapped(context, err), target)
  {
  }

  /** One page from the subscription pager: a retrieval error, or a list value that may be nil. */
  datatype Page = PageFailure(error: Error) | PageOk(value: Option<seq<RoleAssignment>>)

  /** The assignments a successful page contributes; a nil list contributes none. */
  function PageValues(v: Option<seq<RoleAssignment>>): seq<RoleAssignment>
  {
    match v
    case None => []
    case Some(l) => l
  }

  /**
   * The helper functions of the Azure utilities package, whose definitions are not part of this
   * model: the role name a role definition ID denotes, the subscription a scope lies in (which
   * may fail), and the catalogue of built-in roles of a subscription, from role name to name.
   */
  datatype AzureUtils = AzureUtils(
    roleNameFromRoleDefinitionID: string -> string,
    roleAssignmentScopeSubscription: string -> Result<string, Error>,
    builtInRoleLookupMap: string -> Result<map<string, string>, Error>)
}
