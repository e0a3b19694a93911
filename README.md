# Azure role assignment validation, modelled in Dafny

This project models the role checks of the Azure validator plugin. Each check asks whether a
security principal holds certain Azure roles, and reports a validation result that is either
succeeded or failed. A check can also end in an error, which is kept apart from a failed result.

There are two validators:

- The role assignment validator (`RoleAssignmentValidator`, in `role_assignment.dfy`) checks one
  role at subscription level. It drains the pager of the principal's role assignments. No
  assignments at all gives a fixed failure. Otherwise it resolves the role:
  - the role's `Name` is used as given;
  - a `RoleName` alone is looked up in the subscription's built-in role catalogue;
  - an unknown role name, or a role with neither field, gives a failed result.
  It then scans the assignments for the first one of that role. A malformed assignment met first
  is an error. The result starts optimistic and is failed in place (`FailValidationResult`).
- The RBAC validator (`RbacValidator`, in `rbac.dfy`) checks a list of (scope, role) permission
  sets for one principal. Sets are processed in order. Each set fetches the assignments at its
  scope and collects the role names they grant; malformed assignments are skipped. It then
  resolves its role. A `RoleName` is looked up in the map an injected provider gives for the
  subscription parsed out of the scope. Every resolution problem is an error that ends the rule.
  A role that is not held appends one failure to a shared list. The result is failed exactly when
  that list is non-empty.

The configuration types (`Role`, `RoleAssignmentRule`, `AzureValidatorSpec.ResultCount`, and the
RBAC rule's permission sets) are in `azure_types.dfy`. The validation result is a class whose
fields are updated in place (`validation_result.dfy`). The Azure data and helper functions are in
`azure_data.dfy`. The two `fmt` verbs used in messages (`%q`, `%t`) are in `go_format.dfy`.
`validator_differences.dfy` states where the two validators disagree.

Each validator is specified by pure functions: `Drained`, `FirstMatch`, `ResolveRole` and
`RoleAssignmentOutcome` for the first; `FoundRoleNames`, `ResolveRoleName`, `PermissionSetResult`,
`RbacFailures` and `RbacOutcome` for the second. The methods that mirror the Go code are proved
to compute exactly these functions. The lemmas state the behaviour of the functions.

Behaviour the code has that a reader might not expect, modelled as the code does it:

- The role assignment validator checks a single role (`GetRole()`), not a list. When the role is
  missing it fails with four fixed `Details`, not with a list of `Failures`.
- A malformed assignment is an error there only when it comes before the first assignment of the
  role. Assignments after the first match are never looked at.
- An unknown role name is a failed result in the role assignment validator and an error in the
  RBAC validator.
- The RBAC failure message names the role only, not the scope.
- The role assignment result is identified by the role (role name first, then name, then
  `invalid-config`); the RBAC result is identified by the principal.
- The RBAC validator parses the subscription out of the scope only when it must look up a role
  name.
- The "no role assignments found" result is built from a fresh default condition. Its rule
  identifier and validation type are therefore empty.

## Model

| member | source | states |
|---|---|---|
| `RoleAssignmentValidator.ReconcileRoleAssignmentRule` | internal/validators/role_assignment.go:51-136 | on an error the result is nil and the error is returned; otherwise a fresh result whose fields are exactly `RoleAssignmentOutcome` |
| `RoleAssignmentValidator.DrainPages` | internal/validators/role_assignment.go:64-74 | reading the pager in order, stopping at the first failing page, yields exactly `Drained(pages)` |
| `RoleAssignmentValidator.DrainedSplit` | internal/validators/role_assignment.go:66-74 | draining two runs of pages: the first run's error wins and the second run is then irrelevant; otherwise the second run's error, or both runs' assignments concatenated in page order |
| `RoleAssignmentValidator.DrainedFirstError` | internal/validators/role_assignment.go:67-70 | the first failing page decides the outcome: its error, wrapped with the pager message, whatever later pages hold |
| `RoleAssignmentValidator.DrainedAllOk` | internal/validators/role_assignment.go:66-74 | pages that all succeed never make draining fail |
| `RoleAssignmentValidator.NilPageContributesNothing` | internal/validators/role_assignment.go:71-73 | a page whose value list is nil adds no assignment, wherever it stands |
| `RoleAssignmentValidator.PagerErrorIsReturned` | internal/validators/role_assignment.go:66-70 | a pager error becomes the reconciliation's error, whatever the role |
| `RoleAssignmentValidator.NoAssignmentsComesFirst` | internal/validators/role_assignment.go:76-86 | no assignments gives a Failed result with status False, message "No role assignments found.", empty rule identifier, type, details and failures; this holds before and regardless of role resolution |
| `RoleAssignmentValidator.NameNeedsNoLookup` | internal/validators/role_assignment.go:93-95 | a given name resolves to itself, and the catalogue is not consulted: replacing it changes nothing |
| `RoleAssignmentValidator.RoleNameIsLookedUp` | internal/validators/role_assignment.go:96-111 | a role name alone is looked up in the catalogue of the rule's subscription; a catalogue error is returned wrapped, a present key resolves to its value, an absent key is an unknown role name |
| `RoleAssignmentValidator.MisconfiguredRoleFails` | internal/validators/role_assignment.go:104-116 | an unknown role name gives a Failed result with its message and the single detail `provided role name: "<name>"`; neither field gives a Failed result with its message, no details and identifier `validation-invalid-config`; neither is an error |
| `RoleAssignmentValidator.FindAssignment` | internal/validators/role_assignment.go:120-127 | scanning the assignments in order, returning at the first match or the first malformed assignment, yields exactly `FirstMatch` |
| `RoleAssignmentValidator.ScanStopsAtFirstMatch` | internal/validators/role_assignment.go:120-127 | an assignment of the role reached past well-formed assignments of other roles ends the scan with success; later assignments, even malformed ones, are not inspected |
| `RoleAssignmentValidator.ScanFailsAtMalformed` | internal/validators/role_assignment.go:121-123 | a malformed assignment (nil properties or nil role definition ID) met before any match is the malformed-data error, whatever follows |
| `RoleAssignmentValidator.ScanFindsNothing` | internal/validators/role_assignment.go:120-129 | the scan reports no match exactly when every assignment is well formed and of another role |
| `RoleAssignmentValidator.FirstMatchErrorIsMalformed` | internal/validators/role_assignment.go:121-123 | the only error the scan can return is the malformed-data error |
| `RoleAssignmentValidator.ScanDecidesOutcome` | internal/validators/role_assignment.go:118-135 | with assignments present and the role resolved: a match returns the optimistic result unchanged, a malformed assignment first is an error, no match is a Failed result with "Desired role assignment not found." and its four details |
| `RoleAssignmentValidator.NotFoundDetailsReport` | internal/validators/role_assignment.go:129-134 | the four details are, in order, the role-name flag, the name flag, the quoted principal ID and the quoted subscription ID, and each quoted ID reads back to itself |
| `RoleAssignmentValidator.LabelPrecedenceIsOpposite` | internal/validators/role_assignment.go:145-151 | the result's label is the role name if given, else the name, else "invalid-config"; so with both fields set the label uses the role name while resolution uses the name |
| `RoleAssignmentValidator.BuildValidationResult` | internal/validators/role_assignment.go:140-160 | a fresh result: Succeeded, status True, message "Required role assignment was found.", no details or failures, identifier from the role label, the given type |
| `RoleAssignmentValidator.FailValidationResult` | internal/validators/role_assignment.go:164-179 | sets details, message, status False, identifier, type and state Failed together in place, and leaves the failures as they were |
| `RoleAssignmentValidator.FailingKeepsIdentity` | internal/validators/role_assignment.go:164-179 | failing the optimistic result keeps its rule identifier and type, adds no failures, and leaves exactly the given message and details |
| `RbacValidator.ReconcileRBACRule` | internal/validators/rbac.go:43-72 | returns a fresh result and an error that together are exactly `RbacOutcome` |
| `RbacValidator.ProcessPermissionSet` | internal/validators/rbac.go:80-145 | on an error the failures are unchanged and the error is `PermissionSetResult`'s; otherwise the failures are the old ones followed by at most the one failure the set contributes |
| `RbacValidator.FoundRoleNamesMembership` | internal/validators/rbac.go:97-101 | a role name is in the found set exactly when some well-formed assignment maps to it |
| `RbacValidator.FoundRoleNamesSplit` | internal/validators/rbac.go:97-101 | the names found in two runs of assignments are the union of the names found in each |
| `RbacValidator.SkippedAndCollapsed` | internal/validators/rbac.go:97-101 | a malformed assignment adds nothing to the found set (skipped, not an error), nor does a second assignment of a role already found |
| `RbacValidator.RbacFailuresSplit` | internal/validators/rbac.go:53-62 | processing two runs of sets: an error in the first run ends the rule and the second run is never fetched; otherwise the second run's error, or the first run's failures followed by the second's |
| `RbacValidator.AtMostOneFailurePerSet` | internal/validators/rbac.go:137-140 | there are never more failures than permission sets |
| `RbacValidator.InitialResultNamesPrincipal` | internal/validators/rbac.go:46-51 | the initial result is Succeeded, status True, message "Security principal has all required roles.", type RBAC, identified by the principal ID |
| `RbacValidator.FirstErrorStopsRule` | internal/validators/rbac.go:55-62 | the first set that errors ends the rule: its error is returned with the initial result, no failures attached, whatever the later sets are |
| `RbacValidator.FailedExactlyWhenRolesMissing` | internal/validators/rbac.go:64-71 | without an error, the result is Failed exactly when failures were collected; then status False, message "Security principal missing one or more required roles." and the failures attached; otherwise the initial result |
| `RbacValidator.MissingRoleAppendsOneFailure` | internal/validators/rbac.go:137-140 | a set contributes a failure exactly when no well-formed assignment at its scope maps to the resolved role, and the failure is "Security principal missing role " followed by the role only |
| `RbacValidator.FetchErrorComesFirst` | internal/validators/rbac.go:92-95 | a fetch error is returned wrapped before the role is resolved, even for a role with neither field |
| `RbacValidator.NameUsedDirectly` | internal/validators/rbac.go:107-108 | a given name resolves to itself, and neither the scope parser nor the lookup map provider is consulted: replacing them changes nothing |
| `RbacValidator.RoleNameResolution` | internal/validators/rbac.go:109-135 | a role name alone is looked up in the provider's map for the subscription parsed from the scope; parse and provider errors are returned as they are, a missing key is the no-such-built-in-role error, and neither field is the no-role-identifier error |
| `ValidatorDifferences.MalformedAssignmentTreatment` | internal/validators/role_assignment.go:120-123 | a malformed assignment at the head is an error for the role assignment scan even if a later assignment matches, while the RBAC found set skips it |
| `ValidatorDifferences.UnknownRoleNameTreatment` | internal/validators/rbac.go:123-129 | a role name absent from the lookup map is an unknown-role-name resolution (a Failed result) for the role assignment validator and the no-such-built-in-role error for the RBAC validator |
| `ValidatorDifferences.IdentifierSchemes` | internal/validators/rbac.go:49 | the role assignment result is identified by the role label, the RBAC result by the principal, and the two identifiers agree exactly when those coincide |
| `AzureValidatorTypes.SelectedRoundTrip` | api/v1alpha1/azurevalidator_types.go:54-64 | every role reference can be written as a `Role`; a `Role` reads back unchanged unless both fields are set, and then the name wins and the role name is ignored |
| `AzureValidatorTypes.ResultCountPerRule` | api/v1alpha1/azurevalidator_types.go:30-32 | a spec without rules gives no result, each added rule one more, and the authentication settings play no part |
| `AzureData.DefinitionID` | internal/validators/rbac.go:98 | an assignment has a role definition ID exactly when neither its properties nor the ID are nil |
| `AzureData.WrappedIs` | internal/utils/test/test.go:33 | wrapping an error with context keeps every error it `errors.Is` |
| `ValidationResults.RuleIdentifier` | internal/validators/role_assignment.go:153 | an identifier is the prefix, a dash and the label, and the label can be read back from it |
| `ValidationResults.RuleIdentifierInjective` | internal/validators/rbac.go:49 | different labels give different identifiers |
| `GoFormat.FormatBool` | internal/validators/role_assignment.go:130-131 | `%t` writes "true" exactly for true and "false" exactly for false |
| `GoFormat.QuoteRoundTrip` | internal/validators/role_assignment.go:107 | a `%q`-quoted value reads back to exactly that value |
| `GoFormat.QuoteInjective` | internal/validators/role_assignment.go:132-133 | different values never quote to the same text |

## Left out

- The Azure SDK pager, `context.TODO()` and the two role assignment API facades. The pages of the
  subscription pager are a sequence given by a function of the principal ID. The per-scope fetch
  is a function of the scope and the principal ID.
- The OData filter built with `url.QueryEscape` and `fmt.Sprintf`. It only reaches the backend,
  so the principal ID is passed on as it is.
- The Azure utilities package is not part of this model. `RoleNameFromRoleDefinitionID`,
  `RoleAssignmentScopeSubscription` and `BuiltInRoleLookupMap` are function fields of `AzureUtils`
  with no further assumption. The RBAC lookup map provider is a function field of the service.
- Logging, and the constructors `NewRoleAssignmentRuleService` and `NewRBACRuleService`. The
  services are datatypes built directly from their collaborators.
- `AzureAuth` credentials, `AzureValidator`, `AzureValidatorList` and the scheme registration.
  `AzureAuth` is kept only as an unused field of the spec.
- The file defining `RBACRule`, `PermissionSet` and the two sentinel errors is not part of this
  model. Their fields are the ones `rbac.go` uses; the sentinel errors are bare constructors
  without their messages.
- The adapter that turns a `RoleAssignmentRule` with many roles into the single-role interface
  the role assignment validator reads is not part of this model.
- The validator library and the constants package are not part of this model. Assumed values:
  the rule prefix is "validation"; the validation types are "azure-role-assignment" and
  "azure-rbac"; a default condition has status True and empty message, details and failures.
  The condition's timestamp is left out because it comes from the clock.
- Go distinguishes a nil slice from an empty one, and its deep equality does too; the model
  has one empty sequence.
- A nil element in the slice of assignments would make the Go code panic; the model has no nil
  elements.
- `GoFormat.Quote` escapes only `"` and `\`. It does not model the escapes `%q` writes for
  non-printable and non-ASCII characters.
- `RbacValidator.ProcessPermissionSet` receives the failures list as a value and returns the
  new list, instead of appending through a pointer. Only the caller holds that list, so no
  aliasing is lost.
- `RoleAssignmentValidator.ReconcileRoleAssignmentRule` calls `DrainPages` and `FindAssignment`
  for its two loops, which the Go function has inline.
