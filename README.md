# Agency-scoped access control of the real-estate back end

This project models the authorization layer of a multi-tenant real-estate
agency back end. Agencies are the tenants. Users have one of five roles:
super admin, director, assistant, agent or owner. The modelled layer decides:

- which rows of each of the nine resources a user may list (each viewset's
  `get_queryset`);
- which checks guard a request and a single object (the permission classes);
- which fields the server stamps on a new row (`perform_create`);
- how the soft-delete flags of a row change (`soft_delete` and `restore`).

Modules:

- `Common` (common.dfy): `Option`, `Result`, identifiers and time.
- `SeqFilter` (seqfilter.dfy): a table filter and its lemmas. A database query
  is read as a filter over a table held as a `seq` of rows.
- `Models` (models.dfy): the role enumeration and its stored strings, and the
  soft-delete flags with their transitions. It also holds the class
  `SoftDeleteModel`, which updates the flags in place, and one datatype per
  model.
- `Permissions` (permissions.dfy): the four permission classes as pure functions.
- `Views` (views.dfy): the request gate of each endpoint, the nine listings,
  and lemmas about what each listing contains.
- `Creation` (creation.dfy): the four `perform_create` overrides. Each is a pure
  stamp function, plus a `Store` class whose methods append the stamped row to
  its table.

The acting user is an `Actor` with an id, a role, an optional agency and an
`isAuthenticated` flag. A nullable column or foreign key is an `Option`. ORM
comparisons with the user's agency follow Django's rules. Comparing with a
NULL agency is an `IS NULL` test, so it matches nothing on a NOT NULL column.

The model follows the code where a description of the system says otherwise:

- Agency isolation holds for owners, properties, documents, clients and a
  director's finance entries. The agent branches of the visit, claim and
  finance listings check only the `agent` column, so an agent lists rows of
  another agency that name them (`Views.AgentListingsIgnoreAgency`).
- The agent branch of the client listing is modelled as written, with its
  `created_at IS NOT NULL` disjunct. Because that column is never NULL, the
  branch equals a director's view of the agency
  (`Views.AgentSeesAllAgencyClients`). It is not an assignee-only filter.
- An agent's access to finance entries is decided by the entry's `agent`
  column alone, in both the listing and the object check. The documented rule
  also grants an agent the entries of a property they manage or created; the
  code does not (`Permissions.CanViewFinanceEntry`, `Views.VisibleFinances`,
  witnessed by `Views.AgentFinanceIgnoresPropertyRole`).
- `Visit.client` is modelled as a plain foreign key to `Client`. The source
  declares it with a misspelt field class.

## Model

| member | source | states |
|---|---|---|
| Models.RoleName | backend/core/models.py:9-15 | every role is stored as one of the five role choices |
| Models.ParseRole | backend/core/models.py:9-15 | a stored string is a role exactly when it is one of the five choices, and it then reads back as that role's string |
| Models.RoleNameRoundTrip | backend/core/models.py:9-15 | reading back a stored role gives the same role; no two roles share a stored string |
| Models.RoleOnCreate | backend/core/models.py:70 | a new user without a submitted role gets `agent`; a submitted role is accepted exactly when it is one of the choices |
| Models.Apply | backend/core/models.py:82-90 | soft delete sets the flag and records the clock reading; restore gives back the column defaults; neither reads the old flags |
| Models.RestoreUndoesSoftDelete | backend/core/models.py:76-90 | soft delete followed by restore leaves both flags at their defaults, whatever they were |
| Models.RunLastWins | backend/core/models.py:82-90 | after any non-empty sequence of soft deletes and restores, the flags are determined by the last call alone |
| Models.RunKeepsConsistent | backend/core/models.py:76-90 | from consistent flags (the defaults are), every sequence of calls keeps "deletion time recorded iff deleted" |
| Models.SoftDeleteModel.constructor | backend/core/models.py:75-77 | a new instance carries the column defaults |
| Models.SoftDeleteModel.SoftDelete | backend/core/models.py:82-85 | the instance is marked deleted at the given time; every other field is unchanged |
| Models.SoftDeleteModel.Restore | backend/core/models.py:87-90 | the deletion flags return to their defaults; every other field is unchanged |
| Permissions.IsSuperAdmin | backend/core/permissions.py:7-12 | grants iff the user is authenticated and their stored role is `superadmin`; a user it grants is refused finance |
| Permissions.IsDirectorOfAgency | backend/core/permissions.py:24-29 | a grant implies a director in the object's agency; it raises exactly for an authenticated director and an object without an agency attribute; an anonymous user is denied |
| Permissions.IsSameAgency | backend/core/permissions.py:40-47 | grants iff the user is authenticated and the object's agency equals theirs, NULL included; an object without an agency attribute is denied |
| Permissions.CanViewFinance | backend/core/permissions.py:60-64 | grants only to authenticated users, and never to a super admin, assistant or owner |
| Permissions.CanViewFinanceEntry | backend/core/permissions.py:66-75 | a director needs the entry's agency, an agent must be the entry's agent, and every other role is refused |
| Permissions.DirectorOfAgencyIsSameAgencyForDirectors | backend/core/permissions.py:24-29 | the director check grants iff the actor is a director and the same-agency check grants; it raises iff an authenticated director meets an object without an agency attribute |
| Permissions.NoAgencyNoAccess | backend/core/permissions.py:40-47 | an actor without an agency never passes the same-agency or director check on an agency-scoped object |
| Permissions.SameAgencyMatchesNullAgencies | backend/core/permissions.py:40-47 | an authenticated actor without an agency passes the same-agency check on a user whose agency is also NULL |
| Permissions.SuperAdminNeverSeesFinance | backend/core/permissions.py:60-75 | the super admin is refused by both finance checks, for every entry |
| Permissions.FinanceObjectWithinRequest | backend/core/permissions.py:60-75 | the finance object check grants only to directors and agents, and so never to a role the request check refuses |
| Permissions.FinanceDirectorIsDirectorOfAgency | backend/core/permissions.py:66-70 | for an authenticated director, the finance object check is the director-of-agency check |
| Views.Gate | backend/core/views.py:209-212 | a request passes iff the user is authenticated and, on the finance endpoint, is a director or agent |
| Views.VisibleAgencies | backend/core/views.py:30-34 | every listed agency is in the table and is the user's own, unless the user is the super admin |
| Views.VisibleUsers | backend/core/views.py:46-55 | every listed user is in the table and, outside the super admin, shares the user's non-NULL agency |
| Views.VisibleOwners | backend/core/views.py:67-73 | every listed owner is a live owner of the user's agency, and the super admin lists none |
| Views.VisibleProperties | backend/core/views.py:89-105 | every listed property is live and of the user's agency; an agent created it or is assigned to it; no other role than agent, director or assistant lists any |
| Views.VisibleDocuments | backend/core/views.py:124-130 | every listed document is a live document of the user's agency, and the super admin lists none |
| Views.VisibleClients | backend/core/views.py:142-155 | every listed client is a live client of the user's agency, and the super admin lists none |
| Views.VisibleVisits | backend/core/views.py:170-180 | every listed visit is live; an agent's names them; anyone else's is on a property of their agency; the super admin lists none |
| Views.VisibleClaimsAsWritten | backend/core/views.py:192-202 | the claim query as the ORM runs it: every listed claim is live; an agent's names them; anyone else's is on a property of their agency or, for a user without an agency, has no property |
| Views.VisibleClaims | backend/core/views.py:192-202 | the intended claim listing: as written, except that a non-agent's claim always has a property of their agency |
| Views.VisibleFinances | backend/core/views.py:214-224 | every listed entry is live and either of a director's agency or naming the agent; no other role lists any |
| Views.AgenciesListing | backend/core/views.py:30-34 | the super admin lists every agency; anyone else lists exactly the agencies whose id is their agency |
| Views.AtMostOneAgency | backend/core/views.py:30-34 | with distinct primary keys, a non-super-admin lists at most one agency |
| Views.UsersListing | backend/core/views.py:46-55 | the super admin lists all users; a user with an agency lists exactly that agency's users; a user without one lists nobody |
| Views.OwnersListing | backend/core/views.py:67-73 | the super admin lists no owners; anyone else lists exactly the live owners of their agency |
| Views.PropertiesListing | backend/core/views.py:89-105 | an agent lists exactly the live properties of their agency they created or are assigned to; a director or assistant lists every live property of their agency; a super admin or owner lists nothing |
| Views.DocumentsListing | backend/core/views.py:124-130 | the super admin lists no documents; anyone else lists exactly the live documents of their agency |
| Views.ClientsListing | backend/core/views.py:142-155 | the super admin lists no clients; every listed client is live and of the actor's agency; a non-agent lists exactly those |
| Views.AgentSeesAllAgencyClients | backend/core/views.py:150-153 | when every client has a creation time, an agent's client listing equals a director's listing for the same agency |
| Views.VisitsListing | backend/core/views.py:170-180 | the super admin lists no visits; an agent lists exactly the live visits naming them; anyone else lists exactly the live visits of properties of their agency |
| Views.ClaimsListing | backend/core/views.py:192-202 | as for visits, and a non-agent never lists a claim without a property |
| Views.OrphanClaimLeaksAsWritten | backend/core/views.py:202 | the claim query as written shows an assistant without an agency a live claim with no property |
| Views.ClaimsAgreeWithAgency | backend/core/views.py:192-202 | for every actor with an agency, the claim query as written and the intended one list the same rows |
| Views.FinancesListing | backend/core/views.py:214-224 | a director lists exactly the live entries of their agency; an agent exactly the live entries naming them; every other role nothing |
| Views.TenantIsolation | backend/core/views.py:67-224 | outside the super admin, every listed owner, property, document and client, and every entry a director lists, is of the actor's agency; a non-agent's visits and claims hang off a property of that agency |
| Views.AgentListingsIgnoreAgency | backend/core/views.py:170-224 | an agent lists a visit, claim or finance entry naming them even when it belongs to another agency |
| Views.AgentFinanceIgnoresPropertyRole | backend/core/permissions.py:72-73 | an agent who created and is assigned to a property neither lists nor may open a live entry of their agency on it that names another agent |
| Views.SoftDeletedNeverListed | backend/core/views.py:62-224 | no soft-deleted row appears in any listing of a soft-deletable model, the claim query as written included |
| Views.SuperadminSeesNoOperationalData | backend/core/views.py:62-224 | every owner, property, document, client, visit, claim and finance listing, the claim query as written included, is empty for the super admin |
| Views.FinanceListingMatchesObjectCheck | backend/core/views.py:214-224 | a live finance entry is listed iff the finance object check grants it |
| Views.FinanceGateAgreesWithListing | backend/core/views.py:209-224 | an authenticated user refused by the finance endpoint would have listed nothing there |
| Creation.CreatedOwner | backend/core/views.py:76-77 | an owner is stored iff the user is authenticated and has an agency; it then carries the user's agency, and every other field is as submitted |
| Creation.CreatedProperty | backend/core/views.py:107-112 | as for owners, and `created_by` is the user |
| Creation.CreatedClient | backend/core/views.py:157-158 | as for owners, and `created_at` is the clock reading of the insert |
| Creation.CreatedFinance | backend/core/views.py:226-230 | stored iff the user passes the finance permission and has an agency; agency and `created_by` come from the user; otherwise the refusal or integrity error is returned |
| Creation.ClientSuppliedStampsIgnored | backend/core/views.py:107-112 | the stored row does not depend on the submitted `agency` or `created_by` |
| Creation.CreatedPropertyListedForCreator | backend/core/views.py:107-112 | a live property created by an agent, director or assistant joins the end of their own property listing |
| Creation.CreatedOwnerHiddenFromOtherAgencies | backend/core/views.py:76-77 | creating an owner leaves the owner listing of a user of another agency unchanged |
| Creation.Store.constructor | backend/core/models.py:177 | a new store has empty tables, and so meets the invariant that every stored client has a creation time |
| Creation.Store.CreateOwner | backend/core/views.py:76-77 | appends the stamped owner on success, changes nothing on failure, and leaves the other tables alone |
| Creation.Store.CreateProperty | backend/core/views.py:107-112 | appends the stamped property on success, and leaves the other tables alone |
| Creation.Store.CreateClient | backend/core/views.py:157-158 | appends the stamped client on success and keeps every stored client timestamped |
| Creation.Store.CreateFinance | backend/core/views.py:226-230 | appends the stamped finance entry on success, and leaves the other tables alone |

## Findings

| source | as written | input that shows it | evidently intended | confidence | as-written member | corrected member |
|---|---|---|---|---|---|---|
| backend/core/views.py:202 | The non-agent claim listing compares the claim's property's agency with the user's agency. When the user has no agency, Django turns this into an `IS NULL` test through a LEFT OUTER JOIN on the nullable `property` key, and that test matches every claim without a property. | An assistant with no agency, and a live claim of any agency whose property is NULL. | Such a user lists no claims, and a claim without a property is never listed outside the agent branch. | medium; not executed | Views.OrphanClaimLeaksAsWritten | Views.ClaimsListing |

`Views.VisibleClaimsAsWritten` models the query as the ORM runs it.
`Views.VisibleClaims` is the corrected listing. `Views.TenantIsolation` is
stated for it; the soft-delete and super-admin lemmas are stated for both.
The two agree for every user who has an agency (`Views.ClaimsAgreeWithAgency`).

## Left out

- ORM query execution, SQL, transactions and `save()` persistence. Queries are
  filters over tables held as sequences. The soft-delete methods change the
  in-memory instance only.
- The visit and claim listings assume referential integrity: every property id
  they reference exists in the property table.
- Duplicate rows: the agent branch of the property query ORs over the `agents`
  many-to-many join. SQL may then return one property several times. The model
  lists each matching row once.
- Authentication itself (JWT tokens) is reduced to the `isAuthenticated` flag
  of the acting user. An anonymous request is stopped by `Views.Gate` before any
  listing runs.
- Primary key allocation is left to the database. A created row keeps the id
  it was submitted with.
- Serializer validation is left out: required fields, choice checks on the
  other models, and the read-only `created_by`. Only the role choices of the
  user model are modelled.
- Decimal, float, file and JSON columns (price, area, coordinates, amount,
  uploads, criteria, photos), and the descriptive columns not used by any rule,
  are omitted from the records.
- The clock is a `Time` parameter. `created_at` is modelled on clients only,
  because only the client listing reads it.
- Update, retrieve and delete requests are left out; the framework's defaults
  serve them. Deletion through the API is physical and never calls
  `soft_delete`.
- Agency, user, document, visit and claim creation is left out. Those
  viewsets keep the framework's default create. Any authenticated user may
  create an agency. A new user keeps the submitted agency and any role among
  the choices (`Models.RoleOnCreate` states which roles are accepted). A
  document keeps the submitted agency. A visit or claim keeps the submitted
  property, client and agent; those models have no agency column.
- `IsSuperAdmin`, `IsDirectorOfAgency` and `IsSameAgency` are modelled as
  functions and related to one another. No viewset in this code attaches them
  to an endpoint.
- Result order: the models declare no ordering, the views call no
  `order_by` and no pagination is configured, so the source promises no order
  for any listing. The model lists rows in table order; the order-sensitive
  statements (`Creation.CreatedPropertyListedForCreator` appending at the end,
  `Views.AgentSeesAllAgencyClients` giving the same sequence) hold for that
  order only. The membership statements of the other lemmas do not depend on
  order.
- Configuration, URL routing and serializers hold no access rule, so they are
  not modelled.
