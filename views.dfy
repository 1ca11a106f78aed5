/** The viewsets: which rows of each table a request may list (`get_queryset`),
    and the request-level permission classes each endpoint carries. */
module Views {
  import opened Common
  import opened SeqFilter
  import opened Models
  import opened Permissions

  /** The nine endpoints. */
  datatype Resource = Agencies | Users | Owners | Properties | Documents | Clients | Visits | Claims | Finances

  /** Why a request is refused before the view runs. */
  datatype Denial = NotAuthenticated | PermissionDenied

  /** The `permission_classes` of each viewset: `IsAuthenticated` everywhere,
      followed by `CanViewFinance` on the finance endpoint. */
  function Gate(resource: Resource, actor: Actor): (r: Option<Denial>)
    ensures r.None? <==> actor.isAuthenticated && (resource == Finances ==> CanViewFinance(actor))
    ensures r == Some(NotAuthenticated) <==> !actor.isAuthenticated
  {
    if !actor.isAuthenticated then Some(NotAuthenticated)
    else if resource == Finances && !CanViewFinance(actor) then Some(PermissionDenied)
    else None
  }

  predicate Alive(d: Deletion) { !d.isDeleted }

  /** The ORM comparison `column = user.agency` on a NOT NULL agency column:
      NULL on the right matches nothing. */
  predicate SameAgency(agency: AgencyId, actor: Actor) { Some(agency) == actor.agency }

  // ---------------------------------------------------------------------------
  // get_queryset
  // ---------------------------------------------------------------------------

  /** AgencyViewSet: all agencies for the super admin, otherwise the one whose id
      is the user's agency id. */
  function VisibleAgencies(actor: Actor, agencies: seq<Agency>): (r: seq<Agency>)
    ensures forall g :: g in r ==> g in agencies && (actor.role == Superadmin || Some(g.id) == actor.agency)
  {
    if actor.role == Superadmin then agencies
    else Filter((g: Agency) => Some(g.id) == actor.agency, agencies)
  }

  /** UserViewSet: all users for the super admin, the users of the actor's agency
      when there is one, nobody otherwise. */
  function VisibleUsers(actor: Actor, users: seq<User>): (r: seq<User>)
    ensures forall u :: u in r ==>
              u in users && (actor.role == Superadmin || (actor.agency.Some? && u.agency == actor.agency))
  {
    if actor.role == Superadmin then users
    else if actor.agency.Some? then Filter((u: User) => u.agency == actor.agency, users)
    else []
  }

  predicate OwnerRule(actor: Actor, o: PropertyOwner)
  {
    SameAgency(o.agency, actor) && Alive(o.deletion)
  }

  /** OwnerViewSet. */
  function VisibleOwners(actor: Actor, owners: seq<PropertyOwner>): (r: seq<PropertyOwner>)
    ensures forall o :: o in r ==>
              o in owners && actor.role != Superadmin && !o.deletion.isDeleted && Some(o.agency) == actor.agency
  {
    if actor.role == Superadmin then []
    else Filter((o: PropertyOwner) => OwnerRule(actor, o), owners)
  }

  predicate AgentPropertyRule(actor: Actor, p: Property)
  {
    Alive(p.deletion) && SameAgency(p.agency, actor) && (p.createdBy == Some(actor.id) || actor.id in p.agents)
  }

  predicate StaffPropertyRule(actor: Actor, p: Property)
  {
    Alive(p.deletion) && SameAgency(p.agency, actor)
  }

  /** PropertyViewSet. */
  function VisibleProperties(actor: Actor, properties: seq<Property>): (r: seq<Property>)
    ensures forall p :: p in r ==>
              p in properties && !p.deletion.isDeleted && Some(p.agency) == actor.agency &&
              ((actor.role == Agent && (p.createdBy == Some(actor.id) || actor.id in p.agents)) ||
               actor.role == Director || actor.role == Assistant)
  {
    if actor.role == Superadmin then []
    else if actor.role == Agent then Filter((p: Property) => AgentPropertyRule(actor, p), properties)
    else if actor.role == Director || actor.role == Assistant then
      Filter((p: Property) => StaffPropertyRule(actor, p), properties)
    else []
  }

  predicate DocumentRule(actor: Actor, d: Document)
  {
    SameAgency(d.agency, actor) && Alive(d.deletion)
  }

  /** DocumentViewSet. */
  function VisibleDocuments(actor: Actor, documents: seq<Document>): (r: seq<Document>)
    ensures forall d :: d in r ==>
              d in documents && actor.role != Superadmin && !d.deletion.isDeleted && Some(d.agency) == actor.agency
  {
    if actor.role == Superadmin then []
    else Filter((d: Document) => DocumentRule(actor, d), documents)
  }

  /** The agent branch of ClientViewSet, written as the query is: the second
      disjunct tests `created_at IS NOT NULL`. */
  predicate AgentClientRule(actor: Actor, c: Client)
  {
    Alive(c.deletion) && SameAgency(c.agency, actor) && (c.assignedAgent == Some(actor.id) || c.createdAt.Some?)
  }

  predicate StaffClientRule(actor: Actor, c: Client)
  {
    Alive(c.deletion) && SameAgency(c.agency, actor)
  }

  /** ClientViewSet. */
  function VisibleClients(actor: Actor, clients: seq<Client>): (r: seq<Client>)
    ensures forall c :: c in r ==>
              c in clients && actor.role != Superadmin && !c.deletion.isDeleted && Some(c.agency) == actor.agency
  {
    if actor.role == Superadmin then []
    else if actor.role == Agent then Filter((c: Client) => AgentClientRule(actor, c), clients)
    else Filter((c: Client) => StaffClientRule(actor, c), clients)
  }

  /** The join `property__agency = agency` through a NOT NULL foreign key:
      the referenced property row belongs to the agency. Soft-deleted
      properties take part in the join. */
  predicate PropertyInAgency(properties: seq<Property>, pid: PropertyId, agency: Option<AgencyId>)
  {
    exists p :: p in properties && p.id == pid && Some(p.agency) == agency
  }

  predicate AgentVisitRule(actor: Actor, v: Visit)
  {
    Alive(v.deletion) && v.agent == Some(actor.id)
  }

  predicate StaffVisitRule(actor: Actor, properties: seq<Property>, v: Visit)
  {
    Alive(v.deletion) && PropertyInAgency(properties, v.property, actor.agency)
  }

  /** VisitViewSet; `properties` is the property table the join reads. */
  function VisibleVisits(actor: Actor, visits: seq<Visit>, properties: seq<Property>): (r: seq<Visit>)
    ensures forall v :: v in r ==>
              v in visits && actor.role != Superadmin && !v.deletion.isDeleted &&
              (actor.role == Agent ==> v.agent == Some(actor.id)) &&
              (actor.role != Agent ==> PropertyInAgency(properties, v.property, actor.agency))
  {
    if actor.role == Superadmin then []
    else if actor.role == Agent then Filter((v: Visit) => AgentVisitRule(actor, v), visits)
    else Filter((v: Visit) => StaffVisitRule(actor, properties, v), visits)
  }

  predicate AgentClaimRule(actor: Actor, c: Claim)
  {
    Alive(c.deletion) && c.agent == Some(actor.id)
  }

  /** The non-agent branch of ClaimViewSet as the ORM evaluates it. Comparing
      with a NULL agency becomes `IS NULL` through a LEFT OUTER JOIN on the
      nullable `property` key, so a claim without a property matches an actor
      without an agency. */
  predicate StaffClaimRuleAsWritten(actor: Actor, properties: seq<Property>, c: Claim)
  {
    Alive(c.deletion) &&
    match c.property
    case None => actor.agency.None?
    case Some(pid) => PropertyInAgency(properties, pid, actor.agency)
  }

  /** The non-agent rule as intended: the claim's property belongs to the actor's agency. */
  predicate StaffClaimRule(actor: Actor, properties: seq<Property>, c: Claim)
  {
    Alive(c.deletion) && c.property.Some? && PropertyInAgency(properties, c.property.value, actor.agency)
  }

  /** ClaimViewSet, as the query behaves. */
  function VisibleClaimsAsWritten(actor: Actor, claims: seq<Claim>, properties: seq<Property>): (r: seq<Claim>)
    ensures forall c :: c in r ==>
              c in claims && actor.role != Superadmin && !c.deletion.isDeleted &&
              (actor.role == Agent ==> c.agent == Some(actor.id)) &&
              (actor.role != Agent && c.property.None? ==> actor.agency.None?) &&
              (actor.role != Agent && c.property.Some? ==> PropertyInAgency(properties, c.property.value, actor.agency))
  {
    if actor.role == Superadmin then []
    else if actor.role == Agent then Filter((c: Claim) => AgentClaimRule(actor, c), claims)
    else Filter((c: Claim) => StaffClaimRuleAsWritten(actor, properties, c), claims)
  }

  /** ClaimViewSet, as intended: the listing the rest of the model uses. */
  function VisibleClaims(actor: Actor, claims: seq<Claim>, properties: seq<Property>): (r: seq<Claim>)
    ensures forall c :: c in r ==>
              c in claims && actor.role != Superadmin && !c.deletion.isDeleted &&
              (actor.role == Agent ==> c.agent == Some(actor.id)) &&
              (actor.role != Agent ==> c.property.Some? && PropertyInAgency(properties, c.property.value, actor.agency))
  {
    if actor.role == Superadmin then []
    else if actor.role == Agent then Filter((c: Claim) => AgentClaimRule(actor, c), claims)
    else Filter((c: Claim) => StaffClaimRule(actor, properties, c), claims)
  }

  predicate DirectorFinanceRule(actor: Actor, e: FinanceEntry)
  {
    Alive(e.deletion) && SameAgency(e.agency, actor)
  }

  predicate AgentFinanceRule(actor: Actor, e: FinanceEntry)
  {
    Alive(e.deletion) && e.agent == Some(actor.id)
  }

  /** FinanceViewSet. */
  function VisibleFinances(actor: Actor, entries: seq<FinanceEntry>): (r: seq<FinanceEntry>)
    ensures forall e :: e in r ==>
              e in entries && !e.deletion.isDeleted &&
              ((actor.role == Director && Some(e.agency) == actor.agency) ||
               (actor.role == Agent && e.agent == Some(actor.id)))
  {
    if actor.role == Director then Filter((e: FinanceEntry) => DirectorFinanceRule(actor, e), entries)
    else if actor.role == Agent then Filter((e: FinanceEntry) => AgentFinanceRule(actor, e), entries)
    else []
  }

  // ---------------------------------------------------------------------------
  // What each listing contains
  // ---------------------------------------------------------------------------

  /** The super admin lists every agency; anyone else at most their own. */
  lemma {:induction false} AgenciesListing(actor: Actor, agencies: seq<Agency>, g: Agency)
    ensures actor.role == Superadmin ==> VisibleAgencies(actor, agencies) == agencies
    ensures g in VisibleAgencies(actor, agencies) <==>
              g in agencies && (actor.role == Superadmin || Some(g.id) == actor.agency)
  {
    FilterMembership((g: Agency) => Some(g.id) == actor.agency, agencies);
  }

  /** With primary keys distinct, a non-super-admin lists at most one agency. */
  lemma {:induction false} AtMostOneAgency(actor: Actor, agencies: seq<Agency>)
    requires forall i, j :: 0 <= i < j < |agencies| ==> agencies[i].id != agencies[j].id
    requires actor.role != Superadmin
    ensures |VisibleAgencies(actor, agencies)| <= 1
  {
    match actor.agency
    case None =>
      FilterNone((g: Agency) => Some(g.id) == actor.agency, agencies);
    case Some(a) =>
      FilterUniqueKey((g: Agency) => Some(g.id) == actor.agency, (g: Agency) => g.id, agencies, a);
  }

  /** The super admin lists all users, anyone with an agency exactly that
      agency's users, anyone else nobody. */
  lemma {:induction false} UsersListing(actor: Actor, users: seq<User>, u: User)
    ensures actor.role == Superadmin ==> VisibleUsers(actor, users) == users
    ensures actor.role != Superadmin && actor.agency.None? ==> VisibleUsers(actor, users) == []
    ensures actor.role != Superadmin && actor.agency.Some? ==>
              (u in VisibleUsers(actor, users) <==> u in users && u.agency == actor.agency)
  {
    FilterMembership((u: User) => u.agency == actor.agency, users);
  }

  /** Owners: nothing for the super admin, otherwise exactly the live owners of
      the actor's agency. */
  lemma {:induction false} OwnersListing(actor: Actor, owners: seq<PropertyOwner>, o: PropertyOwner)
    ensures actor.role == Superadmin ==> VisibleOwners(actor, owners) == []
    ensures o in VisibleOwners(actor, owners) <==>
              o in owners && actor.role != Superadmin && !o.deletion.isDeleted && Some(o.agency) == actor.agency
  {
    FilterMembership((o: PropertyOwner) => OwnerRule(actor, o), owners);
  }

  /** Documents: nothing for the super admin, otherwise exactly the live
      documents of the actor's agency. */
  lemma {:induction false} DocumentsListing(actor: Actor, documents: seq<Document>, d: Document)
    ensures actor.role == Superadmin ==> VisibleDocuments(actor, documents) == []
    ensures d in VisibleDocuments(actor, documents) <==>
              d in documents && actor.role != Superadmin && !d.deletion.isDeleted && Some(d.agency) == actor.agency
  {
    FilterMembership((d: Document) => DocumentRule(actor, d), documents);
  }

  /** Properties: an agent lists the live properties of their agency that they
      created or are assigned to; a director or assistant every live property of
      their agency; any other role nothing. */
  lemma {:induction false} PropertiesListing(actor: Actor, properties: seq<Property>, p: Property)
    ensures actor.role == Superadmin || actor.role == Owner ==> VisibleProperties(actor, properties) == []
    ensures actor.role == Agent ==>
              (p in VisibleProperties(actor, properties) <==>
                 p in properties && !p.deletion.isDeleted && Some(p.agency) == actor.agency &&
                 (p.createdBy == Some(actor.id) || actor.id in p.agents))
    ensures actor.role == Director || actor.role == Assistant ==>
              (p in VisibleProperties(actor, properties) <==>
                 p in properties && !p.deletion.isDeleted && Some(p.agency) == actor.agency)
  {
    FilterMembership((p: Property) => AgentPropertyRule(actor, p), properties);
    FilterMembership((p: Property) => StaffPropertyRule(actor, p), properties);
  }

  /** Clients: nothing for the super admin; every other role only live clients
      of their own agency. */
  lemma {:induction false} ClientsListing(actor: Actor, clients: seq<Client>, c: Client)
    ensures actor.role == Superadmin ==> VisibleClients(actor, clients) == []
    ensures c in VisibleClients(actor, clients) ==>
              c in clients && !c.deletion.isDeleted && Some(c.agency) == actor.agency
    ensures actor.role != Superadmin && actor.role != Agent ==>
              (c in VisibleClients(actor, clients) <==>
                 c in clients && !c.deletion.isDeleted && Some(c.agency) == actor.agency)
  {
    FilterMembership((c: Client) => AgentClientRule(actor, c), clients);
    FilterMembership((c: Client) => StaffClientRule(actor, c), clients);
  }

  /** Every stored client has its creation time: the column is NOT NULL and is
      filled on insert. */
  predicate ClientsTimestamped(clients: seq<Client>)
  {
    forall i :: 0 <= i < |clients| ==> clients[i].createdAt.Some?
  }

  /** Because `created_at` is never NULL, the agent branch of the client listing
      keeps every live client of the agency: an agent lists exactly what a
      director of the same agency lists, in the same order. */
  lemma {:induction false} AgentSeesAllAgencyClients(actor: Actor, clients: seq<Client>)
    requires actor.role == Agent
    requires ClientsTimestamped(clients)
    ensures VisibleClients(actor, clients) == VisibleClients(actor.(role := Director), clients)
    ensures VisibleClients(actor, clients) == Filter((c: Client) => StaffClientRule(actor, c), clients)
  {
    FilterCongruent((c: Client) => AgentClientRule(actor, c), (c: Client) => StaffClientRule(actor, c), clients);
    var director := actor.(role := Director);
    FilterCongruent((c: Client) => StaffClientRule(actor, c), (c: Client) => StaffClientRule(director, c), clients);
  }

  /** Visits: nothing for the super admin; an agent their own live visits with
      no agency check; anyone else the live visits of properties of their agency. */
  lemma {:induction false} VisitsListing(actor: Actor, visits: seq<Visit>, properties: seq<Property>, v: Visit)
    ensures actor.role == Superadmin ==> VisibleVisits(actor, visits, properties) == []
    ensures actor.role == Agent ==>
              (v in VisibleVisits(actor, visits, properties) <==>
                 v in visits && !v.deletion.isDeleted && v.agent == Some(actor.id))
    ensures actor.role != Superadmin && actor.role != Agent ==>
              (v in VisibleVisits(actor, visits, properties) <==>
                 v in visits && !v.deletion.isDeleted &&
                 exists p :: p in properties && p.id == v.property && Some(p.agency) == actor.agency)
  {
    FilterMembership((v: Visit) => AgentVisitRule(actor, v), visits);
    FilterMembership((v: Visit) => StaffVisitRule(actor, properties, v), visits);
  }

  /** Claims: nothing for the super admin; an agent their own live claims; anyone
      else the live claims of properties of their agency, so never a claim
      without a property. */
  lemma {:induction false} ClaimsListing(actor: Actor, claims: seq<Claim>, properties: seq<Property>, c: Claim)
    ensures actor.role == Superadmin ==> VisibleClaims(actor, claims, properties) == []
    ensures actor.role == Agent ==>
              (c in VisibleClaims(actor, claims, properties) <==>
                 c in claims && !c.deletion.isDeleted && c.agent == Some(actor.id))
    ensures actor.role != Superadmin && actor.role != Agent ==>
              (c in VisibleClaims(actor, claims, properties) <==>
                 c in claims && !c.deletion.isDeleted && c.property.Some? &&
                 exists p :: p in properties && p.id == c.property.value && Some(p.agency) == actor.agency)
  {
    FilterMembership((c: Claim) => AgentClaimRule(actor, c), claims);
    FilterMembership((c: Claim) => StaffClaimRule(actor, properties, c), claims);
  }

  /** The claim query as written lists, for an actor without an agency, a claim
      that has no property: a claim of any agency the intended rule never shows. */
  lemma OrphanClaimLeaksAsWritten(actor: Actor, c: Claim)
    requires actor.role == Assistant && actor.agency.None?
    requires c.property.None? && !c.deletion.isDeleted
    ensures c in VisibleClaimsAsWritten(actor, [c], [])
    ensures c !in VisibleClaims(actor, [c], [])
  {
    FilterMembership((c: Claim) => StaffClaimRuleAsWritten(actor, [], c), [c]);
    FilterMembership((c: Claim) => StaffClaimRule(actor, [], c), [c]);
  }

  /** The two claim listings agree for every actor that has an agency. */
  lemma {:induction false} ClaimsAgreeWithAgency(actor: Actor, claims: seq<Claim>, properties: seq<Property>)
    requires actor.agency.Some?
    ensures VisibleClaimsAsWritten(actor, claims, properties) == VisibleClaims(actor, claims, properties)
  {
    FilterCongruent((c: Claim) => StaffClaimRuleAsWritten(actor, properties, c),
                    (c: Claim) => StaffClaimRule(actor, properties, c), claims);
  }

  /** Finance: a director lists the live entries of their agency, an agent the
      live entries naming them, every other role nothing. */
  lemma {:induction false} FinancesListing(actor: Actor, entries: seq<FinanceEntry>, e: FinanceEntry)
    ensures actor.role != Director && actor.role != Agent ==> VisibleFinances(actor, entries) == []
    ensures actor.role == Director ==>
              (e in VisibleFinances(actor, entries) <==>
                 e in entries && !e.deletion.isDeleted && Some(e.agency) == actor.agency)
    ensures actor.role == Agent ==>
              (e in VisibleFinances(actor, entries) <==>
                 e in entries && !e.deletion.isDeleted && e.agent == Some(actor.id))
  {
    FilterMembership((e: FinanceEntry) => DirectorFinanceRule(actor, e), entries);
    FilterMembership((e: FinanceEntry) => AgentFinanceRule(actor, e), entries);
  }

  // ---------------------------------------------------------------------------
  // Properties across listings
  // ---------------------------------------------------------------------------

  /** Agency isolation: outside the super admin, every owner, property, document
      and client listed belongs to the actor's agency, and so does every finance
      entry a director lists; the visits and claims a non-agent lists hang off a
      property of the actor's agency. */
  lemma TenantIsolation(
    actor: Actor, owners: seq<PropertyOwner>, properties: seq<Property>, documents: seq<Document>,
    clients: seq<Client>, visits: seq<Visit>, claims: seq<Claim>, entries: seq<FinanceEntry>)
    requires actor.role != Superadmin
    ensures forall o :: o in VisibleOwners(actor, owners) ==> Some(o.agency) == actor.agency
    ensures forall p :: p in VisibleProperties(actor, properties) ==> Some(p.agency) == actor.agency
    ensures forall d :: d in VisibleDocuments(actor, documents) ==> Some(d.agency) == actor.agency
    ensures forall c :: c in VisibleClients(actor, clients) ==> Some(c.agency) == actor.agency
    ensures actor.role == Director ==>
              forall e :: e in VisibleFinances(actor, entries) ==> Some(e.agency) == actor.agency
    ensures actor.role != Agent ==>
              forall v :: v in VisibleVisits(actor, visits, properties) ==>
                PropertyInAgency(properties, v.property, actor.agency)
    ensures actor.role != Agent ==>
              forall c :: c in VisibleClaims(actor, claims, properties) ==>
                c.property.Some? && PropertyInAgency(properties, c.property.value, actor.agency)
  {
  }

  /** The agent branches of the visit, claim and finance listings check only the
      `agent` column: an agent lists a row naming them from another agency. */
  lemma AgentListingsIgnoreAgency(actor: Actor, v: Visit, c: Claim, e: FinanceEntry, p: Property)
    requires actor.role == Agent
    requires v.agent == Some(actor.id) && !v.deletion.isDeleted && v.property == p.id
    requires c.agent == Some(actor.id) && !c.deletion.isDeleted && c.property == Some(p.id)
    requires e.agent == Some(actor.id) && !e.deletion.isDeleted
    requires Some(p.agency) != actor.agency && Some(e.agency) != actor.agency
    ensures v in VisibleVisits(actor, [v], [p])
    ensures c in VisibleClaims(actor, [c], [p])
    ensures e in VisibleFinances(actor, [e])
  {
    FilterMembership((v: Visit) => AgentVisitRule(actor, v), [v]);
    FilterMembership((c: Claim) => AgentClaimRule(actor, c), [c]);
    FilterMembership((e: FinanceEntry) => AgentFinanceRule(actor, e), [e]);
  }

  /** An agent's access to a finance entry turns on the entry's `agent` column
      alone: the creator of a property, also assigned to it, neither lists nor
      may open a live entry of their agency on that property naming another agent. */
  lemma AgentFinanceIgnoresPropertyRole(actor: Actor, p: Property, e: FinanceEntry)
    requires actor.role == Agent
    requires p.createdBy == Some(actor.id) && actor.id in p.agents
    requires e.property == Some(p.id) && e.agent != Some(actor.id)
    requires !e.deletion.isDeleted && Some(e.agency) == actor.agency
    ensures !CanViewFinanceEntry(actor, e)
    ensures e !in VisibleFinances(actor, [e])
  {
    FilterMembership((e: FinanceEntry) => AgentFinanceRule(actor, e), [e]);
  }

  /** A soft-deleted row never appears in any listing of a soft-deletable model. */
  lemma SoftDeletedNeverListed(
    actor: Actor, owners: seq<PropertyOwner>, properties: seq<Property>, documents: seq<Document>,
    clients: seq<Client>, visits: seq<Visit>, claims: seq<Claim>, entries: seq<FinanceEntry>)
    ensures forall o :: o in VisibleOwners(actor, owners) ==> !o.deletion.isDeleted
    ensures forall p :: p in VisibleProperties(actor, properties) ==> !p.deletion.isDeleted
    ensures forall d :: d in VisibleDocuments(actor, documents) ==> !d.deletion.isDeleted
    ensures forall c :: c in VisibleClients(actor, clients) ==> !c.deletion.isDeleted
    ensures forall v :: v in VisibleVisits(actor, visits, properties) ==> !v.deletion.isDeleted
    ensures forall c :: c in VisibleClaims(actor, claims, properties) ==> !c.deletion.isDeleted
    ensures forall c :: c in VisibleClaimsAsWritten(actor, claims, properties) ==> !c.deletion.isDeleted
    ensures forall e :: e in VisibleFinances(actor, entries) ==> !e.deletion.isDeleted
  {
  }

  /** The super admin administers agencies and users only: every operational
      listing is empty for them. */
  lemma SuperadminSeesNoOperationalData(
    actor: Actor, owners: seq<PropertyOwner>, properties: seq<Property>, documents: seq<Document>,
    clients: seq<Client>, visits: seq<Visit>, claims: seq<Claim>, entries: seq<FinanceEntry>)
    requires actor.role == Superadmin
    ensures VisibleOwners(actor, owners) == [] && VisibleProperties(actor, properties) == []
    ensures VisibleDocuments(actor, documents) == [] && VisibleClients(actor, clients) == []
    ensures VisibleVisits(actor, visits, properties) == [] && VisibleClaims(actor, claims, properties) == []
    ensures VisibleClaimsAsWritten(actor, claims, properties) == []
    ensures VisibleFinances(actor, entries) == []
  {
  }

  /** On a live finance entry the listing and the object check agree: a row is
      listed exactly when `CanViewFinance` grants access to it. */
  lemma {:induction false} FinanceListingMatchesObjectCheck(actor: Actor, entries: seq<FinanceEntry>, e: FinanceEntry)
    requires e in entries && !e.deletion.isDeleted
    ensures e in VisibleFinances(actor, entries) <==> CanViewFinanceEntry(actor, e)
  {
    FilterMembership((e: FinanceEntry) => DirectorFinanceRule(actor, e), entries);
    FilterMembership((e: FinanceEntry) => AgentFinanceRule(actor, e), entries);
  }

  /** An authenticated actor refused by the finance endpoint's permission class
      would have listed nothing there anyway. */
  lemma FinanceGateAgreesWithListing(actor: Actor, entries: seq<FinanceEntry>)
    requires actor.isAuthenticated && Gate(Finances, actor) == Some(PermissionDenied)
    ensures VisibleFinances(actor, entries) == []
  {
  }
}
