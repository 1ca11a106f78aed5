/** Creation through the viewsets that override `perform_create`: the server
    assigns `agency` (and, for properties and finance entries, `created_by`)
    from the requesting user, whatever the request body said. */
module Creation {
  import opened Common
  import opened SeqFilter
  import opened Models
  import opened Permissions
  import opened Views

  /** Why a create request stores nothing: refused by the endpoint's permission
      classes, or rejected by the database because `agency` is NOT NULL and the
      user has no agency. */
  datatype CreateError = Refused(denial: Denial) | IntegrityError

  /** OwnerViewSet.perform_create. */
  function CreatedOwner(actor: Actor, submitted: PropertyOwner): (r: Result<PropertyOwner, CreateError>)
    ensures r.Success? <==> actor.isAuthenticated && actor.agency.Some?
    ensures r.Success? ==> Some(r.value.agency) == actor.agency
    ensures r.Success? ==> r.value.(agency := submitted.agency) == submitted
    ensures !actor.isAuthenticated ==> r == Failure(Refused(NotAuthenticated))
    ensures actor.isAuthenticated && actor.agency.None? ==> r == Failure(IntegrityError)
  {
    match Gate(Owners, actor)
    case Some(d) => Failure(Refused(d))
    case None =>
      if actor.agency.None? then Failure(IntegrityError)
      else Success(submitted.(agency := actor.agency.value))
  }

  /** PropertyViewSet.perform_create. */
  function CreatedProperty(actor: Actor, submitted: Property): (r: Result<Property, CreateError>)
    ensures r.Success? <==> actor.isAuthenticated && actor.agency.Some?
    ensures r.Success? ==> Some(r.value.agency) == actor.agency && r.value.createdBy == Some(actor.id)
    ensures r.Success? ==> r.value.(agency := submitted.agency, createdBy := submitted.createdBy) == submitted
    ensures !actor.isAuthenticated ==> r == Failure(Refused(NotAuthenticated))
    ensures actor.isAuthenticated && actor.agency.None? ==> r == Failure(IntegrityError)
  {
    match Gate(Properties, actor)
    case Some(d) => Failure(Refused(d))
    case None =>
      if actor.agency.None? then Failure(IntegrityError)
      else Success(submitted.(agency := actor.agency.value, createdBy := Some(actor.id)))
  }

  /** ClientViewSet.perform_create; the insert also fills `created_at` with the
      clock reading `now` (an `auto_now_add` column). */
  function CreatedClient(actor: Actor, submitted: Client, now: Time): (r: Result<Client, CreateError>)
    ensures r.Success? <==> actor.isAuthenticated && actor.agency.Some?
    ensures r.Success? ==> Some(r.value.agency) == actor.agency && r.value.createdAt == Some(now)
    ensures r.Success? ==> r.value.(agency := submitted.agency, createdAt := submitted.createdAt) == submitted
    ensures !actor.isAuthenticated ==> r == Failure(Refused(NotAuthenticated))
    ensures actor.isAuthenticated && actor.agency.None? ==> r == Failure(IntegrityError)
  {
    match Gate(Clients, actor)
    case Some(d) => Failure(Refused(d))
    case None =>
      if actor.agency.None? then Failure(IntegrityError)
      else Success(submitted.(agency := actor.agency.value, createdAt := Some(now)))
  }

  /** FinanceViewSet.perform_create, behind `CanViewFinance.has_permission`. */
  function CreatedFinance(actor: Actor, submitted: FinanceEntry): (r: Result<FinanceEntry, CreateError>)
    ensures r.Success? <==> CanViewFinance(actor) && actor.agency.Some?
    ensures r.Success? ==> Some(r.value.agency) == actor.agency && r.value.createdBy == Some(actor.id)
    ensures r.Success? ==> r.value.(agency := submitted.agency, createdBy := submitted.createdBy) == submitted
    ensures !actor.isAuthenticated ==> r == Failure(Refused(NotAuthenticated))
    ensures actor.isAuthenticated && !CanViewFinance(actor) ==> r == Failure(Refused(PermissionDenied))
    ensures CanViewFinance(actor) && actor.agency.None? ==> r == Failure(IntegrityError)
  {
    match Gate(Finances, actor)
    case Some(d) => Failure(Refused(d))
    case None =>
      if actor.agency.None? then Failure(IntegrityError)
      else Success(submitted.(agency := actor.agency.value, createdBy := Some(actor.id)))
  }

  /** Whatever `agency` and `created_by` the request body carries, the stored row
      is the same. */
  lemma ClientSuppliedStampsIgnored(
    actor: Actor, o: PropertyOwner, p: Property, c: Client, e: FinanceEntry,
    agency: AgencyId, createdBy: Option<UserId>, now: Time)
    ensures CreatedOwner(actor, o.(agency := agency)) == CreatedOwner(actor, o)
    ensures CreatedProperty(actor, p.(agency := agency, createdBy := createdBy)) == CreatedProperty(actor, p)
    ensures CreatedClient(actor, c.(agency := agency), now) == CreatedClient(actor, c, now)
    ensures CreatedFinance(actor, e.(agency := agency, createdBy := createdBy)) == CreatedFinance(actor, e)
  {
  }

  /** A live property created by an agent, director or assistant is listed for
      its creator, after everything they listed before. */
  lemma {:induction false} CreatedPropertyListedForCreator(actor: Actor, properties: seq<Property>, submitted: Property)
    requires CreatedProperty(actor, submitted).Success?
    requires actor.role == Agent || actor.role == Director || actor.role == Assistant
    requires !submitted.deletion.isDeleted
    ensures VisibleProperties(actor, properties + [CreatedProperty(actor, submitted).value]) ==
            VisibleProperties(actor, properties) + [CreatedProperty(actor, submitted).value]
  {
    var p := CreatedProperty(actor, submitted).value;
    FilterAppend((p: Property) => AgentPropertyRule(actor, p), properties, p);
    FilterAppend((p: Property) => StaffPropertyRule(actor, p), properties, p);
  }

  /** A created owner changes nothing in the owner listing of a user of another
      agency. */
  lemma {:induction false} CreatedOwnerHiddenFromOtherAgencies(
    actor: Actor, other: Actor, owners: seq<PropertyOwner>, submitted: PropertyOwner)
    requires CreatedOwner(actor, submitted).Success?
    requires other.agency != actor.agency
    ensures VisibleOwners(other, owners + [CreatedOwner(actor, submitted).value]) == VisibleOwners(other, owners)
  {
    var o := CreatedOwner(actor, submitted).value;
    FilterAppend((o: PropertyOwner) => OwnerRule(other, o), owners, o);
  }

  /** The tables written by the create endpoints. */
  class Store {
    var owners: seq<PropertyOwner>
    var properties: seq<Property>
    var clients: seq<Client>
    var finances: seq<FinanceEntry>

    /** Every stored client has a creation time. */
    ghost predicate Valid()
      reads this
    {
      ClientsTimestamped(clients)
    }

    constructor ()
      ensures Valid()
      ensures owners == [] && properties == [] && clients == [] && finances == []
    {
      owners, properties, clients, finances := [], [], [], [];
    }

    method CreateOwner(actor: Actor, submitted: PropertyOwner) returns (r: Result<PropertyOwner, CreateError>)
      requires Valid()
      modifies this
      ensures Valid()
      ensures r == CreatedOwner(actor, submitted)
      ensures owners == old(owners) + (if r.Success? then [r.value] else [])
      ensures properties == old(properties) && clients == old(clients) && finances == old(finances)
    {
      r := CreatedOwner(actor, submitted);
      if r.Success? {
        owners := owners + [r.value];
      }
    }

    method CreateProperty(actor: Actor, submitted: Property) returns (r: Result<Property, CreateError>)
      requires Valid()
      modifies this
      ensures Valid()
      ensures r == CreatedProperty(actor, submitted)
      ensures properties == old(properties) + (if r.Success? then [r.value] else [])
      ensures owners == old(owners) && clients == old(clients) && finances == old(finances)
    {
      r := CreatedProperty(actor, submitted);
      if r.Success? {
        properties := properties + [r.value];
      }
    }

    method CreateClient(actor: Actor, submitted: Client, now: Time) returns (r: Result<Client, CreateError>)
      requires Valid()
      modifies this
      ensures Valid()
      ensures r == CreatedClient(actor, submitted, now)
      ensures clients == old(clients) + (if r.Success? then [r.value] else [])
      ensures owners == old(owners) && properties == old(properties) && finances == old(finances)
    {
      r := CreatedClient(actor, submitted, now);
      if r.Success? {
        clients := clients + [r.value];
      }
    }

    method CreateFinance(actor: Actor, submitted: FinanceEntry) returns (r: Result<FinanceEntry, CreateError>)
      requires Valid()
      modifies this
      ensures Valid()
      ensures r == CreatedFinance(actor, submitted)
      ensures finances == old(finances) + (if r.Success? then [r.value] else [])
      ensures owners == old(owners) && properties == old(properties) && clients == old(clients)
    {
      r := CreatedFinance(actor, submitted);
      if r.Success? {
        finances := finances + [r.value];
      }
    }
  }
}
