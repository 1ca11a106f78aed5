/** The permission classes: request-level and object-level checks, each a pure
    function of the acting user and, for object checks, the object. */
module Permissions {
  import opened Common
  import opened Models

  /** What reading `obj.agency` gives: `Missing` for a model without an agency
      column (Agency, Visit, Claim), otherwise the column, NULL as `None`. */
  datatype AgencyAttribute = Missing | Present(agency: Option<AgencyId>)

  /** The answer of a check that may raise: `Raises` is an AttributeError that
      escapes the check (the request fails with a server error). */
  datatype Decision = Allow | Deny | Raises

  function UserAgency(u: User): AgencyAttribute { Present(u.agency) }
  function FinanceAgency(e: FinanceEntry): AgencyAttribute { Present(Some(e.agency)) }

  /** `IsSuperAdmin.has_permission`. */
  predicate IsSuperAdmin(actor: Actor)
    ensures IsSuperAdmin(actor) ==> actor.isAuthenticated && !CanViewFinance(actor)
    ensures IsSuperAdmin(actor) <==> actor.isAuthenticated && RoleName(actor.role) == "superadmin"
  {
    actor.isAuthenticated && actor.role == Superadmin
  }

  /** `IsDirectorOfAgency.has_object_permission`: the conjunction is evaluated
      left to right, so the agency attribute is read only for an authenticated
      director, and its absence then raises. */
  function IsDirectorOfAgency(actor: Actor, obj: AgencyAttribute): (r: Decision)
    ensures r == Allow ==> actor.role == Director && IsSameAgency(actor, obj)
    ensures r == Raises <==> actor.isAuthenticated && actor.role == Director && obj.Missing?
    ensures !actor.isAuthenticated ==> r == Deny
  {
    if !actor.isAuthenticated || actor.role != Director then Deny
    else match obj
      case Missing => Raises
      case Present(a) => if actor.agency == a then Allow else Deny
  }

  /** `IsSameAgency.has_object_permission`: any exception is caught and denies. */
  predicate IsSameAgency(actor: Actor, obj: AgencyAttribute)
    ensures obj.Missing? ==> !IsSameAgency(actor, obj)
    ensures IsSameAgency(actor, obj) <==> actor.isAuthenticated && obj == Present(actor.agency)
  {
    actor.isAuthenticated && obj.Present? && obj.agency == actor.agency
  }

  /** `CanViewFinance.has_permission`. */
  predicate CanViewFinance(actor: Actor)
    ensures CanViewFinance(actor) ==> actor.isAuthenticated
    ensures actor.role == Superadmin || actor.role == Assistant || actor.role == Owner ==> !CanViewFinance(actor)
  {
    actor.isAuthenticated && (actor.role == Director || actor.role == Agent)
  }

  /** `CanViewFinance.has_object_permission`, on the finance entries it guards. */
  predicate CanViewFinanceEntry(actor: Actor, e: FinanceEntry)
    ensures CanViewFinanceEntry(actor, e) && actor.role == Director ==> Some(e.agency) == actor.agency
    ensures CanViewFinanceEntry(actor, e) && actor.role == Agent ==> e.agent == Some(actor.id)
    ensures actor.role != Director && actor.role != Agent ==> !CanViewFinanceEntry(actor, e)
  {
    match actor.role
    case Director => Some(e.agency) == actor.agency
    case Agent => e.agent == Some(actor.id)
    case _ => false
  }

  /** The director check grants exactly when the same-agency check grants to a
      director; it raises exactly where the same-agency check swallows the
      missing attribute and denies. */
  lemma DirectorOfAgencyIsSameAgencyForDirectors(actor: Actor, obj: AgencyAttribute)
    ensures IsDirectorOfAgency(actor, obj) == Allow <==> actor.role == Director && IsSameAgency(actor, obj)
    ensures IsDirectorOfAgency(actor, obj) == Raises <==>
              actor.isAuthenticated && actor.role == Director && obj.Missing?
    ensures IsDirectorOfAgency(actor, obj) == Raises ==> !IsSameAgency(actor, obj)
  {
  }

  /** An agency-scoped object (one whose agency column is NOT NULL) is never in
      the same agency as an actor without an agency. */
  lemma NoAgencyNoAccess(actor: Actor, a: AgencyId)
    requires actor.agency.None?
    ensures !IsSameAgency(actor, Present(Some(a)))
    ensures IsDirectorOfAgency(actor, Present(Some(a))) != Allow
  {
  }

  /** Python's `None == None` is true: an actor without an agency is in the
      "same agency" as any object whose agency is NULL (a user without one). */
  lemma SameAgencyMatchesNullAgencies(actor: Actor, u: User)
    requires actor.isAuthenticated && actor.agency.None? && u.agency.None?
    ensures IsSameAgency(actor, UserAgency(u))
  {
  }

  /** Finance is closed to the super admin at both levels. */
  lemma SuperAdminNeverSeesFinance(actor: Actor, e: FinanceEntry)
    requires IsSuperAdmin(actor)
    ensures !CanViewFinance(actor)
    ensures !CanViewFinanceEntry(actor, e)
  {
  }

  /** The object check never grants to a role the request check refuses: both
      admit only directors and agents. */
  lemma FinanceObjectWithinRequest(actor: Actor, e: FinanceEntry)
    ensures CanViewFinanceEntry(actor, e) ==> actor.role == Director || actor.role == Agent
    ensures CanViewFinanceEntry(actor, e) && actor.isAuthenticated ==> CanViewFinance(actor)
    ensures actor.role != Director && actor.role != Agent ==>
              !CanViewFinance(actor) && !CanViewFinanceEntry(actor, e)
  {
  }

  /** For an authenticated director the finance object check is the
      director-of-agency check on the entry. */
  lemma FinanceDirectorIsDirectorOfAgency(actor: Actor, e: FinanceEntry)
    requires actor.isAuthenticated && actor.role == Director
    ensures CanViewFinanceEntry(actor, e) <==> IsDirectorOfAgency(actor, FinanceAgency(e)) == Allow
  {
  }
}
