/** The schema of the agency back end: roles, the soft-delete flags shared by
    every tenant-scoped model, and one record type per model. */
module Models {
  import opened Common

  /** The five values of the user's `role` column. */
  datatype Role = Superadmin | Director | Assistant | Agent | Owner

  /** The stored values of the role choices, in declaration order. */
  const RoleChoices: seq<string> := ["superadmin", "director", "assistant", "agent", "owner"]

  /** The string a role is stored as. */
  function RoleName(r: Role): (s: string)
    ensures s in RoleChoices
  {
    match r
    case Superadmin => "superadmin"
    case Director => "director"
    case Assistant => "assistant"
    case Agent => "agent"
    case Owner => "owner"
  }

  /** Choice validation of a stored role string: only the five choices are roles. */
  function ParseRole(s: string): (r: Option<Role>)
    ensures r.Some? <==> s in RoleChoices
    ensures r.Some? ==> RoleName(r.value) == s
  {
    if s == "superadmin" then Some(Superadmin)
    else if s == "director" then Some(Director)
    else if s == "assistant" then Some(Assistant)
    else if s == "agent" then Some(Agent)
    else if s == "owner" then Some(Owner)
    else None
  }

  /** Reading back a stored role gives the role; no two roles share a string. */
  lemma RoleNameRoundTrip(r: Role, r': Role)
    ensures ParseRole(RoleName(r)) == Some(r)
    ensures RoleName(r) == RoleName(r') ==> r == r'
  {
  }

  /** The role a new user gets: the submitted value when it is one of the choices,
      `"agent"` when none is submitted, and a validation error (`None`) otherwise. */
  function RoleOnCreate(submitted: Option<string>): (r: Option<Role>)
    ensures submitted.None? ==> r == Some(Agent)
    ensures submitted.Some? ==> (r.Some? <==> submitted.value in RoleChoices)
    ensures submitted.Some? && r.Some? ==> RoleName(r.value) == submitted.value
  {
    match submitted
    case None => Some(Agent)
    case Some(s) => ParseRole(s)
  }

  // ---------------------------------------------------------------------------
  // Soft delete
  // ---------------------------------------------------------------------------

  /** The two columns `is_deleted` and `deleted_at` of every soft-deletable model. */
  datatype Deletion = Deletion(isDeleted: bool, deletedAt: Option<Time>)

  /** The column defaults: not deleted, no deletion time. */
  const Live: Deletion := Deletion(false, None)

  /** The flags agree: a deletion time is recorded exactly when the row is deleted. */
  predicate Consistent(d: Deletion)
  {
    d.deletedAt.None? <==> !d.isDeleted
  }

  /** One call of `soft_delete` (at the given clock reading) or of `restore`. */
  datatype LifecycleOp = SoftDeleteOp(now: Time) | RestoreOp

  /** The flags after one operation. Neither operation reads the old flags. */
  function Apply(d: Deletion, op: LifecycleOp): (r: Deletion)
    ensures r.isDeleted <==> op.SoftDeleteOp?
    ensures op.SoftDeleteOp? ==> r.deletedAt == Some(op.now)
    ensures op.RestoreOp? ==> r == Live
  {
    match op
    case SoftDeleteOp(now) => Deletion(true, Some(now))
    case RestoreOp => Deletion(false, None)
  }

  /** The flags after a sequence of operations, applied left to right. */
  function Run(d: Deletion, ops: seq<LifecycleOp>): Deletion
    decreases ops
  {
    if ops == [] then d else Run(Apply(d, ops[0]), ops[1..])
  }

  /** Restoring a soft-deleted row brings its flags back to the column defaults. */
  lemma RestoreUndoesSoftDelete(d: Deletion, now: Time)
    ensures Run(d, [SoftDeleteOp(now), RestoreOp]) == Live
  {
    RunLastWins(d, [SoftDeleteOp(now), RestoreOp]);
  }

  /** After at least one operation the flags depend only on the last one. */
  lemma {:induction false} RunLastWins(d: Deletion, ops: seq<LifecycleOp>)
    requires ops != []
    ensures Run(d, ops) == Apply(d, ops[|ops| - 1])
    decreases ops
  {
    if |ops| > 1 {
      RunLastWins(Apply(d, ops[0]), ops[1..]);
    }
  }

  /** Starting from consistent flags (the defaults are), every sequence of
      `soft_delete` and `restore` calls keeps them consistent. */
  lemma {:induction false} RunKeepsConsistent(d: Deletion, ops: seq<LifecycleOp>)
    requires Consistent(d)
    ensures Consistent(Run(d, ops))
    decreases ops
  {
    if ops != [] {
      RunKeepsConsistent(Apply(d, ops[0]), ops[1..]);
    }
  }

  /** An in-memory model instance with soft-delete support. `fields` stands for
      every column of the concrete model other than the two deletion columns. */
  class SoftDeleteModel<T> {
    var fields: T
    var isDeleted: bool
    var deletedAt: Option<Time>

    /** The two deletion columns as one value. */
    function Flags(): Deletion
      reads this
    {
      Deletion(isDeleted, deletedAt)
    }

    /** A new instance carries the column defaults. */
    constructor (fields: T)
      ensures this.fields == fields && Flags() == Live
    {
      this.fields := fields;
      isDeleted := false;
      deletedAt := None;
    }

    /** `soft_delete`: mark the row deleted at `now`; nothing else changes. */
    method SoftDelete(now: Time)
      modifies this
      ensures Flags() == Apply(old(Flags()), SoftDeleteOp(now))
      ensures isDeleted && deletedAt == Some(now)
      ensures fields == old(fields)
    {
      isDeleted := true;
      deletedAt := Some(now);
    }

    /** `restore`: put the deletion columns back to their defaults; nothing else changes. */
    method Restore()
      modifies this
      ensures Flags() == Apply(old(Flags()), RestoreOp)
      ensures Flags() == Live
      ensures fields == old(fields)
    {
      isDeleted := false;
      deletedAt := None;
    }
  }

  // ---------------------------------------------------------------------------
  // Records
  // ---------------------------------------------------------------------------

  /** The authenticated user of a request. `isAuthenticated` is false for an
      anonymous request. */
  datatype Actor = Actor(id: UserId, role: Role, agency: Option<AgencyId>, isAuthenticated: bool)

  datatype Agency = Agency(id: AgencyId, name: string)

  datatype User = User(id: UserId, username: string, role: Role, agency: Option<AgencyId>)

  /** The `Owner` model: the owner of a property, a client record of the agency. */
  datatype PropertyOwner = PropertyOwner(id: OwnerId, name: string, agency: AgencyId, deletion: Deletion)

  datatype Property = Property(
    id: PropertyId,
    title: string,
    agency: AgencyId,
    owner: Option<OwnerId>,
    agents: set<UserId>,
    createdBy: Option<UserId>,
    deletion: Deletion)

  datatype Document = Document(
    id: DocumentId,
    agency: AgencyId,
    property: Option<PropertyId>,
    owner: Option<OwnerId>,
    uploadedBy: Option<UserId>,
    deletion: Deletion)

  datatype Client = Client(
    id: ClientId,
    name: string,
    agency: AgencyId,
    assignedAgent: Option<UserId>,
    interestedProperties: set<PropertyId>,
    createdAt: Option<Time>,
    deletion: Deletion)

  datatype Visit = Visit(
    id: VisitId,
    property: PropertyId,
    client: ClientId,
    agent: Option<UserId>,
    deletion: Deletion)

  datatype Claim = Claim(
    id: ClaimId,
    property: Option<PropertyId>,
    client: Option<ClientId>,
    agent: Option<UserId>,
    deletion: Deletion)

  datatype FinanceEntry = FinanceEntry(
    id: FinanceId,
    agency: AgencyId,
    property: Option<PropertyId>,
    agent: Option<UserId>,
    createdBy: Option<UserId>,
    deletion: Deletion)
}
