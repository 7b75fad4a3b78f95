/**
 * The `Customer` model class: the defaults its constructor applies to a
 * loose JSON record, and the fixed projection `toJSON` writes back.
 *
 * `CustomerData` is a customer record as it is stored in the JSON files.
 * Besides the fields the model class writes, it carries the fields that
 * the deletion and restoration handlers spread into it, and the migration
 * fields that the restoration-chain walks only read.
 */
module CustomerModel {
  import opened Common

  datatype CustomerData = CustomerData(
    id: Option<string>,
    internalId: Option<string>,
    name: Option<string>,
    village: Option<string>,
    phone: Option<string>,
    takenAmount: Option<int>,
    /** `None` stands for a missing value and for the `''` the class stores instead. */
    interest: Option<int>,
    pc: Option<int>,
    date: Option<Time>,
    weeks: Option<int>,
    profileImage: Option<string>,
    createdAt: Option<Time>,
    updatedAt: Option<Time>,
    isRestoredCustomer: bool,
    restoredFromId: Option<string>,
    restoredFromInternalId: Option<string>,
    restoredFromTimestamp: Option<Time>,
    restoredAt: Option<Time>,
    restoredFrom: Option<string>,
    // written when the customer is soft-deleted
    isDeleted: bool,
    deletedAt: Option<Time>,
    deletionTimestamp: Option<Time>,
    deletedFrom: Option<string>,
    // written on a deleted record when it is restored, or when that restoration is invalidated
    isRestored: bool,
    restoredAs: Option<string>,
    restoredDate: Option<Time>,
    restorationInvalidated: bool,
    invalidatedDate: Option<Time>,
    invalidatedReason: Option<string>,
    // written by data migrations outside this model
    wasRestoredCustomer: bool,
    isMigrated: bool,
    originalTakenAmount: Option<int>,
    originalCustomerId: Option<string>,
    originalCustomerInternalId: Option<string>,
    remainingAtDeletion: Option<int>)

  /** A record with every field absent, to build others with update syntax. */
  const Blank := CustomerData(
    None, None, None, None, None, None, None, None, None, None, None, None, None,
    false, None, None, None, None, None,
    false, None, None, None,
    false, None, None, false, None, None,
    false, false, None, None, None, None)

  /** The restoration fields a restored customer carries. */
  datatype Restoration = Restoration(
    restoredFromId: Option<string>,
    restoredFromInternalId: Option<string>,
    restoredFromTimestamp: Option<Time>)

  /** An instance of the model class after its constructor ran. */
  datatype Customer = Customer(
    id: Option<string>,
    internalId: string,
    name: Option<string>,
    village: string,
    phone: string,
    takenAmount: int,
    interest: Option<int>,
    pc: Option<int>,
    date: Option<Time>,
    weeks: int,
    profileImage: Option<string>,
    createdAt: Time,
    updatedAt: Time,
    restoration: Option<Restoration>)

  /** What every constructed customer satisfies. */
  predicate Valid(c: Customer)
  {
    && c.internalId != ""
    && c.weeks != 0
    && (c.profileImage.Some? ==> c.profileImage.value != "")
  }

  /** `c.internalId || c.id`: the key of a customer's files. */
  function InternalIdOf(c: CustomerData): Option<string>
  {
    if Truthy(c.internalId) then c.internalId else c.id
  }

  /**
   * `new Customer(data)` at time `now`; `freshId` stands for the internal id
   * generated from the clock and a random suffix when none is supplied.
   */
  function New(data: CustomerData, now: Time, freshId: string): (c: Customer)
    requires freshId != ""
    ensures Valid(c)
    ensures Truthy(data.internalId) ==> c.internalId == data.internalId.value
    ensures !Truthy(data.internalId) ==> c.internalId == freshId
    ensures c.id == data.id && c.name == data.name && c.date == data.date
    ensures c.village == OrElse(data.village, "") && c.phone == OrElse(data.phone, "")
    ensures c.takenAmount == Num(data.takenAmount)
    ensures c.interest == data.interest && c.pc == data.pc
    ensures c.weeks == (if NonZero(data.weeks) then data.weeks.value else 12)
    ensures c.profileImage.Some? <==> Truthy(data.profileImage)
    ensures c.profileImage.Some? ==> c.profileImage == data.profileImage
    ensures c.createdAt == data.createdAt.GetOr(now) && c.updatedAt == now
    ensures c.restoration.Some? <==> data.isRestoredCustomer
    ensures data.isRestoredCustomer ==> c.restoration == Some(Restoration(
      data.restoredFromId, data.restoredFromInternalId, data.restoredFromTimestamp))
  {
    Customer(
      data.id,
      OrElse(data.internalId, freshId),
      data.name,
      OrElse(data.village, ""),
      OrElse(data.phone, ""),
      Num(data.takenAmount),
      data.interest,
      data.pc,
      data.date,
      if NonZero(data.weeks) then data.weeks.value else 12,
      if Truthy(data.profileImage) then data.profileImage else None,
      data.createdAt.GetOr(now),
      now,
      if data.isRestoredCustomer
      then Some(Restoration(data.restoredFromId, data.restoredFromInternalId, data.restoredFromTimestamp))
      else None)
  }

  /** `customer.toJSON()`: the thirteen base fields, and the restoration fields only for a restored customer. */
  function ToJson(c: Customer): (d: CustomerData)
    ensures d.isRestoredCustomer <==> c.restoration.Some?
    ensures c.restoration.None? ==>
      d.restoredFromId.None? && d.restoredFromInternalId.None? && d.restoredFromTimestamp.None?
    ensures !d.isDeleted && !d.isRestored && d.deletionTimestamp.None? && d.deletedFrom.None?
    ensures d.internalId == Some(c.internalId) && d.takenAmount == Some(c.takenAmount)
  {
    var base := Blank.(
      id := c.id, internalId := Some(c.internalId), name := c.name,
      village := Some(c.village), phone := Some(c.phone),
      takenAmount := Some(c.takenAmount), interest := c.interest, pc := c.pc,
      date := c.date, weeks := Some(c.weeks), profileImage := c.profileImage,
      createdAt := Some(c.createdAt), updatedAt := Some(c.updatedAt));
    match c.restoration
    case None => base
    case Some(r) => base.(
      isRestoredCustomer := true, restoredFromId := r.restoredFromId,
      restoredFromInternalId := r.restoredFromInternalId,
      restoredFromTimestamp := r.restoredFromTimestamp)
  }

  /**
   * Rebuilding a customer from its JSON keeps every field; only the
   * modification time is taken anew.
   */
  lemma RoundTrip(c: Customer, now: Time, freshId: string)
    requires Valid(c) && freshId != ""
    ensures New(ToJson(c), now, freshId) == c.(updatedAt := now)
  {
  }

  /** A customer written by `toJSON` is found again under the same file key. */
  lemma ToJsonKeepsInternalId(c: Customer)
    requires Valid(c)
    ensures InternalIdOf(ToJson(c)) == Some(c.internalId)
  {
  }
}
