/**
 * The object permission evaluator behind `hasPermission(...)` expressions:
 * a guard on its arguments, then the coarse authority test, then an ownership
 * test against the order store.
 *
 * Java's `Object` and `Serializable` arguments are modelled by the cases the
 * evaluator tells apart; a null reference is the `None` of an `Option`.
 */
module ObjectPermission {
  import opened Seqs
  import Text

  /** The authenticated user: its id and the names of its granted authorities. */
  datatype Principal = Principal(userId: int, authorities: set<string>)

  /** The domain object passed in: absent, an order (its id and the owner it claims), or anything else. */
  datatype Target = NullTarget | OrderTarget(orderId: int, claimedOwnerId: int) | OtherTarget

  /** The permission argument: absent, a string, or any other object. */
  datatype PermissionArg = NullPermission | StringPermission(name: string) | OtherPermission

  /** The order repository: order id to the id of its owner. */
  type OrderStore = map<int, int>

  /** The stored order `orderId` exists and belongs to `userId`. */
  predicate Owns(store: OrderStore, orderId: int, userId: int)
  {
    orderId in store && store[orderId] == userId
  }

  /**
   * `checkOrderPermission`: the permission name must be among the
   * authorities, and only then is the stored order's owner compared with
   * the principal's id; a missing order gives false.
   */
  function CheckOrderPermission(store: OrderStore, p: Principal, orderId: int, permission: string): bool
  {
    if permission !in p.authorities then false
    else if orderId in store then store[orderId] == p.userId
    else false
  }

  /** `String.equalsIgnoreCase` against an ASCII word. */
  predicate EqualsIgnoreCase(a: string, b: string)
  {
    Text.ToLower(a) == Text.ToLower(b)
  }

  const OrderType := "Order"

  /** The overload given the loaded domain object. */
  function HasPermissionForObject(store: OrderStore, auth: Option<Principal>, target: Target, permission: PermissionArg): (r: bool)
    ensures r <==> auth.Some? && target.OrderTarget? && permission.StringPermission?
                   && permission.name in auth.value.authorities
                   && Owns(store, target.orderId, auth.value.userId)
  {
    if target.NullTarget? || auth.None? || !permission.StringPermission? then false
    else if target.OrderTarget? then CheckOrderPermission(store, auth.value, target.orderId, permission.name)
    else false
  }

  /** The overload given only the id and type name of the domain object. */
  function HasPermissionForId(store: OrderStore, auth: Option<Principal>, targetId: Option<int>, targetType: Option<string>,
                              permission: PermissionArg): (r: bool)
    ensures r <==> auth.Some? && targetId.Some? && targetType.Some? && permission.StringPermission?
                   && EqualsIgnoreCase(targetType.value, OrderType)
                   && permission.name in auth.value.authorities
                   && Owns(store, targetId.value, auth.value.userId)
  {
    if targetId.None? || targetType.None? || auth.None? || !permission.StringPermission? then false
    else if EqualsIgnoreCase(targetType.value, OrderType) then
      CheckOrderPermission(store, auth.value, targetId.value, permission.name)
    else false
  }

  /** Without the authority the answer is false and does not depend on the store at all. */
  lemma MissingAuthorityIgnoresStore(s1: OrderStore, s2: OrderStore, p: Principal, orderId: int, permission: string)
    requires permission !in p.authorities
    ensures !CheckOrderPermission(s1, p, orderId, permission)
    ensures CheckOrderPermission(s1, p, orderId, permission) == CheckOrderPermission(s2, p, orderId, permission)
  {
  }

  /** With the authority held, the answer is exactly ownership of the stored order. */
  lemma WithAuthorityOwnershipDecides(store: OrderStore, p: Principal, orderId: int, permission: string)
    requires permission in p.authorities
    ensures CheckOrderPermission(store, p, orderId, permission) <==> orderId in store && store[orderId] == p.userId
    ensures orderId !in store ==> !CheckOrderPermission(store, p, orderId, permission)
  {
  }

  /** The two overloads agree for the same order id and permission. */
  lemma OverloadsAgree(store: OrderStore, p: Principal, orderId: int, claimedOwner: int, permission: string)
    ensures HasPermissionForObject(store, Some(p), OrderTarget(orderId, claimedOwner), StringPermission(permission))
         == HasPermissionForId(store, Some(p), Some(orderId), Some(OrderType), StringPermission(permission))
  {
  }

  /** The owner claimed by the passed order is ignored: the stored order is re-read by id. */
  lemma StoredOwnerDecides(store: OrderStore, auth: Option<Principal>, orderId: int, o1: int, o2: int, permission: PermissionArg)
    ensures HasPermissionForObject(store, auth, OrderTarget(orderId, o1), permission)
         == HasPermissionForObject(store, auth, OrderTarget(orderId, o2), permission)
  {
  }

  /** Each guard case alone yields false, whatever the store. */
  lemma GuardsDeny(store: OrderStore, auth: Option<Principal>, id: Option<int>, t: Option<string>, target: Target, permission: PermissionArg)
    ensures auth.None? ==> !HasPermissionForObject(store, auth, target, permission) && !HasPermissionForId(store, auth, id, t, permission)
    ensures !permission.StringPermission? ==> !HasPermissionForObject(store, auth, target, permission) && !HasPermissionForId(store, auth, id, t, permission)
    ensures !target.OrderTarget? ==> !HasPermissionForObject(store, auth, target, permission)
    ensures id.None? || t.None? ==> !HasPermissionForId(store, auth, id, t, permission)
  {
  }

  const Upper := "ORDER"
  const Lower := "order"
  const Plural := "Orders"

  /** The type name is compared ignoring case, and nothing but that word is accepted. */
  lemma TypeNameCaseInsensitive()
    ensures EqualsIgnoreCase(Upper, OrderType) && EqualsIgnoreCase(Lower, OrderType)
    ensures !EqualsIgnoreCase(Plural, OrderType)
  {
    assert Text.ToLower(Upper) == Text.ToLower(OrderType);
    assert Text.ToLower(Lower) == Text.ToLower(OrderType);
    assert |Text.ToLower(Plural)| != |Text.ToLower(OrderType)|;
  }

  /** Any other type name gives false even when the principal owns the order. */
  lemma OtherTypeDenied(store: OrderStore, p: Principal, orderId: int, t: string, permission: string)
    requires !EqualsIgnoreCase(t, OrderType)
    ensures !HasPermissionForId(store, Some(p), Some(orderId), Some(t), StringPermission(permission))
  {
  }
}
