/**
 * The database rows that more than one service reads: users, products, cart
 * lines and business-owner applications, with the lookups the services run on
 * them. Every table is a sequence in row order, so `findFirst` returns the
 * first matching row.
 */
module Schema {
  import opened Common

  /** Row identifiers are generated by the database and are opaque strings here. */
  type Id = string

  datatype User = User(
    id: Id,
    phoneNumber: Option<string>,
    password: Option<string>,
    phoneVerified: bool,
    twoFactorEnabled: bool,
    name: Option<string>,
    email: Option<string>,
    userType: Option<string>,
    billingId: Option<string>)

  /** A product; its price is kept in integer cents. */
  datatype Product = Product(id: Id, title: string, priceCents: int, inStock: bool, image: Option<string>)

  /** A cart line, unique per (user, product). */
  datatype CartItem = CartItem(id: Id, userId: Id, productId: Id, quantity: int)

  /** A business-owner application row. */
  datatype BusinessOwner = BusinessOwner(
    id: Id,
    userId: Id,
    businessName: string,
    businessType: string,
    idDocument: Option<string>,
    tradeLicense: Option<string>)

  /** `user.findUnique({ where: { id } })` */
  function FindUserById(users: seq<User>, id: Id): Option<nat> {
    FindFirst(users, (u: User) => u.id == id)
  }

  /** `user.findFirst({ where: { phone_number } })` */
  function FindUserByPhone(users: seq<User>, phone: string): Option<nat> {
    FindFirst(users, (u: User) => u.phoneNumber == Some(phone))
  }

  /** The database's unique constraint on `phone_number`. */
  predicate PhonesUnique(users: seq<User>) {
    forall i, j :: 0 <= i < j < |users| && users[i].phoneNumber.Some? ==> users[i].phoneNumber != users[j].phoneNumber
  }

  /** `cartItem.findMany({ where: { user_id } })` */
  function UserCart(cart: seq<CartItem>, userId: Id): (rows: seq<CartItem>)
    ensures forall k :: 0 <= k < |rows| ==> rows[k].userId == userId && rows[k] in cart
    ensures forall k :: 0 <= k < |cart| && cart[k].userId == userId ==> cart[k] in rows
  {
    Filter(cart, (c: CartItem) => c.userId == userId)
  }

  /** Every cart line refers to a product in the catalog (the foreign key). */
  predicate ProductsKnown(rows: seq<CartItem>, catalog: map<Id, Product>) {
    forall c :: c in rows ==> c.productId in catalog
  }

  /** `businessOwner.findFirst({ where: { user_id } })` */
  function FindOwnerByUser(owners: seq<BusinessOwner>, userId: Id): Option<nat> {
    FindFirst(owners, (o: BusinessOwner) => o.userId == userId)
  }
}
