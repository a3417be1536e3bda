/**
 * The business-owner service: the guarded insert of an owner application with
 * its two optional documents, and the two order listings, which are pure
 * projections of the order rows the database returns with their user and
 * cart-item relations already joined.
 */
module BusinessOwners {
  import opened Common
  import opened Schema
  import opened Storage

  // ------------------------------------------------- createBusinessOwner

  /** The created row with the `id_document_url` / `trade_license_url` keys it may gain. */
  datatype OwnerView = OwnerView(owner: BusinessOwner, idDocumentUrl: Option<string>, tradeLicenseUrl: Option<string>)

  /** NotFound (thrown), "File upload failed", or the created owner. */
  datatype CreateOwnerResult = OwnerUserNotFound | OwnerUploadFailed | OwnerCreated(view: OwnerView)

  /** Whether a write to the blob store was attempted and failed. */
  predicate PutFailed(u: Upload) {
    u.File? && !u.putSucceeds
  }

  /** The stored file name an upload yields, when it yields one. */
  function UploadedName(u: Upload): Option<string> {
    if u.File? && u.putSucceeds then Some(StoredName(u.prefix, u.originalName)) else None
  }

  /** The URL key spread into the answer when the file name is truthy. */
  function DocumentUrl(folder: string, fileName: Option<string>): Option<string> {
    if Truthy(fileName) then Some(StoragePath(folder, fileName.value)) else None
  }

  /** The applications table and the blob-store writes of the service. */
  class BusinessOwnerRegistry {
    const idDocumentFolder: string
    const tradeLicenseFolder: string
    var owners: seq<BusinessOwner>
    var storedFiles: seq<string>

    constructor (idDocumentFolder: string, tradeLicenseFolder: string)
      ensures this.idDocumentFolder == idDocumentFolder && this.tradeLicenseFolder == tradeLicenseFolder
      ensures owners == [] && storedFiles == []
    {
      this.idDocumentFolder := idDocumentFolder;
      this.tradeLicenseFolder := tradeLicenseFolder;
      owners := [];
      storedFiles := [];
    }

    /**
     * `createBusinessOwner`: an unknown user is rejected before anything
     * happens; a failed document write answers "File upload failed" without a
     * row (the trade licence is not attempted after a failed id document);
     * otherwise one row is inserted and each URL is present exactly when its
     * document was stored.
     */
    method CreateBusinessOwner(
      userId: Id, users: seq<User>, businessName: string, businessType: string,
      idDocument: Upload, tradeLicense: Upload, ownerId: Id)
      returns (r: CreateOwnerResult)
      modifies this`owners, this`storedFiles
      ensures r.OwnerUserNotFound? <==> forall i :: 0 <= i < |users| ==> users[i].id != userId
      ensures r.OwnerUserNotFound? ==> owners == old(owners) && storedFiles == old(storedFiles)
      ensures (exists i :: 0 <= i < |users| && users[i].id == userId) ==>
        (r == OwnerUploadFailed <==> PutFailed(idDocument) || PutFailed(tradeLicense))
      ensures r.OwnerUploadFailed? ==> owners == old(owners)
      ensures r.OwnerUploadFailed? && PutFailed(idDocument) ==> storedFiles == old(storedFiles)
      ensures r.OwnerUploadFailed? && !PutFailed(idDocument) ==>
        storedFiles == old(storedFiles)
          + (if idDocument.File? then [StoragePath(idDocumentFolder, UploadedName(idDocument).value)] else [])
      ensures r.OwnerCreated? ==>
        && (exists i :: 0 <= i < |users| && users[i].id == userId)
        && r.view.owner == BusinessOwner(ownerId, userId, businessName, businessType,
                                         UploadedName(idDocument), UploadedName(tradeLicense))
        && owners == old(owners) + [r.view.owner]
        && (r.view.idDocumentUrl.Some? <==> idDocument.File?)
        && (r.view.tradeLicenseUrl.Some? <==> tradeLicense.File?)
        && (idDocument.File? ==> r.view.idDocumentUrl == Some(StoragePath(idDocumentFolder, UploadedName(idDocument).value)))
        && (tradeLicense.File? ==> r.view.tradeLicenseUrl == Some(StoragePath(tradeLicenseFolder, UploadedName(tradeLicense).value)))
      ensures r.OwnerCreated? ==>
        storedFiles == old(storedFiles)
          + (if idDocument.File? then [StoragePath(idDocumentFolder, UploadedName(idDocument).value)] else [])
          + (if tradeLicense.File? then [StoragePath(tradeLicenseFolder, UploadedName(tradeLicense).value)] else [])
    {
      var found := FindUserById(users, userId);
      if found.None? {
        return OwnerUserNotFound;
      }
      assert users[found.value].id == userId;
      var idDocFileName: Option<string> := None;
      var tradeLicenseFileName: Option<string> := None;
      var start := storedFiles;
      if idDocument.File? {
        if !idDocument.putSucceeds {
          return OwnerUploadFailed;
        }
        idDocFileName := Some(StoredName(idDocument.prefix, idDocument.originalName));
        storedFiles := storedFiles + [StoragePath(idDocumentFolder, idDocFileName.value)];
      }
      var afterId := storedFiles;
      if tradeLicense.File? {
        if !tradeLicense.putSucceeds {
          return OwnerUploadFailed;
        }
        tradeLicenseFileName := Some(StoredName(tradeLicense.prefix, tradeLicense.originalName));
        storedFiles := storedFiles + [StoragePath(tradeLicenseFolder, tradeLicenseFileName.value)];
      }
      var owner := BusinessOwner(ownerId, userId, businessName, businessType, idDocFileName, tradeLicenseFileName);
      owners := owners + [owner];
      if idDocument.File? { StoredNameNonEmpty(idDocument.prefix, idDocument.originalName); }
      if tradeLicense.File? { StoredNameNonEmpty(tradeLicense.prefix, tradeLicense.originalName); }
      r := OwnerCreated(OwnerView(owner,
        DocumentUrl(idDocumentFolder, idDocFileName),
        DocumentUrl(tradeLicenseFolder, tradeLicenseFileName)));
    }
  }

  // ------------------------------------------------------ order listings

  datatype OwnerRef = OwnerRef(id: Id, businessName: string, userId: Id)
  datatype ProductRef = ProductRef(id: Id, title: string, priceCents: int, owner: OwnerRef)
  datatype OrderedItem = OrderedItem(quantity: int, product: ProductRef)

  /** The ordering user's columns the listings select; every one is nullable. */
  datatype OrderingUser = OrderingUser(
    name: Option<string>,
    email: Option<string>,
    phoneNumber: Option<string>,
    city: Option<string>,
    country: Option<string>,
    address: Option<string>,
    state: Option<string>)

  /** An order row with its user and cart-item relations joined. */
  datatype OrderRecord = OrderRecord(
    id: Id,
    totalCents: int,
    status: string,
    createdAt: int,
    updatedAt: int,
    userId: Option<Id>,
    user: Option<OrderingUser>,
    cartItems: seq<OrderedItem>)

  /** `order.user?.<column>` reads every column of a missing user as absent. */
  function UserColumns(u: Option<OrderingUser>): OrderingUser {
    u.GetOr(OrderingUser(None, None, None, None, None, None, None))
  }

  /** `odered_user_details` of `getAllOrders`. */
  datatype UserDetails = UserDetails(userId: Option<Id>, name: string, email: Option<string>, phoneNumber: Option<string>)

  function UserDetailsOf(o: OrderRecord): (d: UserDetails)
    ensures d.userId == o.userId
    ensures d.name == (if Truthy(UserColumns(o.user).name) then UserColumns(o.user).name.value else "Unknown User")
    ensures d.email.Some? <==> Truthy(UserColumns(o.user).email)
    ensures d.email.Some? ==> d.email == UserColumns(o.user).email
    ensures d.phoneNumber.Some? <==> Truthy(UserColumns(o.user).phoneNumber)
    ensures d.phoneNumber.Some? ==> d.phoneNumber == UserColumns(o.user).phoneNumber
  {
    var u := UserColumns(o.user);
    UserDetails(o.userId, OrElse(u.name, "Unknown User"), OrNull(u.email), OrNull(u.phoneNumber))
  }

  /** One entry of `cart_details`. */
  datatype CartDetail = CartDetail(productId: Id, title: string, priceCents: int, quantity: int)

  function CartDetails(items: seq<OrderedItem>): (details: seq<CartDetail>)
    ensures |details| == |items|
    ensures forall j :: 0 <= j < |items| ==>
      details[j] == CartDetail(items[j].product.id, items[j].product.title, items[j].product.priceCents, items[j].quantity)
  {
    if items == [] then []
    else
      var head := CartDetail(items[0].product.id, items[0].product.title, items[0].product.priceCents, items[0].quantity);
      [head] + CartDetails(items[1..])
  }

  /** One formatted entry of `getAllOrders`. */
  datatype OrderSummary = OrderSummary(
    id: Id,
    totalCents: int,
    status: string,
    createdAt: int,
    updatedAt: int,
    user: UserDetails,
    businessOwner: Option<OwnerRef>,
    cart: seq<CartDetail>)

  function FormatOrder(o: OrderRecord): OrderSummary {
    OrderSummary(o.id, o.totalCents, o.status, o.createdAt, o.updatedAt, UserDetailsOf(o),
      if |o.cartItems| > 0 then Some(o.cartItems[0].product.owner) else None,
      CartDetails(o.cartItems))
  }

  function FormatOrders(orders: seq<OrderRecord>): (r: seq<OrderSummary>)
    ensures |r| == |orders|
    ensures forall k :: 0 <= k < |orders| ==> r[k] == FormatOrder(orders[k])
  {
    if orders == [] then [] else [FormatOrder(orders[0])] + FormatOrders(orders[1..])
  }

  /**
   * `getAllOrders`: fails on an empty table; otherwise one entry per order, in
   * order, its owner taken from the first cart item.
   */
  function GetAllOrders(orders: seq<OrderRecord>): (r: Result<seq<OrderSummary>, string>)
    ensures r.Failure? <==> orders == []
    ensures r.Failure? ==> r.error == "No orders found"
    ensures r.Success? ==> |r.value| == |orders|
    ensures r.Success? ==> forall k :: 0 <= k < |orders| ==>
      var s := r.value[k];
      var o := orders[k];
      && s.id == o.id && s.totalCents == o.totalCents && s.status == o.status
      && s.createdAt == o.createdAt && s.updatedAt == o.updatedAt
      && s.user == UserDetailsOf(o)
      && (s.businessOwner.None? <==> o.cartItems == [])
      && (o.cartItems != [] ==> s.businessOwner == Some(o.cartItems[0].product.owner))
      && |s.cart| == |o.cartItems|
      && (forall j :: 0 <= j < |o.cartItems| ==>
            s.cart[j].productId == o.cartItems[j].product.id && s.cart[j].quantity == o.cartItems[j].quantity)
  {
    if orders == [] then Failure("No orders found") else Success(FormatOrders(orders))
  }

  /** The database filter `cart_items: { some: { product: { business_owner: { user_id } } } }`. */
  predicate SellsFor(o: OrderRecord, businessUserId: Id) {
    exists j :: 0 <= j < |o.cartItems| && o.cartItems[j].product.owner.userId == businessUserId
  }

  function SelectOrders(orders: seq<OrderRecord>, businessUserId: Id): (r: seq<OrderRecord>)
    ensures forall k :: 0 <= k < |r| ==> r[k] in orders && SellsFor(r[k], businessUserId)
    ensures forall k :: 0 <= k < |orders| && SellsFor(orders[k], businessUserId) ==> orders[k] in r
  {
    Filter(orders, (o: OrderRecord) => SellsFor(o, businessUserId))
  }

  /** The cart items of one owner, in their original order. */
  function OwnedItems(items: seq<OrderedItem>, businessUserId: Id): (r: seq<OrderedItem>)
    ensures forall j :: 0 <= j < |r| ==> r[j] in items && r[j].product.owner.userId == businessUserId
    ensures forall j :: 0 <= j < |items| && items[j].product.owner.userId == businessUserId ==> items[j] in r
  {
    Filter(items, (i: OrderedItem) => i.product.owner.userId == businessUserId)
  }

  /** `odered_user_details` of the per-owner listing, with the address columns. */
  datatype ExtendedUserDetails = ExtendedUserDetails(
    userId: Option<Id>,
    name: string,
    email: Option<string>,
    phoneNumber: Option<string>,
    city: Option<string>,
    country: Option<string>,
    address: Option<string>,
    state: Option<string>)

  function ExtendedUserDetailsOf(o: OrderRecord): (d: ExtendedUserDetails)
    ensures d.userId == o.userId
    ensures d.name == (if Truthy(UserColumns(o.user).name) then UserColumns(o.user).name.value else "Unknown User")
    ensures d.email == (if Truthy(UserColumns(o.user).email) then UserColumns(o.user).email else None)
    ensures d.phoneNumber == (if Truthy(UserColumns(o.user).phoneNumber) then UserColumns(o.user).phoneNumber else None)
    ensures d.city == (if Truthy(UserColumns(o.user).city) then UserColumns(o.user).city else None)
    ensures d.country == (if Truthy(UserColumns(o.user).country) then UserColumns(o.user).country else None)
    ensures d.address == (if Truthy(UserColumns(o.user).address) then UserColumns(o.user).address else None)
    ensures d.state == (if Truthy(UserColumns(o.user).state) then UserColumns(o.user).state else None)
  {
    var u := UserColumns(o.user);
    ExtendedUserDetails(o.userId, OrElse(u.name, "Unknown User"), OrNull(u.email), OrNull(u.phoneNumber),
      OrNull(u.city), OrNull(u.country), OrNull(u.address), OrNull(u.state))
  }

  /** One formatted entry of `getAllOrderByBusinessUserId`. */
  datatype OwnerOrderSummary = OwnerOrderSummary(
    id: Id,
    totalCents: int,
    status: string,
    createdAt: int,
    updatedAt: int,
    user: ExtendedUserDetails,
    cart: seq<CartDetail>)

  function FormatOwnerOrder(o: OrderRecord, businessUserId: Id): OwnerOrderSummary {
    OwnerOrderSummary(o.id, o.totalCents, o.status, o.createdAt, o.updatedAt, ExtendedUserDetailsOf(o),
      CartDetails(OwnedItems(o.cartItems, businessUserId)))
  }

  function FormatOwnerOrders(orders: seq<OrderRecord>, businessUserId: Id): (r: seq<OwnerOrderSummary>)
    ensures |r| == |orders|
    ensures forall k :: 0 <= k < |orders| ==> r[k] == FormatOwnerOrder(orders[k], businessUserId)
  {
    if orders == [] then [] else [FormatOwnerOrder(orders[0], businessUserId)] + FormatOwnerOrders(orders[1..], businessUserId)
  }

  /** An order that sells for the owner keeps at least one of the owner's items. */
  lemma OwnedItemsNonEmpty(o: OrderRecord, businessUserId: Id)
    requires SellsFor(o, businessUserId)
    ensures |OwnedItems(o.cartItems, businessUserId)| > 0
  {
    var j :| 0 <= j < |o.cartItems| && o.cartItems[j].product.owner.userId == businessUserId;
    assert o.cartItems[j] in OwnedItems(o.cartItems, businessUserId);
  }

  /**
   * `getAllOrderByBusinessUserId`: exactly the orders with one of the owner's
   * items, in their original order, each listing only that owner's items;
   * fails when there are none.
   */
  function GetAllOrderByBusinessUserId(orders: seq<OrderRecord>, businessUserId: Id)
    : (r: Result<seq<OwnerOrderSummary>, string>)
    ensures r.Failure? <==> forall k :: 0 <= k < |orders| ==> !SellsFor(orders[k], businessUserId)
    ensures r.Failure? ==> r.error == "No orders found for this business owner"
    ensures r.Success? ==> |r.value| == |SelectOrders(orders, businessUserId)|
    ensures r.Success? ==> forall k :: 0 <= k < |r.value| ==>
      var o := SelectOrders(orders, businessUserId)[k];
      && o in orders && SellsFor(o, businessUserId)
      && r.value[k] == FormatOwnerOrder(o, businessUserId)
      && r.value[k].id == o.id && r.value[k].totalCents == o.totalCents && r.value[k].status == o.status
      && r.value[k].createdAt == o.createdAt && r.value[k].updatedAt == o.updatedAt
      && r.value[k].user == ExtendedUserDetailsOf(o)
      && r.value[k].cart == CartDetails(OwnedItems(o.cartItems, businessUserId))
      && |r.value[k].cart| > 0
  {
    var selected := SelectOrders(orders, businessUserId);
    if selected == [] then
      assert forall k :: 0 <= k < |orders| ==> !SellsFor(orders[k], businessUserId) by {
        forall k | 0 <= k < |orders| ensures !SellsFor(orders[k], businessUserId) {
          assert orders[k] !in selected;
        }
      }
      Failure("No orders found for this business owner")
    else
      assert selected[0] in orders;
      var formatted := FormatOwnerOrders(selected, businessUserId);
      assert forall k :: 0 <= k < |selected| ==> |formatted[k].cart| > 0 by {
        forall k | 0 <= k < |selected| ensures |formatted[k].cart| > 0 {
          OwnedItemsNonEmpty(selected[k], businessUserId);
        }
      }
      Success(formatted)
  }

  /** Listing per owner distributes over the order table, so the selected orders keep their relative order. */
  lemma SelectOrdersAppend(a: seq<OrderRecord>, b: seq<OrderRecord>, businessUserId: Id)
    ensures SelectOrders(a + b, businessUserId) == SelectOrders(a, businessUserId) + SelectOrders(b, businessUserId)
  {
    FilterAppend(a, b, (o: OrderRecord) => SellsFor(o, businessUserId));
  }
}
