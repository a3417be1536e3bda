/**
 * The sequential logic of the authentication service: the cart table, the
 * favourite-place table, the one-time-password table, the refresh-token key
 * map and the login gate. JWT signing, bcrypt and the two-factor check are
 * oracles: their results are parameters.
 */
module Auth {
  import opened Common
  import opened Schema
  import opened Storage

  // ---------------------------------------------------------------- cart

  /** `dto.quantity || 1`: an absent or zero quantity counts as one. */
  function RequestedQuantity(q: Option<int>): int {
    if q.None? || q.value == 0 then 1 else q.value
  }

  /** What the add-to-cart DTO admits: no quantity, or an integer of at least 1. */
  predicate ValidCartQuantity(q: Option<int>) {
    q.None? || q.value >= 1
  }

  /** `cartItem.findUnique({ where: { user_id_product_id } })` */
  function FindCartRow(cart: seq<CartItem>, userId: Id, productId: Id): Option<nat> {
    FindFirst(cart, (c: CartItem) => c.userId == userId && c.productId == productId)
  }

  /** The unique constraint on (user_id, product_id). */
  predicate CartKeysUnique(cart: seq<CartItem>) {
    forall i, j :: 0 <= i < j < |cart| ==> cart[i].userId != cart[j].userId || cart[i].productId != cart[j].productId
  }

  predicate QuantitiesPositive(cart: seq<CartItem>) {
    forall c :: c in cart ==> c.quantity >= 1
  }

  /**
   * The answers of `addOrUpdateCart`; `Removed` is "Item removed from cart", and
   * `UnknownProduct` is the create that the product relation rejects.
   */
  datatype CartOutcome = Created(item: CartItem) | Updated(item: CartItem) | Removed | UnknownProduct

  /** One formatted line of `getCartItems`. */
  datatype CartLine = CartLine(
    id: Id,
    productId: Id,
    title: string,
    priceCents: int,
    inStock: bool,
    quantity: int,
    totalCents: int,
    imageUrl: Option<string>)

  /** The answer of `getCartItems`, which always reports success. */
  datatype CartView = CartView(lines: seq<CartLine>, totalCents: int)

  /** One element of the `cartItems.map(...)`; images live under the place folder without its trailing slash. */
  function FormatCartLine(c: CartItem, p: Product, placeFolder: string): CartLine {
    CartLine(c.id, p.id, p.title, p.priceCents, p.inStock, c.quantity, p.priceCents * c.quantity,
      ImageUrl(TrimTrailingSlash(placeFolder), p.image))
  }

  /** The `cartItems.map(...)` that formats each line. */
  function CartLines(rows: seq<CartItem>, catalog: map<Id, Product>, placeFolder: string): (lines: seq<CartLine>)
    requires ProductsKnown(rows, catalog)
    ensures |lines| == |rows|
    ensures forall k :: 0 <= k < |rows| ==> lines[k] == FormatCartLine(rows[k], catalog[rows[k].productId], placeFolder)
  {
    if rows == [] then []
    else [FormatCartLine(rows[0], catalog[rows[0].productId], placeFolder)] + CartLines(rows[1..], catalog, placeFolder)
  }

  /** The `cartItems.reduce((sum, item) => sum + item.product.price * item.quantity, acc)` fold. */
  function ReduceTotal(rows: seq<CartItem>, catalog: map<Id, Product>, acc: int): int
    requires ProductsKnown(rows, catalog)
  {
    if rows == [] then acc
    else ReduceTotal(rows[1..], catalog, acc + catalog[rows[0].productId].priceCents * rows[0].quantity)
  }

  function LineTotals(lines: seq<CartLine>): (totals: seq<int>)
    ensures |totals| == |lines|
    ensures forall k :: 0 <= k < |lines| ==> totals[k] == lines[k].totalCents
  {
    if lines == [] then [] else [lines[0].totalCents] + LineTotals(lines[1..])
  }

  /** The reduce over the cart rows and the sum of the formatted line totals agree. */
  lemma {:induction false} ReduceIsSumOfLineTotals(rows: seq<CartItem>, catalog: map<Id, Product>, placeFolder: string, acc: int)
    requires ProductsKnown(rows, catalog)
    ensures ReduceTotal(rows, catalog, acc) == acc + Sum(LineTotals(CartLines(rows, catalog, placeFolder)))
  {
    if rows != [] {
      var line := FormatCartLine(rows[0], catalog[rows[0].productId], placeFolder);
      var lines := CartLines(rows, catalog, placeFolder);
      var rest := CartLines(rows[1..], catalog, placeFolder);
      assert lines == [line] + rest;
      assert lines[0] == line && lines[1..] == rest;
      assert LineTotals(lines) == [line.totalCents] + LineTotals(rest);
      ReduceIsSumOfLineTotals(rows[1..], catalog, placeFolder, acc + line.totalCents);
    }
  }

  /** The foreign key carries over to the user's selection. */
  lemma UserCartProductsKnown(cart: seq<CartItem>, catalog: map<Id, Product>, userId: Id)
    requires ProductsKnown(cart, catalog)
    ensures ProductsKnown(UserCart(cart, userId), catalog)
  {
    var rows := UserCart(cart, userId);
    forall c | c in rows ensures c.productId in catalog {
      var k :| 0 <= k < |rows| && rows[k] == c;
    }
  }

  /** The `total_price` of `getCartItems`: the fold over the user's rows. */
  function CartTotal(cart: seq<CartItem>, catalog: map<Id, Product>, userId: Id): int
    requires ProductsKnown(cart, catalog)
  {
    UserCartProductsKnown(cart, catalog, userId);
    ReduceTotal(UserCart(cart, userId), catalog, 0)
  }

  /** `getCartItems`: the caller's lines with their totals, and the overall total. */
  function GetCartItems(cart: seq<CartItem>, catalog: map<Id, Product>, userId: Id, placeFolder: string): (v: CartView)
    requires ProductsKnown(cart, catalog)
    ensures |v.lines| == |UserCart(cart, userId)|
    ensures forall k :: 0 <= k < |v.lines| ==>
      var row := UserCart(cart, userId)[k];
      && row.userId == userId
      && v.lines[k].id == row.id
      && v.lines[k].quantity == row.quantity
      && v.lines[k].priceCents == catalog[row.productId].priceCents
      && v.lines[k].totalCents == v.lines[k].priceCents * v.lines[k].quantity
      && v.lines[k].imageUrl == ImageUrl(TrimTrailingSlash(placeFolder), catalog[row.productId].image)
    ensures v.lines == CartLines(UserCart(cart, userId), catalog, placeFolder)
    ensures v.totalCents == Sum(LineTotals(v.lines))
    ensures v.totalCents == CartTotal(cart, catalog, userId)
    ensures (forall c :: c in cart ==> c.userId != userId) ==> v == CartView([], 0)
  {
    var rows := UserCart(cart, userId);
    UserCartProductsKnown(cart, catalog, userId);
    ReduceIsSumOfLineTotals(rows, catalog, placeFolder, 0);
    UserCartEmpty(cart, userId);
    CartView(CartLines(rows, catalog, placeFolder), ReduceTotal(rows, catalog, 0))
  }

  lemma {:induction false} UserCartEmpty(cart: seq<CartItem>, userId: Id)
    ensures (forall c :: c in cart ==> c.userId != userId) ==> UserCart(cart, userId) == []
  {
    if forall c :: c in cart ==> c.userId != userId {
      if UserCart(cart, userId) != [] {
        assert UserCart(cart, userId)[0] in cart;
      }
    }
  }

  // ---------------------------------------------------------- favourites

  datatype Favourite = Favourite(userId: Id, placeId: Id)

  /** The favourite set after `toggleFavourite`: the pair is removed if present and added otherwise. */
  function Toggle(favs: set<Favourite>, f: Favourite): (r: set<Favourite>)
    ensures f in r <==> f !in favs
    ensures forall g :: g != f ==> (g in r <==> g in favs)
  {
    if f in favs then favs - {f} else favs + {f}
  }

  /** Toggling the same pair twice restores the original favourites. */
  lemma ToggleTwice(favs: set<Favourite>, f: Favourite)
    ensures Toggle(Toggle(favs, f), f) == favs
  {
  }

  /** The place columns `getFavouritePlaces` selects. */
  datatype PlaceSummary = PlaceSummary(id: Id, title: string, location: Option<string>, image: Option<string>)

  /** One favourite entry: the place spread out, plus `image_url`. */
  datatype FavouriteView = FavouriteView(place: PlaceSummary, imageUrl: Option<string>)

  function FavouritePlaceIds(favs: set<Favourite>, userId: Id): set<Id> {
    set f | f in favs && f.userId == userId :: f.placeId
  }

  /** `getFavouritePlaces`: one entry per place the user marked, keyed by place id. */
  function GetFavouritePlaces(favs: set<Favourite>, places: map<Id, PlaceSummary>, userId: Id, placeFolder: string)
    : (r: Result<map<Id, FavouriteView>, string>)
    requires forall f :: f in favs ==> f.placeId in places
    ensures r.Failure? <==> forall f :: f in favs ==> f.userId != userId
    ensures r.Failure? ==> r.error == "No favourite places found"
    ensures r.Success? ==> r.value.Keys == FavouritePlaceIds(favs, userId)
    ensures r.Success? ==> forall p :: p in r.value ==>
      && Favourite(userId, p) in favs
      && r.value[p].place == places[p]
      && r.value[p].imageUrl == ImageUrl(placeFolder, places[p].image)
      && (r.value[p].imageUrl.Some? <==> Truthy(places[p].image))
  {
    var ids := FavouritePlaceIds(favs, userId);
    if ids == {} then
      assert forall f :: f in favs ==> f.userId != userId by {
        forall f | f in favs ensures f.userId != userId {
          assert f.userId == userId ==> f.placeId in ids;
        }
      }
      Failure("No favourite places found")
    else
      Success(map p | p in ids :: FavouriteView(places[p], ImageUrl(placeFolder, places[p].image)))
  }

  // ----------------------------------------------------- one-time passwords

  /** A row of the `ucode` table; an expiry of `None` never expires. */
  datatype Ucode = Ucode(phoneNumber: Option<string>, token: string, status: int, expiredAt: Option<int>)

  /** The `where: { phone_number, token, status: 1 }` filter. */
  predicate ActiveMatch(u: Ucode, phone: string, token: string) {
    u.phoneNumber == Some(phone) && u.token == token && u.status == 1
  }

  /** `otpRecord.expired_at && now > otpRecord.expired_at` */
  predicate IsExpired(u: Ucode, now: int) {
    u.expiredAt.Some? && now > u.expiredAt.value
  }

  function FindOtp(ucodes: seq<Ucode>, phone: string, token: string): Option<nat> {
    FindFirst(ucodes, (u: Ucode) => ActiveMatch(u, phone, token))
  }

  datatype OtpVerdict = OtpInvalid | OtpExpired | OtpAccepted

  /** The check `matchPhoneOtp` and `resetPassword` share, judged on the first active matching row. */
  function CheckOtp(ucodes: seq<Ucode>, phone: string, token: string, now: int): (v: OtpVerdict)
    ensures v == OtpInvalid <==> forall i :: 0 <= i < |ucodes| ==> !ActiveMatch(ucodes[i], phone, token)
    ensures v != OtpInvalid ==> exists i :: 0 <= i < |ucodes| && ActiveMatch(ucodes[i], phone, token) && (v == OtpExpired <==> IsExpired(ucodes[i], now))
    ensures (forall i :: 0 <= i < |ucodes| && ActiveMatch(ucodes[i], phone, token) ==> !IsExpired(ucodes[i], now)) ==> v != OtpExpired
  {
    match FindOtp(ucodes, phone, token)
    case None => OtpInvalid
    case Some(i) => if IsExpired(ucodes[i], now) then OtpExpired else OtpAccepted
  }

  /** `ucode.deleteMany({ where: { phone_number } })` */
  function RemovePhoneCodes(ucodes: seq<Ucode>, phone: string): (r: seq<Ucode>)
    ensures forall k :: 0 <= k < |r| ==> r[k].phoneNumber != Some(phone) && r[k] in ucodes
    ensures forall k :: 0 <= k < |ucodes| && ucodes[k].phoneNumber != Some(phone) ==> ucodes[k] in r
  {
    Filter(ucodes, (u: Ucode) => u.phoneNumber != Some(phone))
  }

  /** `user.create({ data: { phone_number } })`; every other column takes its default. */
  function NewPhoneUser(id: Id, phone: string): User {
    User(id, Some(phone), None, false, false, None, None, None, None)
  }

  datatype OtpMatch = PhoneVerified(user: User) | InvalidOtp | ExpiredOtp

  /** The ways `resetPassword` answers. */
  datatype ResetOutcome = PasswordReset | MissingFields | ResetInvalidOtp | ResetExpiredOtp | NoUserWithPhone

  // ----------------------------------------------------------- login gate

  /** A user without the password column: what `validateUser` hands back. */
  datatype PublicUser = PublicUser(
    id: Id,
    phoneNumber: Option<string>,
    phoneVerified: bool,
    twoFactorEnabled: bool,
    name: Option<string>,
    email: Option<string>,
    userType: Option<string>,
    billingId: Option<string>)

  function WithoutPassword(u: User): PublicUser {
    PublicUser(u.id, u.phoneNumber, u.phoneVerified, u.twoFactorEnabled, u.name, u.email, u.userType, u.billingId)
  }

  datatype LoginError = PhoneNotFound | PasswordNotMatched | TokenRequired | InvalidToken

  function LoginErrorMessage(e: LoginError): string {
    match e
    case PhoneNotFound => "phone_number not found"
    case PasswordNotMatched => "Password not matched"
    case TokenRequired => "Token is required"
    case InvalidToken => "Invalid token"
  }

  /**
   * `validateUser`: unknown phone, then wrong password, then a missing second
   * factor, then a rejected one; otherwise the user without its password.
   * `passwordMatches` stands for the bcrypt comparison and `verify2fa` for the
   * one-time-token check.
   */
  function ValidateUser(
    users: seq<User>, phone: string, pass: string, token: Option<string>,
    passwordMatches: (User, string) -> bool, verify2fa: (User, string) -> bool)
    : (r: Result<PublicUser, LoginError>)
    ensures r == Failure(PhoneNotFound) <==> forall i :: 0 <= i < |users| ==> users[i].phoneNumber != Some(phone)
    ensures r != Failure(PhoneNotFound) ==>
      var u := users[FindUserByPhone(users, phone).value];
      && u.phoneNumber == Some(phone)
      && (r == Failure(PasswordNotMatched) <==> !passwordMatches(u, pass))
      && (r == Failure(TokenRequired) <==> passwordMatches(u, pass) && u.twoFactorEnabled && !Truthy(token))
      && (r == Failure(InvalidToken) <==> passwordMatches(u, pass) && u.twoFactorEnabled && Truthy(token) && !verify2fa(u, token.value))
      && (r.Success? <==> passwordMatches(u, pass) && (u.twoFactorEnabled ==> Truthy(token) && verify2fa(u, token.value)))
      && (r.Success? ==> r.value == WithoutPassword(u))
  {
    match FindUserByPhone(users, phone)
    case None => Failure(PhoneNotFound)
    case Some(i) =>
      var u := users[i];
      if !passwordMatches(u, pass) then Failure(PasswordNotMatched)
      else if u.twoFactorEnabled && !Truthy(token) then Failure(TokenRequired)
      else if u.twoFactorEnabled && !verify2fa(u, token.value) then Failure(InvalidToken)
      else Success(WithoutPassword(u))
  }

  // -------------------------------------------------------- refresh tokens

  /** The key `refresh_token:${user_id}` under which a user's refresh token is stored. */
  function RefreshKey(userId: Id): string {
    "refresh_token:" + userId
  }

  /** Distinct users never share a refresh-token key. */
  lemma RefreshKeyInjective(a: Id, b: Id)
    ensures RefreshKey(a) == RefreshKey(b) ==> a == b
  {
    var prefix := "refresh_token:";
    if RefreshKey(a) == RefreshKey(b) {
      assert a == RefreshKey(a)[|prefix|..];
      assert b == RefreshKey(b)[|prefix|..];
    }
  }

  /** `refreshToken`'s failures: "Refresh token is required" and "User not found". */
  datatype RefreshError = RefreshTokenRequired | RefreshUserNotFound

  /** `refreshToken`: succeeds only on the stored token of an existing user; the new access token is signed for that user. */
  function RefreshToken(redis: map<string, string>, users: seq<User>, userId: Id, token: string)
    : (r: Result<User, RefreshError>)
    ensures r.Success? <==>
      && RefreshKey(userId) in redis
      && redis[RefreshKey(userId)] != ""
      && redis[RefreshKey(userId)] == token
      && userId != ""
      && exists i :: 0 <= i < |users| && users[i].id == userId
    ensures r == Failure(RefreshTokenRequired) <==>
      !(RefreshKey(userId) in redis && redis[RefreshKey(userId)] != "" && redis[RefreshKey(userId)] == token)
    ensures r.Success? ==> r.value.id == userId
  {
    var stored := Lookup(redis, RefreshKey(userId));
    if !Truthy(stored) || stored.value != token then Failure(RefreshTokenRequired)
    else if userId == "" then Failure(RefreshUserNotFound)
    else match FindUserById(users, userId)
      case None => Failure(RefreshUserNotFound)
      case Some(i) => Success(users[i])
  }

  // ----------------------------------------------------------- the store

  /** The tables and the key map the authentication service changes. */
  class AuthStore {
    const catalog: map<Id, Product>
    var users: seq<User>
    var cart: seq<CartItem>
    var favourites: set<Favourite>
    var ucodes: seq<Ucode>
    var redis: map<string, string>

    ghost predicate Valid()
      reads this
    {
      PhonesUnique(users) && CartKeysUnique(cart) && ProductsKnown(cart, catalog)
    }

    constructor (catalog: map<Id, Product>)
      ensures Valid()
      ensures this.catalog == catalog
      ensures users == [] && cart == [] && favourites == {} && ucodes == [] && redis == map[]
    {
      this.catalog := catalog;
      users, cart, favourites, ucodes, redis := [], [], {}, [], map[];
    }

    /**
     * `addOrUpdateCart`: merges `dto.quantity || 1` into the caller's row for the
     * product, creating it when absent and deleting it when the merged quantity
     * is not positive. No other row changes.
     */
    method AddOrUpdateCart(userId: Id, productId: Id, quantity: Option<int>, newId: Id) returns (outcome: CartOutcome)
      requires Valid()
      modifies this`cart
      ensures Valid()
      ensures match FindCartRow(old(cart), userId, productId)
        case None =>
          if productId !in catalog then
            outcome == UnknownProduct && cart == old(cart)
          else
            && outcome == Created(CartItem(newId, userId, productId, RequestedQuantity(quantity)))
            && cart == old(cart) + [outcome.item]
        case Some(i) =>
          var merged := old(cart)[i].quantity + RequestedQuantity(quantity);
          if merged <= 0 then
            outcome == Removed && cart == RemoveAt(old(cart), i)
          else
            && outcome == Updated(old(cart)[i].(quantity := merged))
            && cart == old(cart)[i := outcome.item]
      ensures QuantitiesPositive(old(cart)) && ValidCartQuantity(quantity) ==> !outcome.Removed? && QuantitiesPositive(cart)
    {
      var existing := FindCartRow(cart, userId, productId);
      if existing.Some? {
        var i := existing.value;
        var updatedQuantity := cart[i].quantity + RequestedQuantity(quantity);
        if updatedQuantity <= 0 {
          cart := RemoveAt(cart, i);
          return Removed;
        }
        outcome := Updated(cart[i].(quantity := updatedQuantity));
        cart := cart[i := outcome.item];
        return;
      }
      if productId !in catalog {
        return UnknownProduct;
      }
      outcome := Created(CartItem(newId, userId, productId, RequestedQuantity(quantity)));
      cart := cart + [outcome.item];
    }

    /** `toggleFavourite`: returns whether the pair was added ("Added to favourites") rather than removed. */
    method ToggleFavourite(userId: Id, placeId: Id) returns (added: bool)
      modifies this`favourites
      ensures added <==> Favourite(userId, placeId) !in old(favourites)
      ensures favourites == Toggle(old(favourites), Favourite(userId, placeId))
    {
      var existing := Favourite(userId, placeId);
      if existing in favourites {
        favourites := favourites - {existing};
        return false;
      }
      favourites := favourites + {Favourite(userId, placeId)};
      added := true;
    }

    /**
     * `matchPhoneOtp`: on an accepted code, every code of the phone is deleted and
     * the phone's user is marked verified, or created when there is none.
     */
    method MatchPhoneOtp(phone: string, token: string, now: int, newUserId: Id) returns (r: OtpMatch)
      requires Valid()
      modifies this`ucodes, this`users
      ensures Valid()
      ensures CheckOtp(old(ucodes), phone, token, now) == OtpInvalid ==>
        r == InvalidOtp && ucodes == old(ucodes) && users == old(users)
      ensures CheckOtp(old(ucodes), phone, token, now) == OtpExpired ==>
        r == ExpiredOtp && ucodes == old(ucodes) && users == old(users)
      ensures CheckOtp(old(ucodes), phone, token, now) == OtpAccepted ==>
        && r.PhoneVerified?
        && ucodes == RemovePhoneCodes(old(ucodes), phone)
        && r.user.phoneNumber == Some(phone)
        && match FindUserByPhone(old(users), phone)
           case Some(i) => users == old(users)[i := old(users)[i].(phoneVerified := true)]
           case None => users == old(users) + [NewPhoneUser(newUserId, phone)]
      ensures r.PhoneVerified? ==> exists i :: 0 <= i < |users| && users[i].phoneNumber == Some(phone)
    {
      var record := FindOtp(ucodes, phone, token);
      if record.None? {
        return InvalidOtp;
      }
      var otp := ucodes[record.value];
      if otp.expiredAt.Some? && now > otp.expiredAt.value {
        return ExpiredOtp;
      }
      ucodes := RemovePhoneCodes(ucodes, phone);
      var found := FindUserByPhone(users, phone);
      var user: User;
      if found.Some? {
        user := users[found.value];
        users := users[found.value := user.(phoneVerified := true)];
        assert users[found.value].phoneNumber == Some(phone);
      } else {
        user := NewPhoneUser(newUserId, phone);
        users := users + [user];
        assert users[|users| - 1].phoneNumber == Some(phone);
      }
      r := PhoneVerified(user);
    }

    /**
     * `resetPassword`: all three fields must be present, the code must pass the
     * shared check, the phone's codes are then deleted and the password hash
     * replaced. When no user has that phone the update fails after the codes
     * are already gone. `hashed` is the bcrypt hash of the new password.
     */
    method ResetPassword(phone: string, token: string, password: string, hashed: string, now: int) returns (r: ResetOutcome)
      requires Valid()
      modifies this`ucodes, this`users
      ensures Valid()
      ensures phone == "" || token == "" || password == "" ==>
        r == MissingFields && ucodes == old(ucodes) && users == old(users)
      ensures phone != "" && token != "" && password != "" ==>
        match CheckOtp(old(ucodes), phone, token, now)
        case OtpInvalid => r == ResetInvalidOtp && ucodes == old(ucodes) && users == old(users)
        case OtpExpired => r == ResetExpiredOtp && ucodes == old(ucodes) && users == old(users)
        case OtpAccepted =>
          && ucodes == RemovePhoneCodes(old(ucodes), phone)
          && match FindUserByPhone(old(users), phone)
             case None => r == NoUserWithPhone && users == old(users)
             case Some(i) => r == PasswordReset && users == old(users)[i := old(users)[i].(password := Some(hashed))]
    {
      if phone == "" || token == "" || password == "" {
        return MissingFields;
      }
      var record := FindOtp(ucodes, phone, token);
      if record.None? {
        return ResetInvalidOtp;
      }
      var otp := ucodes[record.value];
      if otp.expiredAt.Some? && now > otp.expiredAt.value {
        return ResetExpiredOtp;
      }
      ucodes := RemovePhoneCodes(ucodes, phone);
      var found := FindUserByPhone(users, phone);
      if found.None? {
        return NoUserWithPhone;
      }
      users := users[found.value := users[found.value].(password := Some(hashed))];
      r := PasswordReset;
    }

    /** `login`: stores the freshly signed refresh token under the user's key, overwriting any older one. */
    method Login(userId: Id, refreshToken: string) returns (ok: bool)
      modifies this`redis
      ensures ok <==> exists i :: 0 <= i < |users| && users[i].id == userId
      ensures redis == if ok then old(redis)[RefreshKey(userId) := refreshToken] else old(redis)
      ensures forall other :: other != userId ==> Lookup(redis, RefreshKey(other)) == Lookup(old(redis), RefreshKey(other))
      ensures ok && userId != "" && refreshToken != "" ==> RefreshToken(redis, users, userId, refreshToken).Success?
    {
      var found := FindUserById(users, userId);
      if found.None? {
        assert forall i :: 0 <= i < |users| ==> users[i].id != userId;
        return false;
      }
      var user := users[found.value];
      assert user.id == userId;
      redis := redis[RefreshKey(user.id) := refreshToken];
      ok := true;
      assert users[found.value].id == userId;
      forall other | other != userId
        ensures Lookup(redis, RefreshKey(other)) == Lookup(old(redis), RefreshKey(other))
      {
        RefreshKeyInjective(other, userId);
      }
    }

    /** `revokeRefreshToken`: fails when nothing is stored, otherwise deletes the key so no refresh succeeds afterwards. */
    method RevokeRefreshToken(userId: Id) returns (ok: bool)
      modifies this`redis
      ensures ok <==> Truthy(Lookup(old(redis), RefreshKey(userId)))
      ensures redis == if ok then old(redis) - {RefreshKey(userId)} else old(redis)
      ensures ok ==> forall t :: RefreshToken(redis, users, userId, t).Failure?
    {
      var stored := Lookup(redis, RefreshKey(userId));
      if !Truthy(stored) {
        return false;
      }
      redis := redis - {RefreshKey(userId)};
      ok := true;
    }
  }
}
