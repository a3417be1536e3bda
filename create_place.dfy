/**
 * The place service of the admin area: creation behind an ordered sequence of
 * guards (a user with a business-owner row, an authorised role, a geocoded
 * location, an image write), the update that replaces the opening hours
 * wholesale, and the soft delete.
 */
module CreatePlace {
  import opened Common
  import opened Schema
  import opened Storage

  /** One opening-hours entry of a place. */
  datatype Availability = Availability(day: string, openTime: string, closeTime: string)

  /** A place row, with its availability relation embedded. */
  datatype Place = Place(
    id: Id,
    title: string,
    description: string,
    phoneNumber: Option<string>,
    businessOwnerId: Option<Id>,
    categoryId: Id,
    location: Option<string>,
    latitude: Option<real>,
    longitude: Option<real>,
    image: Option<string>,
    placeTypes: seq<string>,
    userId: Option<Id>,
    availability: seq<Availability>,
    deletedAt: Option<int>)

  /** The create/update request body after validation. */
  datatype PlaceInput = PlaceInput(
    title: string,
    description: string,
    phoneNumber: Option<string>,
    categoryId: Id,
    availability: Option<seq<Availability>>,
    location: string,
    placeTypes: Option<seq<string>>)

  // ------------------------------------------------------------- geocoding

  datatype Geometry = Geometry(lat: real, lng: real)

  /** What the geocoding request gave: it threw, or it answered with an optional result list. */
  datatype GeocoderReply =
    | GeoThrew(message: string)
    | GeoResponded(results: Option<seq<Geometry>>)

  /**
   * `getLatLongFromLocation`: the first result's coordinates; "Location not
   * found" for a missing or empty result list; the error text when the request
   * throws.
   */
  function GetLatLongFromLocation(reply: GeocoderReply): (r: Result<Geometry, string>)
    ensures r.Success? <==> reply.GeoResponded? && reply.results.Some? && |reply.results.value| > 0
    ensures r.Success? ==> r.value == reply.results.value[0]
    ensures reply.GeoResponded? && r.Failure? ==> r.error == "Location not found"
    ensures reply.GeoThrew? ==> r.error == "Error fetching geolocation: " + reply.message
    ensures r.Failure? ==> r.error != ""
  {
    match reply
    case GeoThrew(message) => Failure("Error fetching geolocation: " + message)
    case GeoResponded(results) =>
      if results.Some? && |results.value| > 0 then Success(results.value[0])
      else Failure("Location not found")
  }

  // ------------------------------------------------------------ create gate

  /** Why `create` refused before touching storage or the table. */
  datatype GateRefusal = NoUserOrOwner | UnauthorizedUserType | GeocodeFailed(message: string)

  function GateRefusalMessage(g: GateRefusal): string {
    match g
    case NoUserOrOwner => "User not found"
    case UnauthorizedUserType => "Unauthorized user type"
    case GeocodeFailed(message) => OrElse(Some(message), "Failed to get latitude and longitude for the location.")
  }

  /** The facts a passed gate hands to the insert. */
  datatype Approval = Approval(user: User, owner: BusinessOwner, position: Geometry)

  predicate MayCreatePlaces(u: User) {
    u.userType == Some("BUSINESS_OWNER") || u.userType == Some("ADMIN")
  }

  /**
   * The guards of `create`, in their order: the user and a business-owner row
   * for that user (an ADMIN without one is refused too), then the role, then
   * the geocoding of the requested location.
   */
  function CreateGate(
    users: seq<User>, owners: seq<BusinessOwner>, userId: Id, location: string,
    geocode: string -> GeocoderReply)
    : (r: Result<Approval, GateRefusal>)
    ensures r == Failure(NoUserOrOwner) <==>
      (forall i :: 0 <= i < |users| ==> users[i].id != userId)
      || (forall i :: 0 <= i < |owners| ==> owners[i].userId != userId)
    ensures r == Failure(UnauthorizedUserType) <==>
      && FindUserById(users, userId).Some?
      && FindOwnerByUser(owners, userId).Some?
      && !MayCreatePlaces(users[FindUserById(users, userId).value])
    ensures r.Failure? && r.error.GeocodeFailed? <==>
      && FindUserById(users, userId).Some?
      && FindOwnerByUser(owners, userId).Some?
      && MayCreatePlaces(users[FindUserById(users, userId).value])
      && GetLatLongFromLocation(geocode(location)).Failure?
    ensures r.Failure? && r.error.GeocodeFailed? ==>
      r.error.message == GetLatLongFromLocation(geocode(location)).error
    ensures r.Success? ==>
      && r.value.user.id == userId && MayCreatePlaces(r.value.user)
      && r.value.user == users[FindUserById(users, userId).value]
      && r.value.owner.userId == userId
      && r.value.owner == owners[FindOwnerByUser(owners, userId).value]
      && GetLatLongFromLocation(geocode(location)) == Success(r.value.position)
  {
    var u := FindUserById(users, userId);
    var o := FindOwnerByUser(owners, userId);
    if u.None? || o.None? then Failure(NoUserOrOwner)
    else if !MayCreatePlaces(users[u.value]) then Failure(UnauthorizedUserType)
    else
      var geo := GetLatLongFromLocation(geocode(location));
      if geo.Failure? then Failure(GeocodeFailed(geo.error))
      else Success(Approval(users[u.value], owners[o.value], geo.value))
  }

  /**
   * The geocoder's failure message is never empty, so a geocode refusal of
   * `create` shows it and never the fallback text.
   */
  lemma GeocodeRefusalKeepsMessage(reply: GeocoderReply)
    requires GetLatLongFromLocation(reply).Failure?
    ensures GateRefusalMessage(GeocodeFailed(GetLatLongFromLocation(reply).error)) == GetLatLongFromLocation(reply).error
    ensures GetLatLongFromLocation(reply).error != "Failed to get latitude and longitude for the location."
  {
    var fallback := "Failed to get latitude and longitude for the location.";
    assert fallback == "Failed to get latitude and longitude" + " for the location.";
    assert fallback[0] == 'F';
    match reply
    case GeoThrew(m) =>
      var msg := "Error fetching geolocation: " + m;
      assert msg[0] == 'E';
    case GeoResponded(_) =>
      assert "Location not found"[0] == 'L';
  }

  /** The row `create` inserts once the gate has passed. */
  function NewPlace(id: Id, userId: Id, dto: PlaceInput, a: Approval, image: Option<string>): (p: Place)
    ensures p.phoneNumber == a.user.phoneNumber
    ensures p.businessOwnerId == Some(a.owner.id) && p.userId == Some(userId)
    ensures p.latitude == Some(a.position.lat) && p.longitude == Some(a.position.lng)
    ensures p.availability == dto.availability.GetOr([])
    ensures p.deletedAt.None?
  {
    Place(id, dto.title, dto.description, a.user.phoneNumber, Some(a.owner.id), dto.categoryId,
      Some(dto.location), Some(a.position.lat), Some(a.position.lng), image,
      dto.placeTypes.GetOr([]), Some(userId), dto.availability.GetOr([]), None)
  }

  /** What `create` answers: a refusal message, an exception from the image write, or the new row. */
  datatype CreateResult = CreateRejected(message: string) | CreateThrew | PlaceCreated(place: Place)

  // ------------------------------------------------------- update, remove

  /** `place.update({ where: { id } })` finds the row by id, deleted or not. */
  function FindPlace(places: seq<Place>, id: Id): Option<nat> {
    FindFirst(places, (p: Place) => p.id == id)
  }

  /**
   * The row after `update`: the required columns are overwritten, the optional
   * ones only when supplied, the opening hours are replaced by exactly the
   * request's list, and the coordinates are left as they were, even when the
   * location text changes.
   */
  function UpdatedPlace(p: Place, dto: PlaceInput): (q: Place)
    ensures q.id == p.id && q.userId == p.userId && q.businessOwnerId == p.businessOwnerId
    ensures q.title == dto.title && q.description == dto.description && q.categoryId == dto.categoryId
    ensures q.location == Some(dto.location)
    ensures q.phoneNumber == (if dto.phoneNumber.Some? then dto.phoneNumber else p.phoneNumber)
    ensures q.placeTypes == (if dto.placeTypes.Some? then dto.placeTypes.value else p.placeTypes)
    ensures q.availability == dto.availability.GetOr([])
    ensures q.latitude == p.latitude && q.longitude == p.longitude
    ensures q.image == p.image && q.deletedAt == p.deletedAt
  {
    p.(title := dto.title, description := dto.description,
       phoneNumber := if dto.phoneNumber.Some? then dto.phoneNumber else p.phoneNumber,
       categoryId := dto.categoryId, location := Some(dto.location),
       placeTypes := if dto.placeTypes.Some? then dto.placeTypes.value else p.placeTypes,
       availability := dto.availability.GetOr([]))
  }

  /** Updating twice with the same request leaves the row as one update does. */
  lemma UpdateIdempotent(p: Place, dto: PlaceInput)
    ensures UpdatedPlace(UpdatedPlace(p, dto), dto) == UpdatedPlace(p, dto)
  {
  }

  /** The opening hours after an update do not depend on the ones before. */
  lemma UpdateForgetsOldAvailability(p: Place, p': Place, dto: PlaceInput)
    ensures UpdatedPlace(p, dto).availability == UpdatedPlace(p', dto).availability
  {
  }

  /** The row after `remove`: only `deleted_at` changes. */
  function SoftDeleted(p: Place, now: int): (q: Place)
    ensures q.deletedAt == Some(now)
    ensures q.(deletedAt := p.deletedAt) == p
  {
    p.(deletedAt := Some(now))
  }

  /** The places table and the image writes of the service. */
  class PlaceDirectory {
    const placeFolder: string
    var places: seq<Place>
    var storedFiles: seq<string>

    constructor (placeFolder: string)
      ensures this.placeFolder == placeFolder
      ensures places == [] && storedFiles == []
    {
      this.placeFolder := placeFolder;
      places := [];
      storedFiles := [];
    }

    /**
     * `create`: the gate decides the refusals and nothing is written for them;
     * a failed image write throws out of the call with no row; a rejected
     * insert answers "There was an error creating the place" (the image write
     * stays); otherwise the new row is appended.
     */
    method Create(
      userId: Id, users: seq<User>, owners: seq<BusinessOwner>, dto: PlaceInput,
      geocode: string -> GeocoderReply, image: Upload, insertSucceeds: bool, newId: Id)
      returns (r: CreateResult)
      modifies this`places, this`storedFiles
      ensures CreateGate(users, owners, userId, dto.location, geocode).Failure? ==>
        && r == CreateRejected(GateRefusalMessage(CreateGate(users, owners, userId, dto.location, geocode).error))
        && places == old(places) && storedFiles == old(storedFiles)
      ensures CreateGate(users, owners, userId, dto.location, geocode).Success? ==>
        var a := CreateGate(users, owners, userId, dto.location, geocode).value;
        var stored := if image.File? then [StoragePath(placeFolder, StoredName(image.prefix, image.originalName))] else [];
        var imageName := if image.File? then Some(StoredName(image.prefix, image.originalName)) else None;
        if image.File? && !image.putSucceeds then
          r == CreateThrew && places == old(places) && storedFiles == old(storedFiles)
        else if !insertSucceeds then
          r == CreateRejected("There was an error creating the place")
          && places == old(places) && storedFiles == old(storedFiles) + stored
        else
          r == PlaceCreated(NewPlace(newId, userId, dto, a, imageName))
          && places == old(places) + [r.place] && storedFiles == old(storedFiles) + stored
    {
      var gate := CreateGate(users, owners, userId, dto.location, geocode);
      if gate.Failure? {
        return CreateRejected(GateRefusalMessage(gate.error));
      }
      var imageFileName: Option<string> := None;
      if image.File? {
        if !image.putSucceeds {
          return CreateThrew;
        }
        imageFileName := Some(StoredName(image.prefix, image.originalName));
        storedFiles := storedFiles + [StoragePath(placeFolder, imageFileName.value)];
      }
      if !insertSucceeds {
        return CreateRejected("There was an error creating the place");
      }
      var place := NewPlace(newId, userId, dto, gate.value, imageFileName);
      places := places + [place];
      r := PlaceCreated(place);
    }

    /** `update`: a missing id throws and changes nothing; otherwise only that row changes. */
    method Update(id: Id, dto: PlaceInput) returns (r: Option<Place>)
      modifies this`places
      ensures r.None? <==> forall i :: 0 <= i < |old(places)| ==> old(places)[i].id != id
      ensures r.None? ==> places == old(places)
      ensures r.Some? ==>
        var i := FindPlace(old(places), id).value;
        && r.value == UpdatedPlace(old(places)[i], dto)
        && places == old(places)[i := r.value]
    {
      var found := FindPlace(places, id);
      if found.None? {
        return None;
      }
      assert places[found.value].id == id;
      var q := UpdatedPlace(places[found.value], dto);
      places := places[found.value := q];
      r := Some(q);
    }

    /** `remove`: a soft delete that keeps the row and stamps `deleted_at`. */
    method Remove(id: Id, now: int) returns (r: Option<Place>)
      modifies this`places
      ensures r.None? <==> forall i :: 0 <= i < |old(places)| ==> old(places)[i].id != id
      ensures r.None? ==> places == old(places)
      ensures |places| == |old(places)|
      ensures r.Some? ==>
        var i := FindPlace(old(places), id).value;
        && r.value == SoftDeleted(old(places)[i], now)
        && places == old(places)[i := r.value]
        && FindPlace(places, id) == Some(i)
    {
      var found := FindPlace(places, id);
      if found.None? {
        return None;
      }
      assert places[found.value].id == id;
      var q := SoftDeleted(places[found.value], now);
      places := places[found.value := q];
      assert forall j :: 0 <= j < found.value ==> places[j].id != id;
      assert places[found.value].id == id;
      r := Some(q);
    }
  }
}
