/**
 * The users router: the caller's profile, the three updates a seller makes to
 * their own row, and the list of sellers shown on the map.
 */
module UsersRouter {
  import opened Wrappers
  import opened Relational
  import opened Schema

  /** `SELECT * FROM users WHERE id = callerId`, first row or nothing. */
  function GetProfile(users: seq<User>, callerId: Id): (r: Option<User>)
    ensures r.Some? ==> r.value in users && r.value.id == callerId
    ensures r.None? <==> forall u :: u in users ==> u.id != callerId
  {
    if users == [] then None
    else if users[0].id == callerId then Some(users[0])
    else GetProfile(users[1..], callerId)
  }

  /** With a primary key on id, the profile found is the caller's only row. */
  lemma ProfileIsCallersRow(users: seq<User>, callerId: Id, u: User)
    requires UniqueKeys(UserId, users)
    requires u in users && u.id == callerId
    ensures GetProfile(users, callerId) == Some(u)
  {
    KeyedRowsEqual(UserId, users, u, GetProfile(users, callerId).value);
  }

  /** The columns an `UPDATE users SET ...` assigns; an absent entry is left as it is. */
  datatype UserPatch = UserPatch(
    role: Option<Role>,
    isActive: Option<bool>,
    isOnboarded: Option<bool>,
    businessName: Option<string>,
    businessDescription: Option<string>,
    phoneNumber: Option<string>,
    currentLatitude: Option<string>,
    currentLongitude: Option<string>,
    updatedAt: Option<Timestamp>)

  /** The row after the patch's assignments. */
  function ApplyPatch(u: User, p: UserPatch): User {
    u.(role := p.role.GetOr(u.role),
       isActive := p.isActive.GetOr(u.isActive),
       isOnboarded := p.isOnboarded.GetOr(u.isOnboarded),
       businessName := if p.businessName.Some? then p.businessName else u.businessName,
       businessDescription := if p.businessDescription.Some? then p.businessDescription else u.businessDescription,
       phoneNumber := if p.phoneNumber.Some? then p.phoneNumber else u.phoneNumber,
       currentLatitude := if p.currentLatitude.Some? then p.currentLatitude else u.currentLatitude,
       currentLongitude := if p.currentLongitude.Some? then p.currentLongitude else u.currentLongitude,
       updatedAt := if p.updatedAt.Some? then p.updatedAt else u.updatedAt)
  }

  /** `UPDATE users SET p WHERE id = callerId`: the caller's row is patched, every other row is untouched. */
  function UpdateWhereId(users: seq<User>, callerId: Id, p: UserPatch): (r: seq<User>)
    ensures |r| == |users|
    ensures forall i :: 0 <= i < |users| ==> r[i].id == users[i].id
    ensures forall i :: 0 <= i < |users| && users[i].id != callerId ==> r[i] == users[i]
    ensures forall i :: 0 <= i < |users| && users[i].id == callerId ==> r[i] == ApplyPatch(users[i], p)
  {
    Map((u: User) => if u.id == callerId then ApplyPatch(u, p) else u, users)
  }

  /** The text `String(n)` gives for a JavaScript number: never empty. */
  type CoordinateText = s: string | s != "" witness "0"

  /** `.set({ isActive: input })`. */
  function VendorStatusPatch(input: bool): UserPatch {
    UserPatch(None, Some(input), None, None, None, None, None, None, None)
  }

  /** `.set({ businessName, businessDescription, phoneNumber, isOnboarded: true, role: "seller" })`. */
  function BusinessProfilePatch(businessName: string, businessDescription: string, phoneNumber: string): UserPatch {
    UserPatch(Some(Seller), None, Some(true), Some(businessName), Some(businessDescription), Some(phoneNumber),
              None, None, None)
  }

  /** `.set({ currentLatitude, currentLongitude, isActive: true, role: "seller", updatedAt: now })`. */
  function LocationPatch(latitude: CoordinateText, longitude: CoordinateText, now: Timestamp): UserPatch {
    UserPatch(Some(Seller), Some(true), None, None, None, None, Some(latitude), Some(longitude), Some(now))
  }

  /** JavaScript truthiness of a nullable text column. */
  predicate Truthy(s: Option<string>) {
    s.Some? && s.value != ""
  }

  /** The filter of getActiveSellers after its `WHERE is_active = true`. */
  predicate SellerWithLocation(u: User) {
    u.role == Seller && Truthy(u.currentLatitude) && Truthy(u.currentLongitude)
  }

  predicate IsActive(u: User) { u.isActive }

  /** Both filters of getActiveSellers together. */
  predicate IsActiveSeller(u: User) {
    u.isActive && SellerWithLocation(u)
  }

  /** A map marker for one seller; `Number(...)` of the coordinates is not modelled. */
  datatype ActiveSeller = ActiveSeller(
    id: Id,
    name: Option<string>,
    avatarUrl: Option<string>,
    latitude: string,
    longitude: string)

  /** `u.businessName || u.name`. */
  function DisplayName(u: User): (r: Option<string>)
    ensures Truthy(u.businessName) ==> r == u.businessName
    ensures !Truthy(u.businessName) ==> r == u.name
  {
    if Truthy(u.businessName) then u.businessName else u.name
  }

  /** The marker for one row; the filter has already ensured both coordinates are present. */
  function ToActiveSeller(u: User): (m: ActiveSeller)
    ensures m.id == u.id && m.avatarUrl == u.avatarUrl
    ensures u.businessName.Some? && u.businessName.value != "" ==> m.name == u.businessName
    ensures u.businessName.None? || u.businessName.value == "" ==> m.name == u.name
    ensures IsActiveSeller(u) ==> Some(m.latitude) == u.currentLatitude && Some(m.longitude) == u.currentLongitude
    ensures IsActiveSeller(u) ==> m.latitude != "" && m.longitude != ""
  {
    ActiveSeller(u.id, DisplayName(u), u.avatarUrl, u.currentLatitude.GetOr(""), u.currentLongitude.GetOr(""))
  }

  /**
   * `SELECT * FROM users WHERE is_active = true`, then the in-memory filter
   * on role and coordinates, then the marker map; store order is kept.
   */
  function GetActiveSellers(users: seq<User>): (r: seq<ActiveSeller>)
    ensures |r| <= |users|
    ensures forall m :: m in r <==> exists u :: u in users && IsActiveSeller(u) && m == ToActiveSeller(u)
  {
    var active := Filter(IsActive, users);
    var sellers := Filter(SellerWithLocation, active);
    var r := Map(ToActiveSeller, sellers);
    assert forall m :: m in r <==> exists u :: u in sellers && m == ToActiveSeller(u) by {
      forall m ensures m in r <==> exists u :: u in sellers && m == ToActiveSeller(u) {
        if m in r {
          var i :| 0 <= i < |r| && r[i] == m;
          assert sellers[i] in sellers;
        }
        if exists u :: u in sellers && m == ToActiveSeller(u) {
          var u :| u in sellers && m == ToActiveSeller(u);
          var i :| 0 <= i < |sellers| && sellers[i] == u;
          assert r[i] == m;
        }
      }
    }
    r
  }

  /** The two-step filter is the single filter IsActiveSeller, so the sellers keep store order. */
  lemma ActiveSellersInStoreOrder(users: seq<User>)
    ensures GetActiveSellers(users) == Map(ToActiveSeller, Filter(IsActiveSeller, users))
  {
    FilterTwice(IsActive, SellerWithLocation, IsActiveSeller, users);
  }

  /** The sellers of a concatenated table are those of each part, in turn. */
  lemma ActiveSellersAppend(a: seq<User>, b: seq<User>)
    ensures GetActiveSellers(a + b) == GetActiveSellers(a) + GetActiveSellers(b)
  {
    ActiveSellersInStoreOrder(a + b);
    ActiveSellersInStoreOrder(a);
    ActiveSellersInStoreOrder(b);
    FilterAppend(IsActiveSeller, a, b);
    MapAppend(ToActiveSeller, Filter(IsActiveSeller, a), Filter(IsActiveSeller, b));
  }

  /** After updateLocation the caller's rows are active sellers and are listed on the map. */
  lemma LocationMakesActiveSeller(users: seq<User>, callerId: Id,
                                  latitude: CoordinateText, longitude: CoordinateText, now: Timestamp)
    requires exists u :: u in users && u.id == callerId
    ensures forall u :: u in UpdateWhereId(users, callerId, LocationPatch(latitude, longitude, now)) && u.id == callerId
                ==> IsActiveSeller(u)
    ensures exists m :: m in GetActiveSellers(UpdateWhereId(users, callerId, LocationPatch(latitude, longitude, now))) &&
                        m.id == callerId && m.latitude == latitude && m.longitude == longitude
  {
    var after := UpdateWhereId(users, callerId, LocationPatch(latitude, longitude, now));
    forall u | u in after && u.id == callerId ensures IsActiveSeller(u) {
      var i :| 0 <= i < |after| && after[i] == u;
    }
    var u :| u in users && u.id == callerId;
    var i :| 0 <= i < |users| && users[i] == u;
    assert after[i] in after;
    assert ToActiveSeller(after[i]) in GetActiveSellers(after);
  }

  /** updateVendorStatus(false) takes the caller off the map; every other seller stays as listed. */
  lemma ClosingRemovesFromMap(users: seq<User>, callerId: Id, m: ActiveSeller)
    ensures m in GetActiveSellers(UpdateWhereId(users, callerId, VendorStatusPatch(false))) <==>
      m in GetActiveSellers(users) && m.id != callerId
  {
    var after := UpdateWhereId(users, callerId, VendorStatusPatch(false));
    if m in GetActiveSellers(after) {
      var u :| u in after && IsActiveSeller(u) && m == ToActiveSeller(u);
      var i :| 0 <= i < |after| && after[i] == u;
      assert users[i] in users;
    }
    if m in GetActiveSellers(users) && m.id != callerId {
      var u :| u in users && IsActiveSeller(u) && m == ToActiveSeller(u);
      var i :| 0 <= i < |users| && users[i] == u;
      assert after[i] in after;
    }
  }

  /** The users table, updated in place by the three mutations. */
  class UserTable {
    var rows: seq<User>

    constructor (rows0: seq<User>)
      ensures rows == rows0
    {
      rows := rows0;
    }

    /** updateVendorStatus: only the caller's isActive changes. */
    method UpdateVendorStatus(callerId: Id, input: bool) returns (success: bool)
      modifies this
      ensures success
      ensures |rows| == |old(rows)|
      ensures forall i :: 0 <= i < |rows| && old(rows)[i].id != callerId ==> rows[i] == old(rows)[i]
      ensures forall i :: 0 <= i < |rows| && old(rows)[i].id == callerId ==>
        rows[i] == old(rows)[i].(isActive := input)
    {
      rows := UpdateWhereId(rows, callerId, VendorStatusPatch(input));
      success := true;
    }

    /** updateBusinessProfile: the three business fields, isOnboarded and the seller role, on the caller's row only. */
    method UpdateBusinessProfile(callerId: Id, businessName: string, businessDescription: string, phoneNumber: string)
      returns (success: bool)
      modifies this
      ensures success
      ensures |rows| == |old(rows)|
      ensures forall i :: 0 <= i < |rows| && old(rows)[i].id != callerId ==> rows[i] == old(rows)[i]
      ensures forall i :: 0 <= i < |rows| && old(rows)[i].id == callerId ==>
        rows[i] == old(rows)[i].(businessName := Some(businessName),
                                 businessDescription := Some(businessDescription),
                                 phoneNumber := Some(phoneNumber),
                                 isOnboarded := true,
                                 role := Seller)
    {
      rows := UpdateWhereId(rows, callerId, BusinessProfilePatch(businessName, businessDescription, phoneNumber));
      success := true;
    }

    /** updateLocation: coordinates, isActive, the seller role and updatedAt, on the caller's row only. */
    method UpdateLocation(callerId: Id, latitude: CoordinateText, longitude: CoordinateText, now: Timestamp)
      returns (success: bool)
      modifies this
      ensures success
      ensures |rows| == |old(rows)|
      ensures forall i :: 0 <= i < |rows| && old(rows)[i].id != callerId ==> rows[i] == old(rows)[i]
      ensures forall i :: 0 <= i < |rows| && old(rows)[i].id == callerId ==>
        rows[i] == old(rows)[i].(currentLatitude := Some(latitude),
                                 currentLongitude := Some(longitude),
                                 isActive := true,
                                 role := Seller,
                                 updatedAt := Some(now))
      ensures forall i :: 0 <= i < |rows| && rows[i].id == callerId ==> IsActiveSeller(rows[i])
    {
      rows := UpdateWhereId(rows, callerId, LocationPatch(latitude, longitude, now));
      success := true;
    }
  }
}
