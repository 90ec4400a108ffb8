/** The in-memory entity store (`InMemoryDatabase`): one insertion-ordered
    table per entity, lookups by id and by owning farmer, record creation,
    the farmer update, bookmark deletion, notification read-marking and the
    dashboard statistics fold. The store is an immutable value; every
    mutating operation returns the next store, and its contract says which
    table changed and that no other did. Fresh ids and clock readings are
    parameters. */
module Store {
  import opened Wrappers
  import opened Entities
  import opened Seqs
  import opened Tables
  import Sorting

  datatype Db = Db(
    users: seq<User>,
    farmers: seq<Farmer>,
    lands: seq<Land>,
    crops: seq<Crop>,
    livestock: seq<Livestock>,
    schemes: seq<Scheme>,
    applications: seq<Application>,
    bookmarks: seq<Bookmark>,
    notifications: seq<Notification>)

  /** The store as constructed (and after `clear()`). */
  const EmptyDb := Db([], [], [], [], [], [], [], [], [])

  function UserKey(u: User): string { u.id }
  function FarmerKey(f: Farmer): string { f.id }
  function LandKey(l: Land): string { l.id }
  function CropKey(c: Crop): string { c.id }
  function LivestockKey(a: Livestock): string { a.id }
  function SchemeKey(s: Scheme): string { s.id }
  function ApplicationKey(a: Application): string { a.id }
  function BookmarkKey(b: Bookmark): string { b.id }
  function NotificationKey(n: Notification): string { n.id }
  function NotificationTime(n: Notification): int { n.createdAt }

  // ---------------------------------------------------------------- users

  function GetUser(db: Db, id: string): (r: Option<User>)
    ensures r.Some? <==> HasKey(db.users, UserKey, id)
    ensures r.Some? ==> r.value in db.users && r.value.id == id
  {
    Get(db.users, UserKey, id)
  }

  /** The first stored user with that user name, if any. */
  function GetUserByUsername(db: Db, username: string): (r: Option<User>)
    ensures r.None? <==> forall i :: 0 <= i < |db.users| ==> db.users[i].username != username
    ensures r.Some? ==> r.value in db.users && r.value.username == username
  {
    Find(db.users, (u: User) => u.username == username)
  }

  function CreateUser(db: Db, username: string, password: string, role: string, id: string, now: int): (r: Db)
    ensures r == db.(users := r.users)
    ensures Get(r.users, UserKey, id) == Some(User(id, username, password, role, now))
    ensures !HasKey(db.users, UserKey, id) ==> r.users == db.users + [User(id, username, password, role, now)]
  {
    var u := User(id, username, password, role, now);
    GetSetSame(db.users, UserKey, u);
    db.(users := Set(db.users, UserKey, u))
  }

  // -------------------------------------------------------------- farmers

  function GetFarmer(db: Db, id: string): (r: Option<Farmer>)
    ensures r.Some? <==> HasKey(db.farmers, FarmerKey, id)
    ensures r.Some? ==> r.value in db.farmers && r.value.id == id
  {
    Get(db.farmers, FarmerKey, id)
  }

  /** The first farmer record linked to that user account, if any. */
  function GetFarmerByUserId(db: Db, userId: string): (r: Option<Farmer>)
    ensures r.None? <==> forall i :: 0 <= i < |db.farmers| ==> db.farmers[i].userId != userId
    ensures r.Some? ==> r.value in db.farmers && r.value.userId == userId
    ensures r.Some? ==>
      exists i :: 0 <= i < |db.farmers| && db.farmers[i] == r.value &&
        forall j :: 0 <= j < i ==> db.farmers[j].userId != userId
  {
    Find(db.farmers, (f: Farmer) => f.userId == userId)
  }

  /** The farmer record `createFarmer` stores: the supplied fields, the new
      id and clock reading, and never verified. */
  function NewFarmer(data: Farmer, id: string, now: int): (f: Farmer)
    ensures f.id == id && !f.isVerified && f.createdAt == now && f.updatedAt == now
    ensures f.(id := data.id, isVerified := data.isVerified, createdAt := data.createdAt,
               updatedAt := data.updatedAt) == data
  {
    data.(id := id, isVerified := false, createdAt := now, updatedAt := now)
  }

  function CreateFarmer(db: Db, data: Farmer, id: string, now: int): (r: Db)
    ensures r == db.(farmers := r.farmers)
    ensures GetFarmer(r, id) == Some(NewFarmer(data, id, now))
    ensures GetFarmer(r, id).value.isVerified == false
    ensures forall k :: k != id ==> GetFarmer(r, k) == GetFarmer(db, k)
    ensures !HasKey(db.farmers, FarmerKey, id) ==> r.farmers == db.farmers + [NewFarmer(data, id, now)]
  {
    var f := NewFarmer(data, id, now);
    GetSetSame(db.farmers, FarmerKey, f);
    forall k | k != id ensures Get(Set(db.farmers, FarmerKey, f), FarmerKey, k) == Get(db.farmers, FarmerKey, k) {
      GetSetOther(db.farmers, FarmerKey, f, k);
    }
    db.(farmers := Set(db.farmers, FarmerKey, f))
  }

  /** `Partial<Farmer>`: `None` leaves a field as it is; `Some(v)` overwrites
      it (for an optional field, `Some(None)` clears it). The id is not
      patchable in this model. */
  datatype FarmerPatch = FarmerPatch(
    userId: Option<string>,
    name: Option<string>,
    fatherName: Option<Option<string>>,
    age: Option<Option<int>>,
    gender: Option<Option<string>>,
    category: Option<Option<string>>,
    mobileNumber: Option<string>,
    aadharNumber: Option<Option<string>>,
    address: Option<Option<string>>,
    village: Option<Option<string>>,
    district: Option<Option<string>>,
    state: Option<Option<string>>,
    pincode: Option<Option<string>>,
    latitude: Option<Option<real>>,
    longitude: Option<Option<real>>,
    bankAccountNumber: Option<Option<string>>,
    ifscCode: Option<Option<string>>,
    language: Option<string>,
    isVerified: Option<bool>,
    createdAt: Option<int>)

  const NoChanges := FarmerPatch(None, None, None, None, None, None, None, None, None, None,
                                 None, None, None, None, None, None, None, None, None, None)

  /** `{ ...farmer, ...updates }`. */
  function ApplyPatch(f: Farmer, p: FarmerPatch): Farmer
  {
    Farmer(
      f.id,
      p.userId.GetOr(f.userId),
      p.name.GetOr(f.name),
      p.fatherName.GetOr(f.fatherName),
      p.age.GetOr(f.age),
      p.gender.GetOr(f.gender),
      p.category.GetOr(f.category),
      p.mobileNumber.GetOr(f.mobileNumber),
      p.aadharNumber.GetOr(f.aadharNumber),
      p.address.GetOr(f.address),
      p.village.GetOr(f.village),
      p.district.GetOr(f.district),
      p.state.GetOr(f.state),
      p.pincode.GetOr(f.pincode),
      p.latitude.GetOr(f.latitude),
      p.longitude.GetOr(f.longitude),
      p.bankAccountNumber.GetOr(f.bankAccountNumber),
      p.ifscCode.GetOr(f.ifscCode),
      p.language.GetOr(f.language),
      p.isVerified.GetOr(f.isVerified),
      p.createdAt.GetOr(f.createdAt),
      f.updatedAt)
  }

  /** An empty patch changes nothing, and applying a patch twice is
      applying it once. */
  lemma PatchLaws(f: Farmer, p: FarmerPatch)
    ensures ApplyPatch(f, NoChanges) == f
    ensures ApplyPatch(ApplyPatch(f, p), p) == ApplyPatch(f, p)
    ensures ApplyPatch(f, p).id == f.id
  {
  }

  /** The record `updateFarmer` returns: `None` for an unknown id. */
  function UpdatedFarmer(db: Db, id: string, patch: FarmerPatch, now: int): (r: Option<Farmer>)
    ensures r.None? <==> !HasKey(db.farmers, FarmerKey, id)
    ensures r.Some? ==> r.value.id == id && r.value.updatedAt == now
    ensures r.Some? ==> r.value == ApplyPatch(GetFarmer(db, id).value, patch).(updatedAt := now)
  {
    match Get(db.farmers, FarmerKey, id)
    case None => None
    case Some(f) => Some(ApplyPatch(f, patch).(updatedAt := now))
  }

  /** The store after `updateFarmer`: unchanged for an unknown id; otherwise
      only that farmer's record is replaced. */
  function UpdateFarmer(db: Db, id: string, patch: FarmerPatch, now: int): (r: Db)
    ensures !HasKey(db.farmers, FarmerKey, id) ==> r == db
    ensures r == db.(farmers := r.farmers)
    ensures |r.farmers| == |db.farmers|
    ensures GetFarmer(r, id) == UpdatedFarmer(db, id, patch, now)
    ensures forall k :: k != id ==> GetFarmer(r, k) == GetFarmer(db, k)
  {
    match UpdatedFarmer(db, id, patch, now)
    case None => db
    case Some(f) =>
      GetSetSame(db.farmers, FarmerKey, f);
      forall k | k != id ensures Get(Set(db.farmers, FarmerKey, f), FarmerKey, k) == Get(db.farmers, FarmerKey, k) {
        GetSetOther(db.farmers, FarmerKey, f, k);
      }
      db.(farmers := Set(db.farmers, FarmerKey, f))
  }

  // ------------------------------------------------- records a farmer owns

  /** `getLandsByFarmerId`: exactly the stored lands of that farmer, in
      storage order. */
  function LandsOf(db: Db, farmerId: string): (r: seq<Land>)
    ensures forall i :: 0 <= i < |r| ==> r[i] in db.lands && r[i].farmerId == farmerId
    ensures forall i :: 0 <= i < |db.lands| && db.lands[i].farmerId == farmerId ==> db.lands[i] in r
    ensures IsSubsequence(r, db.lands)
  {
    FilterIsSubsequence(db.lands, (l: Land) => l.farmerId == farmerId);
    Filter(db.lands, (l: Land) => l.farmerId == farmerId)
  }

  function CreateLand(db: Db, data: Land, id: string, now: int): (r: Db)
    ensures r == db.(lands := r.lands)
    ensures Get(r.lands, LandKey, id) == Some(data.(id := id, createdAt := now))
    ensures !HasKey(db.lands, LandKey, id) ==> r.lands == db.lands + [data.(id := id, createdAt := now)]
  {
    var land := data.(id := id, createdAt := now);
    GetSetSame(db.lands, LandKey, land);
    db.(lands := Set(db.lands, LandKey, land))
  }

  /** `getCropsByFarmerId`. */
  function CropsOf(db: Db, farmerId: string): (r: seq<Crop>)
    ensures forall i :: 0 <= i < |r| ==> r[i] in db.crops && r[i].farmerId == farmerId
    ensures forall i :: 0 <= i < |db.crops| && db.crops[i].farmerId == farmerId ==> db.crops[i] in r
    ensures IsSubsequence(r, db.crops)
  {
    FilterIsSubsequence(db.crops, (c: Crop) => c.farmerId == farmerId);
    Filter(db.crops, (c: Crop) => c.farmerId == farmerId)
  }

  function CreateCrop(db: Db, data: Crop, id: string, now: int): (r: Db)
    ensures r == db.(crops := r.crops)
    ensures Get(r.crops, CropKey, id) == Some(data.(id := id, createdAt := now))
    ensures !HasKey(db.crops, CropKey, id) ==> r.crops == db.crops + [data.(id := id, createdAt := now)]
  {
    var crop := data.(id := id, createdAt := now);
    GetSetSame(db.crops, CropKey, crop);
    db.(crops := Set(db.crops, CropKey, crop))
  }

  /** `getLivestockByFarmerId`. */
  function LivestockOf(db: Db, farmerId: string): (r: seq<Livestock>)
    ensures forall i :: 0 <= i < |r| ==> r[i] in db.livestock && r[i].farmerId == farmerId
    ensures forall i :: 0 <= i < |db.livestock| && db.livestock[i].farmerId == farmerId ==> db.livestock[i] in r
    ensures IsSubsequence(r, db.livestock)
  {
    FilterIsSubsequence(db.livestock, (a: Livestock) => a.farmerId == farmerId);
    Filter(db.livestock, (a: Livestock) => a.farmerId == farmerId)
  }

  function CreateLivestock(db: Db, data: Livestock, id: string, now: int): (r: Db)
    ensures r == db.(livestock := r.livestock)
    ensures Get(r.livestock, LivestockKey, id) == Some(data.(id := id, createdAt := now))
    ensures !HasKey(db.livestock, LivestockKey, id) ==> r.livestock == db.livestock + [data.(id := id, createdAt := now)]
  {
    var animal := data.(id := id, createdAt := now);
    GetSetSame(db.livestock, LivestockKey, animal);
    db.(livestock := Set(db.livestock, LivestockKey, animal))
  }

  /** `getFarmerWithProfile`: the farmer with the lands, crops and
      livestock it owns; `None` for an unknown id. */
  function ProfileOf(db: Db, id: string): (r: Option<FarmerProfile>)
    ensures r.None? <==> !HasKey(db.farmers, FarmerKey, id)
    ensures r.Some? ==> r.value.farmer.id == id
    ensures r.Some? ==> forall i :: 0 <= i < |r.value.lands| ==> r.value.lands[i].farmerId == id
    ensures r.Some? ==> forall i :: 0 <= i < |r.value.crops| ==> r.value.crops[i].farmerId == id
    ensures r.Some? ==> Some(r.value.farmer) == GetFarmer(db, id)
    ensures r.Some? ==>
      && r.value.lands == LandsOf(db, id)
      && r.value.crops == CropsOf(db, id)
      && r.value.livestock == LivestockOf(db, id)
  {
    match GetFarmer(db, id)
    case None => None
    case Some(f) => Some(FarmerProfile(f, LandsOf(db, id), CropsOf(db, id), LivestockOf(db, id)))
  }

  // -------------------------------------------------------------- schemes

  /** `getSchemes`: the active schemes, in storage order. */
  function GetSchemes(db: Db): (r: seq<Scheme>)
    ensures forall i :: 0 <= i < |r| ==> r[i] in db.schemes && r[i].isActive
    ensures forall i :: 0 <= i < |db.schemes| && db.schemes[i].isActive ==> db.schemes[i] in r
    ensures IsSubsequence(r, db.schemes)
  {
    FilterIsSubsequence(db.schemes, (s: Scheme) => s.isActive);
    Filter(db.schemes, (s: Scheme) => s.isActive)
  }

  function GetScheme(db: Db, id: string): (r: Option<Scheme>)
    ensures r.Some? <==> HasKey(db.schemes, SchemeKey, id)
    ensures r.Some? ==> r.value in db.schemes && r.value.id == id
  {
    Get(db.schemes, SchemeKey, id)
  }

  function CreateScheme(db: Db, data: Scheme, id: string, now: int): (r: Db)
    ensures r == db.(schemes := r.schemes)
    ensures GetScheme(r, id) == Some(data.(id := id, createdAt := now, updatedAt := now))
    ensures !HasKey(db.schemes, SchemeKey, id) ==> r.schemes == db.schemes + [data.(id := id, createdAt := now, updatedAt := now)]
  {
    var s := data.(id := id, createdAt := now, updatedAt := now);
    GetSetSame(db.schemes, SchemeKey, s);
    db.(schemes := Set(db.schemes, SchemeKey, s))
  }

  // --------------------------------------------------------- applications

  /** `getApplicationsByFarmerId`. */
  function ApplicationsOf(db: Db, farmerId: string): (r: seq<Application>)
    ensures forall i :: 0 <= i < |r| ==> r[i] in db.applications && r[i].farmerId == farmerId
    ensures forall i :: 0 <= i < |db.applications| && db.applications[i].farmerId == farmerId ==> db.applications[i] in r
    ensures IsSubsequence(r, db.applications)
  {
    FilterIsSubsequence(db.applications, (a: Application) => a.farmerId == farmerId);
    Filter(db.applications, (a: Application) => a.farmerId == farmerId)
  }

  function CreateApplication(db: Db, data: Application, id: string, now: int): (r: Db)
    ensures r == db.(applications := r.applications)
    ensures Get(r.applications, ApplicationKey, id) == Some(data.(id := id, submittedAt := now))
    ensures !HasKey(db.applications, ApplicationKey, id) ==> r.applications == db.applications + [data.(id := id, submittedAt := now)]
  {
    var a := data.(id := id, submittedAt := now);
    GetSetSame(db.applications, ApplicationKey, a);
    db.(applications := Set(db.applications, ApplicationKey, a))
  }

  // ------------------------------------------------------------ bookmarks

  /** `getBookmarksByFarmerId`. */
  function BookmarksOf(db: Db, farmerId: string): (r: seq<Bookmark>)
    ensures forall i :: 0 <= i < |r| ==> r[i] in db.bookmarks && r[i].farmerId == farmerId
    ensures forall i :: 0 <= i < |db.bookmarks| && db.bookmarks[i].farmerId == farmerId ==> db.bookmarks[i] in r
    ensures IsSubsequence(r, db.bookmarks)
  {
    FilterIsSubsequence(db.bookmarks, (b: Bookmark) => b.farmerId == farmerId);
    Filter(db.bookmarks, (b: Bookmark) => b.farmerId == farmerId)
  }

  function CreateBookmark(db: Db, farmerId: string, schemeId: string, id: string, now: int): (r: Db)
    ensures r == db.(bookmarks := r.bookmarks)
    ensures Get(r.bookmarks, BookmarkKey, id) == Some(Bookmark(id, farmerId, schemeId, now))
    ensures !HasKey(db.bookmarks, BookmarkKey, id) ==> r.bookmarks == db.bookmarks + [Bookmark(id, farmerId, schemeId, now)]
  {
    var b := Bookmark(id, farmerId, schemeId, now);
    GetSetSame(db.bookmarks, BookmarkKey, b);
    db.(bookmarks := Set(db.bookmarks, BookmarkKey, b))
  }

  predicate IsPair(b: Bookmark, farmerId: string, schemeId: string)
  {
    b.farmerId == farmerId && b.schemeId == schemeId
  }

  /** Number of bookmarks for one (farmer, scheme) pair. */
  function PairCount(bs: seq<Bookmark>, farmerId: string, schemeId: string): (n: nat)
    ensures n == 0 <==> forall i :: 0 <= i < |bs| ==> !IsPair(bs[i], farmerId, schemeId)
    ensures n <= |bs|
    decreases |bs|
  {
    if |bs| == 0 then 0
    else (if IsPair(bs[0], farmerId, schemeId) then 1 else 0) + PairCount(bs[1..], farmerId, schemeId)
  }

  lemma {:induction false} PairCountConcat(a: seq<Bookmark>, b: seq<Bookmark>, f: string, s: string)
    ensures PairCount(a + b, f, s) == PairCount(a, f, s) + PairCount(b, f, s)
    decreases |a|
  {
    if |a| == 0 {
      assert a + b == b;
    } else {
      assert (a + b)[1..] == a[1..] + b;
      PairCountConcat(a[1..], b, f, s);
    }
  }

  /** Removing one element lowers the count of its own pair by one and no
      other pair's count. */
  lemma PairCountRemoveAt(bs: seq<Bookmark>, i: nat)
    requires i < |bs|
    ensures forall f, s ::
              PairCount(RemoveAt(bs, i), f, s) == PairCount(bs, f, s) - (if IsPair(bs[i], f, s) then 1 else 0)
  {
    forall f, s
      ensures PairCount(RemoveAt(bs, i), f, s) == PairCount(bs, f, s) - (if IsPair(bs[i], f, s) then 1 else 0)
    {
      assert bs == bs[..i] + [bs[i]] + bs[i + 1..];
      PairCountConcat(bs[..i] + [bs[i]], bs[i + 1..], f, s);
      PairCountConcat(bs[..i], [bs[i]], f, s);
      PairCountConcat(bs[..i], bs[i + 1..], f, s);
    }
  }

  /** `deleteBookmark`: removes the first bookmark of the pair, if there is
      one; a no-op otherwise. */
  function DeleteBookmark(db: Db, farmerId: string, schemeId: string): (r: Db)
    ensures r == db.(bookmarks := r.bookmarks)
    ensures PairCount(db.bookmarks, farmerId, schemeId) == 0 ==> r == db
    ensures PairCount(db.bookmarks, farmerId, schemeId) > 0 ==>
      PairCount(r.bookmarks, farmerId, schemeId) == PairCount(db.bookmarks, farmerId, schemeId) - 1 &&
      |r.bookmarks| == |db.bookmarks| - 1
    ensures forall f, s :: !(f == farmerId && s == schemeId) ==>
      PairCount(r.bookmarks, f, s) == PairCount(db.bookmarks, f, s)
    ensures PairCount(db.bookmarks, farmerId, schemeId) > 0 ==>
      exists i :: && 0 <= i < |db.bookmarks|
                  && IsPair(db.bookmarks[i], farmerId, schemeId)
                  && (forall j :: 0 <= j < i ==> !IsPair(db.bookmarks[j], farmerId, schemeId))
                  && r.bookmarks == RemoveAt(db.bookmarks, i)
  {
    match FirstIndex(db.bookmarks, (b: Bookmark) => IsPair(b, farmerId, schemeId))
    case None => db
    case Some(i) =>
      PairCountRemoveAt(db.bookmarks, i);
      db.(bookmarks := RemoveAt(db.bookmarks, i))
  }

  /** The bookmarks of every pair other than (farmerId, schemeId). */
  function OtherPairs(farmerId: string, schemeId: string): Bookmark -> bool
  {
    (b: Bookmark) => !IsPair(b, farmerId, schemeId)
  }

  /** `deleteBookmark` of the database-backed storage: one `DELETE` of the
      rows matching both the farmer and the scheme, so every bookmark of
      the pair goes and every other bookmark stays, in order. */
  function DeleteAllBookmarks(db: Db, farmerId: string, schemeId: string): (r: Db)
    ensures r == db.(bookmarks := r.bookmarks)
    ensures PairCount(r.bookmarks, farmerId, schemeId) == 0
    ensures |r.bookmarks| == |db.bookmarks| - PairCount(db.bookmarks, farmerId, schemeId)
    ensures forall f, s :: !(f == farmerId && s == schemeId) ==>
      PairCount(r.bookmarks, f, s) == PairCount(db.bookmarks, f, s)
    ensures IsSubsequence(r.bookmarks, db.bookmarks)
    ensures forall i :: 0 <= i < |db.bookmarks| && !IsPair(db.bookmarks[i], farmerId, schemeId) ==>
      db.bookmarks[i] in r.bookmarks
    ensures PairCount(db.bookmarks, farmerId, schemeId) == 0 ==> r == db
  {
    DropPairCounts(db.bookmarks, farmerId, schemeId);
    FilterIsSubsequence(db.bookmarks, OtherPairs(farmerId, schemeId));
    db.(bookmarks := Filter(db.bookmarks, OtherPairs(farmerId, schemeId)))
  }

  /** Dropping a pair's bookmarks zeroes its count, shortens the table by
      that count and leaves every other pair's count as it was. */
  lemma {:induction false} DropPairCounts(bs: seq<Bookmark>, farmerId: string, schemeId: string)
    ensures |Filter(bs, OtherPairs(farmerId, schemeId))| == |bs| - PairCount(bs, farmerId, schemeId)
    ensures forall f, s :: PairCount(Filter(bs, OtherPairs(farmerId, schemeId)), f, s) ==
                          (if f == farmerId && s == schemeId then 0 else PairCount(bs, f, s))
    ensures PairCount(bs, farmerId, schemeId) == 0 ==> Filter(bs, OtherPairs(farmerId, schemeId)) == bs
    decreases |bs|
  {
    if PairCount(bs, farmerId, schemeId) == 0 {
      FilterAll(bs, OtherPairs(farmerId, schemeId));
    }
    if |bs| > 0 {
      var keep := OtherPairs(farmerId, schemeId);
      DropPairCounts(bs[1..], farmerId, schemeId);
      var rest := Filter(bs[1..], keep);
      if keep(bs[0]) {
        assert Filter(bs, keep) == [bs[0]] + rest;
        forall f, s
          ensures PairCount(Filter(bs, keep), f, s) == (if f == farmerId && s == schemeId then 0 else PairCount(bs, f, s))
        {
          PairCountConcat([bs[0]], rest, f, s);
        }
      } else {
        assert Filter(bs, keep) == rest;
      }
    }
  }

  /** Adding the same pair twice and deleting it once leaves one more
      bookmark of that pair than before. */
  lemma AddTwiceDeleteOnce(db: Db, f: string, s: string, id1: string, id2: string, t1: int, t2: int)
    requires id1 != id2
    requires !HasKey(db.bookmarks, BookmarkKey, id1) && !HasKey(db.bookmarks, BookmarkKey, id2)
    ensures var db' := DeleteBookmark(CreateBookmark(CreateBookmark(db, f, s, id1, t1), f, s, id2, t2), f, s);
            PairCount(db'.bookmarks, f, s) == PairCount(db.bookmarks, f, s) + 1
  {
    var b1 := Bookmark(id1, f, s, t1);
    var b2 := Bookmark(id2, f, s, t2);
    var db1 := CreateBookmark(db, f, s, id1, t1);
    assert db1.bookmarks == db.bookmarks + [b1];
    assert !HasKey(db1.bookmarks, BookmarkKey, id2) by {
      forall i | 0 <= i < |db1.bookmarks| ensures BookmarkKey(db1.bookmarks[i]) != id2 {
        if i < |db.bookmarks| {
          assert db1.bookmarks[i] == db.bookmarks[i];
        }
      }
    }
    var db2 := CreateBookmark(db1, f, s, id2, t2);
    assert db2.bookmarks == db.bookmarks + [b1] + [b2];
    PairCountConcat(db.bookmarks + [b1], [b2], f, s);
    PairCountConcat(db.bookmarks, [b1], f, s);
  }

  /** Adding a bookmark for a pair that had none and then deleting that
      pair leaves none. */
  lemma AddThenRemoveLeavesNone(db: Db, f: string, s: string, id: string, t: int)
    requires !HasKey(db.bookmarks, BookmarkKey, id)
    requires PairCount(db.bookmarks, f, s) == 0
    ensures PairCount(DeleteBookmark(CreateBookmark(db, f, s, id, t), f, s).bookmarks, f, s) == 0
  {
    var db1 := CreateBookmark(db, f, s, id, t);
    PairCountConcat(db.bookmarks, [Bookmark(id, f, s, t)], f, s);
    assert PairCount(db1.bookmarks, f, s) == 1;
  }

  // -------------------------------------------------------- notifications

  /** `getNotificationsByFarmerId`: that farmer's notifications, newest
      first; equal timestamps keep storage order. */
  function NotificationsOf(db: Db, farmerId: string): (r: seq<Notification>)
    ensures forall i :: 0 <= i < |r| ==> r[i] in db.notifications && r[i].farmerId == farmerId
    ensures forall i :: 0 <= i < |db.notifications| && db.notifications[i].farmerId == farmerId ==> db.notifications[i] in r
    ensures forall i, j :: 0 <= i < j < |r| ==> r[i].createdAt >= r[j].createdAt
    ensures multiset(r) == multiset(Filter(db.notifications, (n: Notification) => n.farmerId == farmerId))
    ensures forall t :: (Sorting.Bucket(r, NotificationTime, t) ==
                         Sorting.Bucket(Filter(db.notifications, (n: Notification) => n.farmerId == farmerId), NotificationTime, t))
  {
    var mine := Filter(db.notifications, (n: Notification) => n.farmerId == farmerId);
    var r := Sorting.SortDesc(mine, NotificationTime);
    assert forall x :: x in r <==> x in mine by {
      forall x ensures x in r <==> x in mine {
        assert x in r <==> x in multiset(r);
        assert x in mine <==> x in multiset(mine);
      }
    }
    forall x | x in mine ensures x in db.notifications && x.farmerId == farmerId {
      var i :| 0 <= i < |mine| && mine[i] == x;
    }
    r
  }

  function CreateNotification(db: Db, data: Notification, id: string, now: int): (r: Db)
    ensures r == db.(notifications := r.notifications)
    ensures Get(r.notifications, NotificationKey, id) == Some(data.(id := id, createdAt := now))
    ensures !HasKey(db.notifications, NotificationKey, id) ==>
      r.notifications == db.notifications + [data.(id := id, createdAt := now)]
  {
    var n := data.(id := id, createdAt := now);
    GetSetSame(db.notifications, NotificationKey, n);
    db.(notifications := Set(db.notifications, NotificationKey, n))
  }

  /** `markNotificationAsRead`: sets `isRead` on the notification with that
      id and changes nothing else; a no-op for an unknown id. */
  function MarkNotificationAsRead(db: Db, id: string): (r: Db)
    ensures r == db.(notifications := r.notifications)
    ensures !HasKey(db.notifications, NotificationKey, id) ==> r == db
    ensures |r.notifications| == |db.notifications|
    ensures forall i :: 0 <= i < |db.notifications| && db.notifications[i].id != id ==>
      r.notifications[i] == db.notifications[i]
    ensures UniqueKeys(db.notifications, NotificationKey) ==>
      forall i :: 0 <= i < |db.notifications| && db.notifications[i].id == id ==>
        r.notifications[i] == db.notifications[i].(isRead := true)
  {
    match Get(db.notifications, NotificationKey, id)
    case None => db
    case Some(n) =>
      var ns := db.notifications;
      var r := Set(ns, NotificationKey, n.(isRead := true));
      assert UniqueKeys(ns, NotificationKey) ==>
        forall i :: 0 <= i < |ns| && ns[i].id == id ==> ns[i] == n;
      db.(notifications := r)
  }

  /** `markAllNotificationsAsRead`: every notification of the farmer is
      rewritten with `isRead` set, one `set` at a time; all others stay as
      they were. */
  method MarkAllNotificationsAsRead(db: Db, farmerId: string) returns (r: Db)
    requires UniqueKeys(db.notifications, NotificationKey)
    ensures r == db.(notifications := r.notifications)
    ensures |r.notifications| == |db.notifications|
    ensures forall i :: 0 <= i < |db.notifications| ==>
      r.notifications[i] == if db.notifications[i].farmerId == farmerId
                            then db.notifications[i].(isRead := true)
                            else db.notifications[i]
  {
    var all := db.notifications;
    var mine := OwnedBy(all, farmerId);
    var ns := all;
    var k := 0;
    while k < |mine|
      invariant 0 <= k <= |mine|
      invariant MarkedUpTo(all, ns, mine[..k])
    {
      MarkNext(all, ns, mine, k);
      ns := Set(ns, NotificationKey, mine[k].(isRead := true));
      k := k + 1;
    }
    assert mine[..|mine|] == mine;
    MarkedOwnNotifications(all, ns, mine, farmerId);
    r := db.(notifications := ns);
  }

  /** The notifications of one farmer, in stored order. */
  function OwnedBy(all: seq<Notification>, farmerId: string): (r: seq<Notification>)
    ensures forall i :: 0 <= i < |r| ==> r[i] in all && r[i].farmerId == farmerId
    ensures forall i :: 0 <= i < |all| && all[i].farmerId == farmerId ==> all[i] in r
  {
    Filter(all, (n: Notification) => n.farmerId == farmerId)
  }

  /** Once every notification of the farmer is marked, exactly the
      farmer's notifications are read copies. */
  lemma MarkedOwnNotifications(all: seq<Notification>, ns: seq<Notification>, mine: seq<Notification>, farmerId: string)
    requires MarkedUpTo(all, ns, mine)
    requires forall i :: 0 <= i < |mine| ==> mine[i].farmerId == farmerId
    requires forall i :: 0 <= i < |all| && all[i].farmerId == farmerId ==> all[i] in mine
    ensures |ns| == |all|
    ensures forall i :: 0 <= i < |all| ==>
      ns[i] == if all[i].farmerId == farmerId then all[i].(isRead := true) else all[i]
  {
    forall i | 0 <= i < |all|
      ensures ns[i] == if all[i].farmerId == farmerId then all[i].(isRead := true) else all[i]
    {
      if all[i] in mine {
        var k :| 0 <= k < |mine| && mine[k] == all[i];
      }
    }
  }

  /** `ns` is `all` with exactly the notifications listed in `done` marked
      read. */
  ghost predicate MarkedUpTo(all: seq<Notification>, ns: seq<Notification>, done: seq<Notification>)
  {
    && |ns| == |all|
    && forall i :: 0 <= i < |all| ==> ns[i] == if all[i] in done then all[i].(isRead := true) else all[i]
  }

  /** The loop step: marking the `k`-th of the farmer's notifications. */
  lemma MarkNext(all: seq<Notification>, ns: seq<Notification>, mine: seq<Notification>, k: nat)
    requires UniqueKeys(all, NotificationKey)
    requires k < |mine| && mine[k] in all
    requires MarkedUpTo(all, ns, mine[..k])
    ensures MarkedUpTo(all, Set(ns, NotificationKey, mine[k].(isRead := true)), mine[..k + 1])
  {
    MarkStep(all, ns, mine[..k], mine[k]);
    assert mine[..k + 1] == mine[..k] + [mine[k]];
  }

  /** One iteration of `markAllNotificationsAsRead`: setting the read copy
      of a stored notification extends the marked set by that one. */
  lemma MarkStep(all: seq<Notification>, ns: seq<Notification>, done: seq<Notification>, m: Notification)
    requires UniqueKeys(all, NotificationKey)
    requires m in all
    requires MarkedUpTo(all, ns, done)
    ensures MarkedUpTo(all, Set(ns, NotificationKey, m.(isRead := true)), done + [m])
  {
    var j :| 0 <= j < |all| && all[j] == m;
    assert ns[j].id == m.id;
    assert HasKey(ns, NotificationKey, m.id);
    var ns' := Set(ns, NotificationKey, m.(isRead := true));
    forall i | 0 <= i < |all|
      ensures ns'[i] == if all[i] in done + [m] then all[i].(isRead := true) else all[i]
    {
      assert ns[i].id == all[i].id;
      if all[i].id == m.id {
        assert i == j;
      } else {
        assert all[i] != m;
      }
    }
  }

  // ---------------------------------------------------------------- stats

  datatype Stats = Stats(activeSchemes: nat, totalBenefits: real, totalLandArea: real, activeCrops: nat)

  predicate IsActiveStatus(status: string)
  {
    status == "pending" || status == "approved"
  }

  /** `reduce((sum, app) => sum + (app.benefitReceived || 0), 0)`. */
  function SumBenefits(apps: seq<Application>): (r: real)
    ensures (forall i :: 0 <= i < |apps| ==> apps[i].benefitReceived.None?) ==> r == 0.0
    ensures (forall i :: 0 <= i < |apps| ==> apps[i].benefitReceived.GetOr(0.0) >= 0.0) ==> r >= 0.0
    decreases |apps|
  {
    if |apps| == 0 then 0.0
    else SumBenefits(apps[..|apps| - 1]) + apps[|apps| - 1].benefitReceived.GetOr(0.0)
  }

  /** The farmer owns no applications, lands or crops. */
  predicate OwnsNothing(db: Db, farmerId: string)
  {
    && (forall i :: 0 <= i < |db.applications| ==> db.applications[i].farmerId != farmerId)
    && (forall i :: 0 <= i < |db.lands| ==> db.lands[i].farmerId != farmerId)
    && (forall i :: 0 <= i < |db.crops| ==> db.crops[i].farmerId != farmerId)
  }

  /** `getFarmerStats`: pending/approved applications, benefits received on
      completed ones, total land area, and crops of the current year. */
  function FarmerStats(db: Db, farmerId: string, currentYear: int): (r: Stats)
    ensures OwnsNothing(db, farmerId) ==> r == Stats(0, 0.0, 0.0, 0)
    ensures r.activeSchemes <= |ApplicationsOf(db, farmerId)|
    ensures r.activeCrops <= |CropsOf(db, farmerId)|
    ensures r.activeSchemes == 0 <==>
      forall i :: 0 <= i < |db.applications| && db.applications[i].farmerId == farmerId ==>
        !IsActiveStatus(db.applications[i].status)
    ensures r.activeCrops == 0 <==>
      forall i :: 0 <= i < |db.crops| && db.crops[i].farmerId == farmerId ==> db.crops[i].year != currentYear
  {
    var apps := ApplicationsOf(db, farmerId);
    var lands := LandsOf(db, farmerId);
    var crops := CropsOf(db, farmerId);
    assert OwnsNothing(db, farmerId) ==> apps == [] && lands == [] && crops == [];
    FilterTwiceEmpty(db.applications, (a: Application) => a.farmerId == farmerId, (a: Application) => IsActiveStatus(a.status));
    FilterTwiceEmpty(db.crops, (c: Crop) => c.farmerId == farmerId, (c: Crop) => c.year == currentYear);
    Stats(
      |Filter(apps, (a: Application) => IsActiveStatus(a.status))|,
      SumBenefits(Filter(apps, (a: Application) => a.status == "completed")),
      TotalArea(lands),
      |Filter(crops, (c: Crop) => c.year == currentYear)|)
  }

  /** Storing a new application moves its owner's statistics by exactly its
      own contribution: one active scheme when it is pending or approved,
      its benefit (or nothing) when it is completed. Land area and crops do
      not move, nor does any other farmer's statistic. */
  lemma CreateApplicationStats(db: Db, data: Application, id: string, now: int, farmerId: string, year: int)
    requires !HasKey(db.applications, ApplicationKey, id)
    ensures var before := FarmerStats(db, farmerId, year);
            var after := FarmerStats(CreateApplication(db, data, id, now), farmerId, year);
            var own := data.farmerId == farmerId;
            && after.activeSchemes == before.activeSchemes + (if own && IsActiveStatus(data.status) then 1 else 0)
            && after.totalBenefits == before.totalBenefits
                 + (if own && data.status == "completed" then data.benefitReceived.GetOr(0.0) else 0.0)
            && after.totalLandArea == before.totalLandArea
            && after.activeCrops == before.activeCrops
  {
    var a := data.(id := id, submittedAt := now);
    assert CreateApplication(db, data, id, now).applications == db.applications + [a];
    ActiveAfterAppend(db.applications, a, farmerId);
    BenefitsAfterAppend(db.applications, a, farmerId);
  }

  /** Appending one application changes the farmer's count of pending or
      approved applications by that application alone. */
  lemma ActiveAfterAppend(apps: seq<Application>, a: Application, farmerId: string)
    ensures var p := (x: Application) => x.farmerId == farmerId;
            var q := (x: Application) => IsActiveStatus(x.status);
            |Filter(Filter(apps + [a], p), q)| ==
              |Filter(Filter(apps, p), q)| + (if a.farmerId == farmerId && IsActiveStatus(a.status) then 1 else 0)
  {
    var p := (x: Application) => x.farmerId == farmerId;
    var q := (x: Application) => IsActiveStatus(x.status);
    FilterConcat(apps, [a], p);
    var mine := Filter(apps, p);
    if p(a) {
      assert Filter([a], p) == [a];
      FilterConcat(mine, [a], q);
      if q(a) {
        assert Filter([a], q) == [a];
      } else {
        assert Filter([a], q) == [];
      }
    } else {
      assert Filter([a], p) == [];
      assert mine + [] == mine;
    }
  }

  /** Appending one application changes the farmer's benefits on completed
      applications by that application's benefit alone. */
  lemma BenefitsAfterAppend(apps: seq<Application>, a: Application, farmerId: string)
    ensures var p := (x: Application) => x.farmerId == farmerId;
            var c := (x: Application) => x.status == "completed";
            SumBenefits(Filter(Filter(apps + [a], p), c)) ==
              SumBenefits(Filter(Filter(apps, p), c))
                + (if a.farmerId == farmerId && a.status == "completed" then a.benefitReceived.GetOr(0.0) else 0.0)
  {
    var p := (x: Application) => x.farmerId == farmerId;
    var c := (x: Application) => x.status == "completed";
    FilterConcat(apps, [a], p);
    var mine := Filter(apps, p);
    if p(a) {
      assert Filter([a], p) == [a];
      FilterConcat(mine, [a], c);
      var done := Filter(mine, c);
      if c(a) {
        assert Filter([a], c) == [a];
        assert (done + [a])[..|done|] == done;
      } else {
        assert Filter([a], c) == [];
        assert done + [] == done;
      }
    } else {
      assert Filter([a], p) == [];
      assert mine + [] == mine;
    }
  }

  /** Storing a new crop adds one active crop to its owner exactly when it
      is of the current year, and moves nothing else. */
  lemma CreateCropStats(db: Db, data: Crop, id: string, now: int, farmerId: string, year: int)
    requires !HasKey(db.crops, CropKey, id)
    ensures var before := FarmerStats(db, farmerId, year);
            var after := FarmerStats(CreateCrop(db, data, id, now), farmerId, year);
            && after.activeCrops == before.activeCrops
                 + (if data.farmerId == farmerId && data.year == year then 1 else 0)
            && after.activeSchemes == before.activeSchemes
            && after.totalBenefits == before.totalBenefits
            && after.totalLandArea == before.totalLandArea
  {
    var crop := data.(id := id, createdAt := now);
    var db' := CreateCrop(db, data, id, now);
    assert db'.crops == db.crops + [crop];
    var p := (x: Crop) => x.farmerId == farmerId;
    var y := (x: Crop) => x.year == year;
    FilterConcat(db.crops, [crop], p);
    var mine := Filter(db.crops, p);
    if data.farmerId == farmerId {
      assert Filter([crop], p) == [crop];
      FilterConcat(mine, [crop], y);
      if y(crop) {
        assert Filter([crop], y) == [crop];
      } else {
        assert Filter([crop], y) == [];
      }
    } else {
      assert Filter([crop], p) == [];
      assert mine + [] == mine;
    }
  }

  /** Storing a new land adds its area to its owner's total and changes no
      other statistic of any farmer. */
  lemma CreateLandAddsArea(db: Db, data: Land, id: string, now: int, farmerId: string, year: int)
    requires !HasKey(db.lands, LandKey, id)
    ensures var before := FarmerStats(db, farmerId, year);
            var after := FarmerStats(CreateLand(db, data, id, now), farmerId, year);
            && after.totalLandArea == before.totalLandArea + (if data.farmerId == farmerId then data.area else 0.0)
            && after.activeSchemes == before.activeSchemes
            && after.totalBenefits == before.totalBenefits
            && after.activeCrops == before.activeCrops
  {
    var land := data.(id := id, createdAt := now);
    var db' := CreateLand(db, data, id, now);
    assert db'.lands == db.lands + [land];
    var p := (l: Land) => l.farmerId == farmerId;
    FilterConcat(db.lands, [land], p);
    var mine := Filter(db.lands, p);
    if data.farmerId == farmerId {
      assert Filter([land], p) == [land];
      assert (mine + [land])[..|mine|] == mine;
    } else {
      assert Filter([land], p) == [];
      assert mine + [] == mine;
    }
  }

  /** Storing a new pending or approved application of a farmer counts one
      more active scheme for that farmer. */
  lemma CreateApplicationCountsActive(db: Db, data: Application, id: string, now: int, year: int)
    requires !HasKey(db.applications, ApplicationKey, id)
    requires IsActiveStatus(data.status)
    ensures FarmerStats(CreateApplication(db, data, id, now), data.farmerId, year).activeSchemes
         == FarmerStats(db, data.farmerId, year).activeSchemes + 1
  {
    var a := data.(id := id, submittedAt := now);
    var db' := CreateApplication(db, data, id, now);
    assert db'.applications == db.applications + [a];
    var p := (x: Application) => x.farmerId == data.farmerId;
    var q := (x: Application) => IsActiveStatus(x.status);
    FilterConcat(db.applications, [a], p);
    assert Filter([a], p) == [a];
    FilterConcat(Filter(db.applications, p), [a], q);
    assert Filter([a], q) == [a];
  }
}
