/**
 * The hook that lists a new parking spot: the storage path of its image,
 * the row inserted into the spots table, and the loading flag around the
 * upload and the insert. The storage upload and the insert are parameters.
 */
module AddParkingSpot {
  import opened Maybe
  import opened Text

  /** What the add-spot form hands over. */
  datatype NewParkingSpot = NewParkingSpot(
    name: string, address: string, city: string, description: Option<string>,
    price: real, total: int, available: int, lat: real, lng: real, amenities: seq<string>)

  /** A chosen image file: its name and its size in bytes. */
  datatype ImageFile = ImageFile(name: string, size: nat)

  /** The row inserted into the spots table. */
  datatype SpotInsert = SpotInsert(
    name: string, address: string, city: string, description: Option<string>,
    price: real, total: int, available: int, lat: real, lng: real, amenities: seq<string>,
    imageUrl: Option<string>, userId: string, status: string, rating: real)

  /** Every listed spot is approved at once and starts with this rating. */
  const InitialStatus: string := "approved"
  const InitialRating: real := 4.0

  /** `file.name.split('.').pop()`. */
  function FileExt(name: string): string {
    AfterLast(name, '.')
  }

  /** `${userId}/${stamp}.${fileExt}`. */
  function PathOf(userId: string, stamp: string, file: ImageFile): string {
    userId + "/" + stamp + "." + FileExt(file.name)
  }

  /** The storage path of an image uploaded at `Date.now() == now`. */
  function UploadPath(userId: string, now: nat, file: ImageFile): string {
    PathOf(userId, Decimal(now), file)
  }

  /** The text after the last separator of `prefix + [sep] + t`, when `t` has none, is `t`. */
  lemma {:induction false} AfterLastAppend(prefix: string, sep: char, t: string)
    requires sep !in t
    ensures AfterLast(prefix + [sep] + t, sep) == t
  {
    if t == [] {
      assert (prefix + [sep] + t)[|prefix + [sep] + t| - 1] == sep;
    } else {
      var s := prefix + [sep] + t;
      assert s[..|s| - 1] == prefix + [sep] + t[..|t| - 1];
      assert s[|s| - 1] == t[|t| - 1];
      AfterLastAppend(prefix, sep, t[..|t| - 1]);
      assert t[..|t| - 1] + [t[|t| - 1]] == t;
    }
  }

  /**
   * The extension has no dot and ends the file name (it is the whole name
   * when there is no dot); the path starts with the user's folder, and its
   * text after the last dot is the file's extension again.
   */
  lemma UploadPathSpec(userId: string, now: nat, file: ImageFile)
    ensures '.' !in FileExt(file.name)
    ensures file.name[|file.name| - |FileExt(file.name)|..] == FileExt(file.name)
    ensures '.' !in file.name ==> FileExt(file.name) == file.name
    ensures UploadPath(userId, now, file)[..|userId| + 1] == userId + "/"
    ensures AfterLast(UploadPath(userId, now, file), '.') == FileExt(file.name)
  {
    PathOfSpec(userId, Decimal(now), file);
  }

  /** The same facts for any text written between the folder and the extension. */
  lemma PathOfSpec(userId: string, stamp: string, file: ImageFile)
    ensures PathOf(userId, stamp, file)[..|userId| + 1] == userId + "/"
    ensures AfterLast(PathOf(userId, stamp, file), '.') == FileExt(file.name)
  {
    TakeFront(userId + "/", stamp, ".", FileExt(file.name));
    AfterLastAppend(userId + "/" + stamp, '.', FileExt(file.name));
  }

  /** The front of a four-part concatenation, cut at the first part's length, is that part. */
  lemma TakeFront(a: string, b: string, c: string, d: string)
    ensures (a + b + c + d)[..|a|] == a
  {
  }

  /** `spot.description || null`: an empty description is stored as null. */
  function StoredDescription(description: Option<string>): Option<string> {
    match description
    case Some(d) => if d == "" then None else Some(d)
    case None => None
  }

  /** The insert of `addParkingSpot` for user `userId` with an uploaded image's URL, if any. */
  function InsertRow(spot: NewParkingSpot, imageUrl: Option<string>, userId: string): SpotInsert {
    SpotInsert(spot.name, spot.address, spot.city, StoredDescription(spot.description),
               spot.price, spot.total, spot.available, spot.lat, spot.lng, spot.amenities,
               imageUrl, userId, InitialStatus, InitialRating)
  }

  /**
   * The row is approved, rated 4.0 and owned by the user; its description is
   * null exactly when none or an empty one was given; the form's fields and
   * the image URL are passed through.
   */
  lemma InsertRowSpec(spot: NewParkingSpot, imageUrl: Option<string>, userId: string)
    ensures var row := InsertRow(spot, imageUrl, userId);
      row.status == "approved" && row.rating == 4.0 && row.userId == userId &&
      (row.description.None? <==> spot.description.None? || spot.description == Some("")) &&
      (row.description.Some? ==> row.description == spot.description) &&
      row.imageUrl == imageUrl && row.name == spot.name && row.price == spot.price &&
      row.address == spot.address && row.city == spot.city && row.lat == spot.lat && row.lng == spot.lng &&
      row.total == spot.total && row.available == spot.available && row.amenities == spot.amenities
  {
  }

  /**
   * `uploadImage(file)` at time `now`: null when signed out, the failure when
   * the storage refuses the file, otherwise the file's public URL.
   */
  function UploadImage(user: Option<string>, file: ImageFile, now: nat,
                       upload: string -> Result<string, string>): Result<Option<string>, string> {
    match user
    case None => Success(None)
    case Some(uid) =>
      match upload(UploadPath(uid, now, file))
      case Failure(_) => Failure("Failed to upload image")
      case Success(url) => Success(Some(url))
  }

  /** The image URL stored with the spot: the upload's outcome, or null when no file was chosen. */
  function ImageUrl(uid: string, imageFile: Option<ImageFile>, now: nat,
                    upload: string -> Result<string, string>): Result<Option<string>, string> {
    if imageFile.Some? then UploadImage(Some(uid), imageFile.value, now, upload) else Success(None)
  }

  /** The insert's outcome: the row when the database accepts it, else null. */
  function Inserted(row: SpotInsert, insert: SpotInsert -> bool): Option<SpotInsert> {
    if insert(row) then Some(row) else None
  }

  /**
   * What `addParkingSpot` returns: null when signed out; null when the image
   * upload or the insert fails; otherwise the inserted row, with the image's
   * URL or null when no file was given.
   */
  function AddResult(user: Option<string>, spot: NewParkingSpot, imageFile: Option<ImageFile>, now: nat,
                     upload: string -> Result<string, string>, insert: SpotInsert -> bool): Option<SpotInsert> {
    match user
    case None => None
    case Some(uid) =>
      match ImageUrl(uid, imageFile, now, upload)
      case Failure(_) => None
      case Success(url) => Inserted(InsertRow(spot, url, uid), insert)
  }

  /**
   * Signed out, nothing is added and no upload or insert is made; without an
   * image the inserted row has no image URL; with an image that uploads, the
   * row carries its URL; an added row always belongs to the signed-in user.
   */
  lemma AddResultSpec(user: Option<string>, spot: NewParkingSpot, imageFile: Option<ImageFile>, now: nat,
                      upload: string -> Result<string, string>, insert: SpotInsert -> bool)
    ensures user.None? ==> AddResult(user, spot, imageFile, now, upload, insert).None?
    ensures user.Some? && imageFile.None? ==>
      AddResult(user, spot, imageFile, now, upload, insert) ==
        (if insert(InsertRow(spot, None, user.value)) then Some(InsertRow(spot, None, user.value)) else None)
    ensures user.Some? && imageFile.Some? && upload(UploadPath(user.value, now, imageFile.value)).Failure? ==>
      AddResult(user, spot, imageFile, now, upload, insert).None?
    ensures user.Some? && imageFile.Some? && upload(UploadPath(user.value, now, imageFile.value)).Success? ==>
      var url := upload(UploadPath(user.value, now, imageFile.value)).value;
      AddResult(user, spot, imageFile, now, upload, insert) ==
        (if insert(InsertRow(spot, Some(url), user.value)) then Some(InsertRow(spot, Some(url), user.value)) else None)
    ensures AddResult(user, spot, imageFile, now, upload, insert).Some? ==>
      user.Some? && AddResult(user, spot, imageFile, now, upload, insert).value.userId == user.value
  {
    if user.Some? {
      var uid := user.value;
      var image := ImageUrl(uid, imageFile, now, upload);
      if imageFile.Some? {
        var reply := upload(UploadPath(uid, now, imageFile.value));
        assert image == (if reply.Failure? then Failure("Failed to upload image") else Success(Some(reply.value)));
      }
      if image.Success? {
        assert AddResult(user, spot, imageFile, now, upload, insert) == Inserted(InsertRow(spot, image.value, uid), insert);
      }
    }
  }

  /** `useAddParkingSpot`: the loading flag around an add. */
  class AddSpotHook {
    var isLoading: bool

    constructor ()
      ensures !isLoading
    {
      isLoading := false;
    }

    /** `addParkingSpot`: loading is not touched when signed out and is false after success or failure. */
    method Add(user: Option<string>, spot: NewParkingSpot, imageFile: Option<ImageFile>, now: nat,
               upload: string -> Result<string, string>, insert: SpotInsert -> bool) returns (added: Option<SpotInsert>)
      modifies this
      ensures added == AddResult(user, spot, imageFile, now, upload, insert)
      ensures user.None? ==> isLoading == old(isLoading)
      ensures user.Some? ==> !isLoading
    {
      if user.None? {
        return None;
      }
      isLoading := true;
      var image := ImageUrl(user.value, imageFile, now, upload);
      if image.Failure? {
        added := None;
      } else {
        added := Inserted(InsertRow(spot, image.value, user.value), insert);
      }
      isLoading := false;
    }
  }
}
