/**
 * Request sequences run against a fresh store: what the contracts of the
 * store and the upload handler let a client conclude. The first five
 * follow the intent of the server's test suite, read against the
 * handler's `data` payload; IdsNotReused, DeleteWithTrailingText
 * and StatsAfterOneUpload are this model's own.
 */
module Scenarios {
  import opened Wrappers
  import opened JsParse
  import opened Store
  import opened Upload
  import opened Stats

  /** A JPEG within the limit is stored under id 1, with its size and dimensions in range. */
  method UploadValidImage(buffer: seq<Byte>, u: real, v: real, at: string)
    returns (r: Result<PublicView, UploadError>, count: nat)
    requires |buffer| <= MaxFileSize
    requires 0.0 <= u < 1.0 && 0.0 <= v < 1.0
    ensures r.Success?
    ensures r.value.id == 1 && r.value.filename == "test.jpg" && r.value.size == |buffer|
    ensures r.value.dimensions.Some?
    ensures 400 <= r.value.dimensions.value.width <= 1199
    ensures 300 <= r.value.dimensions.value.height <= 899
    ensures count == 1
  {
    var store := new ImageStore();
    r := UploadImage(store, Some(UploadedFile("test.jpg", "image/jpeg", buffer)), u, v, at);
    count := store.GetCount();
  }

  /** A text/plain file is refused as an unsupported type and nothing is stored. */
  method RejectNonImage(buffer: seq<Byte>, u: real, v: real, at: string)
    returns (r: Result<PublicView, UploadError>, count: nat)
    requires 0.0 <= u < 1.0 && 0.0 <= v < 1.0
    ensures r == Failure(UnsupportedType) && count == 0
  {
    var store := new ImageStore();
    r := UploadImage(store, Some(UploadedFile("test.txt", "text/plain", buffer)), u, v, at);
    count := store.GetCount();
  }

  /** A request without a file part is refused and nothing is stored. */
  method RejectMissingFile(u: real, v: real, at: string)
    returns (r: Result<PublicView, UploadError>, count: nat)
    requires 0.0 <= u < 1.0 && 0.0 <= v < 1.0
    ensures r == Failure(MissingFile) && count == 0
  {
    var store := new ImageStore();
    r := UploadImage(store, None, u, v, at);
    count := store.GetCount();
  }

  /**
   * Upload, then delete by the id rendered as a path parameter: the delete
   * finds the record, and a later fetch of the same id finds nothing.
   */
  method UploadThenDelete(buffer: seq<Byte>, u: real, v: real, at: string)
    returns (deleted: Option<ImageRecord>, fetched: Option<ImageRecord>, count: nat)
    requires |buffer| <= MaxFileSize
    requires 0.0 <= u < 1.0 && 0.0 <= v < 1.0
    ensures deleted.Some? && deleted.value.id == 1 && deleted.value.data == buffer
    ensures fetched == None
    ensures count == 0
  {
    var store := new ImageStore();
    var r := UploadImage(store, Some(UploadedFile("test.jpg", "image/jpeg", buffer)), u, v, at);
    var idText := DecimalString(r.value.id);
    ParseIntRoundTrip(r.value.id);
    deleted := store.Delete(idText);
    fetched := store.Get(idText);
    count := store.GetCount();
  }

  /** Deleting id 999 from an empty store finds nothing and leaves the count at 0. */
  method DeleteMissing() returns (deleted: Option<ImageRecord>, count: nat)
    ensures deleted == None && count == 0
  {
    var store := new ImageStore();
    deleted := store.Delete("999");
    count := store.GetCount();
  }

  /** A path parameter with trailing text still names the record: "1abc" deletes id 1. */
  method DeleteWithTrailingText(buffer: seq<Byte>, u: real, v: real, at: string)
    returns (deleted: Option<ImageRecord>, count: nat)
    requires |buffer| <= MaxFileSize
    requires 0.0 <= u < 1.0 && 0.0 <= v < 1.0
    ensures deleted.Some? && deleted.value.id == 1
    ensures count == 0
  {
    var store := new ImageStore();
    var r := UploadImage(store, Some(UploadedFile("a.png", "image/png", buffer)), u, v, at);
    var key := DecimalString(1) + "abc";  // the path parameter "1abc"
    ParseIntDecimalPrefix(1, "abc");
    deleted := store.Delete(key);
    count := store.GetCount();
  }

  /** After an upload and the deletion of that record, the next upload gets a larger id. */
  method IdsNotReused(first: seq<Byte>, second: seq<Byte>, u: real, v: real, at: string)
    returns (a: Result<PublicView, UploadError>, b: Result<PublicView, UploadError>)
    requires |first| <= MaxFileSize && |second| <= MaxFileSize
    requires 0.0 <= u < 1.0 && 0.0 <= v < 1.0
    ensures a.Success? && b.Success?
    ensures a.value.id < b.value.id
  {
    var store := new ImageStore();
    a := UploadImage(store, Some(UploadedFile("a.jpg", "image/jpg", first)), u, v, at);
    ParseIntRoundTrip(a.value.id);
    var gone := store.Delete(DecimalString(a.value.id));
    b := UploadImage(store, Some(UploadedFile("b.jpg", "image/jpeg", second)), u, v, at);
  }

  /** One upload, then /stats: one image, whose size is the total and the average. */
  method StatsAfterOneUpload(buffer: seq<Byte>, u: real, v: real, at: string)
    returns (s: StatsView)
    requires |buffer| <= MaxFileSize
    requires 0.0 <= u < 1.0 && 0.0 <= v < 1.0
    ensures s.totalImages == 1
    ensures s.totalSize == |buffer|
    ensures s.averageSize == |buffer| as real
  {
    var store := new ImageStore();
    var r := UploadImage(store, Some(UploadedFile("test.jpg", "image/jpeg", buffer)), u, v, at);
    var views := store.GetAll();
    assert |views| == 1 && views[0].size == |buffer| && views[1..] == [];
    assert SumSizes(views) == views[0].size + SumSizes(views[1..]);
    s := GetStats(store);
  }
}
