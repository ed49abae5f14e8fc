/**
 * The upload path: multer's admission gate (presence, MIME allow-list,
 * size limit), the simulated processing step and the /upload handler's
 * add-then-attach-dimensions commit into the store.
 */
module Upload {
  import opened Wrappers
  import opened Store

  /** multer's `limits.fileSize`: 3 MiB. */
  const MaxFileSize: nat := 3 * 1024 * 1024

  /** The fileFilter allow-list; "image/jpg" is accepted beside "image/jpeg". */
  const AllowedTypes: seq<string> := ["image/jpeg", "image/png", "image/jpg"]

  /** The file part multer hands to the handler (memory storage: size is the buffer's length). */
  datatype UploadedFile = UploadedFile(originalname: string, mimetype: string, buffer: seq<Byte>)

  datatype UploadError = MissingFile | UnsupportedType | FileTooLarge

  /** The fileFilter callback's decision: the three allow-listed types and no other. */
  predicate FileFilter(mimetype: string): (ok: bool)
    ensures ok <==> mimetype == "image/jpeg" || mimetype == "image/png" || mimetype == "image/jpg"
  {
    mimetype in AllowedTypes
  }

  /**
   * The gate in the order the request meets it: no file part, a type the
   * filter refuses (decided from the headers, before any byte is
   * buffered), more bytes than the limit.
   */
  function CheckUpload(file: Option<UploadedFile>): (r: Result<UploadedFile, UploadError>)
    ensures r.Success? <==>
      && file.Some?
      && file.value.mimetype in {"image/jpeg", "image/png", "image/jpg"}
      && |file.value.buffer| <= 3145728
    ensures r.Success? ==> r.value == file.value
    ensures r == Failure(MissingFile) <==> file.None?
    ensures r == Failure(UnsupportedType) <==>
      file.Some? && file.value.mimetype !in {"image/jpeg", "image/png", "image/jpg"}
    ensures r == Failure(FileTooLarge) <==>
      && file.Some?
      && file.value.mimetype in {"image/jpeg", "image/png", "image/jpg"}
      && |file.value.buffer| > 3145728
  {
    match file
    case None => Failure(MissingFile)
    case Some(f) =>
      if !FileFilter(f.mimetype) then Failure(UnsupportedType)
      else if |f.buffer| > MaxFileSize then Failure(FileTooLarge)
      else Success(f)
  }

  predicate InRange(d: Dimensions) {
    400 <= d.width <= 1199 && 300 <= d.height <= 899
  }

  /**
   * processImage with its two Math.random() draws u and v passed in:
   * width floor(u * 800) + 400, height floor(v * 600) + 300.
   */
  function ProcessImage(u: real, v: real): (d: Dimensions)
    requires 0.0 <= u < 1.0 && 0.0 <= v < 1.0
    ensures InRange(d)
  {
    Dimensions((u * 800.0).Floor + 400, (v * 600.0).Floor + 300)
  }

  /** Every pair in the range is produced by some pair of draws, so InRange is exactly processImage's range. */
  lemma ProcessImageCoversRange(d: Dimensions)
    requires InRange(d)
    ensures exists u: real, v: real :: 0.0 <= u < 1.0 && 0.0 <= v < 1.0 && ProcessImage(u, v) == d
  {
    var u := (d.width - 400) as real / 800.0;
    var v := (d.height - 300) as real / 600.0;
    assert u * 800.0 == (d.width - 400) as real;
    assert v * 600.0 == (d.height - 300) as real;
    assert ProcessImage(u, v) == d;
  }

  /** What the gate and the processing step guarantee of every record the handler commits. */
  predicate Admitted(r: ImageRecord) {
    && FileFilter(r.mimeType)
    && r.size == |r.data|
    && r.size <= MaxFileSize
    && r.dimensions.Some?
    && InRange(r.dimensions.value)
  }

  ghost predicate AllAdmitted(s: seq<ImageRecord>) {
    forall i :: 0 <= i < |s| ==> Admitted(s[i])
  }

  /**
   * POST /upload: the gate, then the processing step, then `add`, then
   * the dimensions are attached to the record just added (the last one).
   * A refused upload leaves the store as it was.
   */
  method UploadImage(store: ImageStore, file: Option<UploadedFile>, u: real, v: real, uploadedAt: string)
    returns (r: Result<PublicView, UploadError>)
    requires store.Valid()
    requires 0.0 <= u < 1.0 && 0.0 <= v < 1.0
    modifies store
    ensures store.Valid()
    ensures r.Failure? <==> CheckUpload(file).Failure?
    ensures r.Failure? ==>
      && r.error == CheckUpload(file).error
      && store.images == old(store.images)
      && store.nextId == old(store.nextId)
      && store.issued == old(store.issued)
    ensures r.Success? ==>
      var f := file.value;
      var rec := ImageRecord(old(store.nextId), f.originalname, f.mimetype, f.buffer, uploadedAt,
                             |f.buffer|, Some(ProcessImage(u, v)));
      && Admitted(rec)
      && store.images == old(store.images) + [rec]
      && r.value == View(rec)
      && store.nextId == old(store.nextId) + 1
      && store.issued == old(store.issued) + {rec.id}
    ensures AllAdmitted(old(store.images)) ==> AllAdmitted(store.images)
  {
    var checked := CheckUpload(file);
    if checked.Failure? {
      return Failure(checked.error);
    }
    var f := checked.value;
    var dimensions := ProcessImage(u, v);
    var newImage := store.Add(f.originalname, f.mimetype, f.buffer, |f.buffer|, uploadedAt);
    // newImage.dimensions = dimensions: the record just pushed is the last element
    newImage := newImage.(dimensions := Some(dimensions));
    store.images := store.images[..|store.images| - 1] + [newImage];
    r := Success(View(newImage));
  }
}
