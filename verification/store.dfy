/**
 * The server's in-memory record store (class ImageStore in
 * backend/server.js): an ordered sequence of image records and the
 * counter that stamps each new record with the next id.
 */
module Store {
  import opened Wrappers
  import opened JsParse

  type Byte = bv8

  /** The width and height the processing step derives for an upload. */
  datatype Dimensions = Dimensions(width: int, height: int)

  /**
   * One stored image, with the fields `add` gives it; `dimensions` is
   * undefined (None) until the upload handler attaches it.
   */
  datatype ImageRecord = ImageRecord(
    id: int,
    filename: string,
    mimeType: string,
    data: seq<Byte>,
    uploadedAt: string,
    size: nat,
    dimensions: Option<Dimensions>)

  /** The public view `getAll` builds for each record: every field except the raw bytes. */
  datatype PublicView = PublicView(
    id: int,
    filename: string,
    mimeType: string,
    size: nat,
    uploadedAt: string,
    dimensions: Option<Dimensions>)

  function View(r: ImageRecord): PublicView {
    PublicView(r.id, r.filename, r.mimeType, r.size, r.uploadedAt, r.dimensions)
  }

  /** Two records have the same public view exactly when they differ at most in their bytes. */
  lemma ViewForgetsOnlyData(a: ImageRecord, b: ImageRecord)
    ensures View(a) == View(b) <==> a.(data := b.data) == b
  {
  }

  /** `getAll`: the views of all records, in store order. */
  function Project(s: seq<ImageRecord>): (views: seq<PublicView>)
    ensures |views| == |s|
    ensures forall i :: 0 <= i < |s| ==> views[i] == View(s[i])
  {
    if s == [] then [] else [View(s[0])] + Project(s[1..])
  }

  /** `img.id === parseInt(id)`: a key that parsed to NaN (None) equals no id. */
  predicate Matches(r: ImageRecord, key: Option<int>) {
    key == Some(r.id)
  }

  /** `findIndex` with Matches: the position of the first matching record, or -1 if none matches. */
  function FindIndex(s: seq<ImageRecord>, key: Option<int>): (i: int)
    ensures -1 <= i < |s|
    ensures 0 <= i ==> Matches(s[i], key)
    ensures forall j :: 0 <= j < |s| && (i == -1 || j < i) ==> !Matches(s[j], key)
  {
    if s == [] then -1
    else if Matches(s[0], key) then 0
    else
      var i := FindIndex(s[1..], key);
      if i == -1 then -1 else i + 1
  }

  /** `splice(i, 1)`: the sequence without position i, everything else kept in order. */
  function RemoveAt(s: seq<ImageRecord>, i: nat): (t: seq<ImageRecord>)
    requires i < |s|
    ensures |t| == |s| - 1
    ensures forall j :: 0 <= j < i ==> t[j] == s[j]
    ensures forall j :: i <= j < |t| ==> t[j] == s[j + 1]
    ensures multiset(t) + multiset{s[i]} == multiset(s)
  {
    assert s == s[..i] + [s[i]] + s[i + 1..];
    s[..i] + s[i + 1..]
  }

  /** Ids in store order are strictly increasing, hence pairwise distinct. */
  ghost predicate IdsIncreasing(s: seq<ImageRecord>) {
    forall i, j :: 0 <= i < j < |s| ==> s[i].id < s[j].id
  }

  class ImageStore {
    var images: seq<ImageRecord>
    var nextId: int
    /** Every id this store has handed out, including those of records deleted since. */
    ghost var issued: set<int>

    ghost predicate Valid()
      reads this
    {
      && nextId >= 1
      && (forall k :: k in issued <==> 1 <= k < nextId)
      && (forall i :: 0 <= i < |images| ==> images[i].id in issued)
      && IdsIncreasing(images)
    }

    /** An empty store whose first id will be 1. */
    constructor ()
      ensures Valid()
      ensures images == [] && nextId == 1 && issued == {}
    {
      images := [];
      nextId := 1;
      issued := {};
    }

    /**
     * Stamps the record with the next id (never handed out before, and
     * greater than every id handed out before) and appends it.
     */
    method Add(filename: string, mimeType: string, data: seq<Byte>, size: nat, uploadedAt: string)
      returns (newImage: ImageRecord)
      requires Valid()
      modifies this
      ensures Valid()
      ensures newImage == ImageRecord(old(nextId), filename, mimeType, data, uploadedAt, size, None)
      ensures newImage.id !in old(issued)
      ensures forall k :: k in old(issued) ==> k < newImage.id
      ensures issued == old(issued) + {newImage.id}
      ensures nextId == old(nextId) + 1
      ensures images == old(images) + [newImage]
    {
      newImage := ImageRecord(nextId, filename, mimeType, data, uploadedAt, size, None);
      nextId := nextId + 1;
      issued := issued + {newImage.id};
      images := images + [newImage];
    }

    /** `find`: the record whose id is parseInt(id), if there is one. */
    function Get(id: string): (r: Option<ImageRecord>)
      reads this
      ensures r.Some? ==> r.value in images && Matches(r.value, ParseInt(id))
      ensures r.None? <==> forall i :: 0 <= i < |images| ==> !Matches(images[i], ParseInt(id))
      ensures Valid() && r.Some? ==> forall i :: 0 <= i < |images| && Matches(images[i], ParseInt(id)) ==> images[i] == r.value
    {
      var i := FindIndex(images, ParseInt(id));
      if i == -1 then None else Some(images[i])
    }

    /** `getAll`: one view per record, in store order, none of them carrying the bytes. */
    function GetAll(): (views: seq<PublicView>)
      reads this
      ensures |views| == |images|
      ensures forall i :: 0 <= i < |images| ==> views[i] == View(images[i])
    {
      Project(images)
    }

    function GetCount(): (n: nat)
      reads this
      ensures n == |GetAll()|
    {
      |images|
    }

    /**
     * Removes the first record whose id is parseInt(id) and returns it;
     * returns None and changes nothing when no record matches.
     */
    method Delete(id: string) returns (removed: Option<ImageRecord>)
      requires Valid()
      modifies this
      ensures Valid()
      ensures nextId == old(nextId) && issued == old(issued)
      ensures removed.None? <==> forall i :: 0 <= i < |old(images)| ==> !Matches(old(images)[i], ParseInt(id))
      ensures removed.None? ==> images == old(images)
      ensures removed.Some? ==>
        var i := FindIndex(old(images), ParseInt(id));
        && 0 <= i
        && removed.value == old(images)[i]
        && Matches(removed.value, ParseInt(id))
        && images == RemoveAt(old(images), i)
    {
      var index := FindIndex(images, ParseInt(id));
      if index != -1 {
        removed := Some(images[index]);
        images := RemoveAt(images, index);
      } else {
        removed := None;
      }
    }
  }
}
