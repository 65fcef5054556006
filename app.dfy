/** The single-page version of the app: the `App` component keeps the list of
    uploads, `UploadZone` turns a dropped file into a new upload, and `Gallery`
    shows the uploads filtered by a search term and sorted by a sort key. */
module App {
  import opened Text
  import opened Seqs
  import opened StableSort
  import opened Media

  /** An upload record of this version: caption and uploader are plain strings. */
  datatype Upload = Upload(
    id: int,
    url: string,
    caption: string,
    uploader: string,
    likes: int,
    mediaType: MediaType,
    uploadDate: int)

  /** The search test of the gallery: the lower-cased term occurs in the lower-cased
      caption or in the lower-cased uploader name. */
  function Matches(u: Upload, searchTerm: string): (m: bool)
    ensures m <==> Occurs(ToLower(u.caption), ToLower(searchTerm)) ||
                   Occurs(ToLower(u.uploader), ToLower(searchTerm))
  {
    IncludesIff(ToLower(u.caption), ToLower(searchTerm));
    IncludesIff(ToLower(u.uploader), ToLower(searchTerm));
    Includes(ToLower(u.caption), ToLower(searchTerm)) ||
    Includes(ToLower(u.uploader), ToLower(searchTerm))
  }

  function MatchesTerm(searchTerm: string): Upload -> bool
  {
    u => Matches(u, searchTerm)
  }

  /** The gallery's comparator is (a, b) => Rank(a) - Rank(b): b.uploadDate - a.uploadDate
      for 'newest', a.uploadDate - b.uploadDate for 'oldest', b.likes - a.likes for
      'most-liked' and the constant 0 for any other key. */
  function Rank(sortBy: string, u: Upload): int
  {
    if sortBy == "newest" then -u.uploadDate
    else if sortBy == "oldest" then u.uploadDate
    else if sortBy == "most-liked" then -u.likes
    else 0
  }

  function RankBy(sortBy: string): Upload -> int
  {
    u => Rank(sortBy, u)
  }

  /** `uploads.filter(...).sort(...)`: the list the gallery renders. */
  function FilteredUploads(uploads: seq<Upload>, searchTerm: string, sortBy: string): (r: seq<Upload>)
    ensures |r| <= |uploads|
  {
    SortByKey(Filter(uploads, MatchesTerm(searchTerm)), RankBy(sortBy))
  }

  /** The rendered list is a rearrangement of the matching uploads: every matching upload
      appears exactly as often as in `uploads`, and no other upload appears. */
  lemma FilteredUploadsPermutes(uploads: seq<Upload>, searchTerm: string, sortBy: string, u: Upload)
    ensures multiset(FilteredUploads(uploads, searchTerm, sortBy)) ==
            multiset(Filter(uploads, MatchesTerm(searchTerm)))
    ensures multiset(FilteredUploads(uploads, searchTerm, sortBy))[u] ==
            if Matches(u, searchTerm) then multiset(uploads)[u] else 0
  {
    SortPermutes(Filter(uploads, MatchesTerm(searchTerm)), RankBy(sortBy));
    FilterMultiplicity(uploads, MatchesTerm(searchTerm), u);
  }

  /** An upload is shown iff it is one of `uploads` and matches the search term. */
  lemma FilteredUploadsMembers(uploads: seq<Upload>, searchTerm: string, sortBy: string, u: Upload)
    ensures u in FilteredUploads(uploads, searchTerm, sortBy) <==> u in uploads && Matches(u, searchTerm)
  {
    FilteredUploadsPermutes(uploads, searchTerm, sortBy, u);
    assert u in FilteredUploads(uploads, searchTerm, sortBy) <==>
           u in multiset(FilteredUploads(uploads, searchTerm, sortBy));
  }

  /** An empty search term hides nothing: "" occurs in every string. */
  lemma EmptySearchKeepsAll(uploads: seq<Upload>, sortBy: string)
    ensures multiset(FilteredUploads(uploads, "", sortBy)) == multiset(uploads)
  {
    forall u | u in uploads ensures MatchesTerm("")(u) {
      EmptyIncluded(ToLower(u.caption));
    }
    FilterAll(uploads, MatchesTerm(""));
    SortPermutes(uploads, RankBy(sortBy));
  }

  /** 'newest' puts later uploads first, 'oldest' earlier uploads first. */
  lemma FilteredUploadsByDate(uploads: seq<Upload>, searchTerm: string, sortBy: string, i: int, j: int)
    requires sortBy == "newest" || sortBy == "oldest"
    requires 0 <= i < j < |FilteredUploads(uploads, searchTerm, sortBy)|
    ensures var r := FilteredUploads(uploads, searchTerm, sortBy);
            if sortBy == "newest" then r[i].uploadDate >= r[j].uploadDate
            else r[i].uploadDate <= r[j].uploadDate
  {
    SortSorted(Filter(uploads, MatchesTerm(searchTerm)), RankBy(sortBy));
  }

  /** 'most-liked' puts more-liked uploads first ... */
  lemma FilteredUploadsByLikes(uploads: seq<Upload>, searchTerm: string, i: int, j: int)
    requires 0 <= i < j < |FilteredUploads(uploads, searchTerm, "most-liked")|
    ensures var r := FilteredUploads(uploads, searchTerm, "most-liked");
            r[i].likes >= r[j].likes
  {
    SortSorted(Filter(uploads, MatchesTerm(searchTerm)), RankBy("most-liked"));
  }

  function LikesAre(likes: int): Upload -> bool
  {
    (u: Upload) => u.likes == likes
  }

  /** ... and uploads with the same number of likes stay in their filtered order. */
  lemma MostLikedIsStable(uploads: seq<Upload>, searchTerm: string, likes: int)
    ensures var matched := Filter(uploads, MatchesTerm(searchTerm));
            Filter(FilteredUploads(uploads, searchTerm, "most-liked"), LikesAre(likes)) ==
            Filter(matched, LikesAre(likes))
  {
    StableFor(Filter(uploads, MatchesTerm(searchTerm)), RankBy("most-liked"), LikesAre(likes), -likes);
  }

  /** With any other sort key the comparator always answers 0, and the stable sort keeps
      the filtered order. */
  lemma UnknownSortKeepsOrder(uploads: seq<Upload>, searchTerm: string, sortBy: string)
    requires sortBy != "newest" && sortBy != "oldest" && sortBy != "most-liked"
    ensures FilteredUploads(uploads, searchTerm, sortBy) == Filter(uploads, MatchesTerm(searchTerm))
  {
    SortOfSorted(Filter(uploads, MatchesTerm(searchTerm)), RankBy(sortBy));
  }

  /** The record onDrop builds for a dropped file: `id` is one reading of the clock
      (Date.now()), `uploadDate` a second reading (new Date()), `url` the object URL
      of the file; caption and uploader start empty. */
  function NewUpload(file: File, idNow: int, dateNow: int, objectUrl: string): (u: Upload)
    ensures u.likes == 0 && u.caption == "" && u.uploader == ""
    ensures u.mediaType == Video <==> StartsWith(file.mimeType, "video")
    ensures u.id == idNow && u.uploadDate == dateNow && u.url == objectUrl
  {
    Upload(idNow, objectUrl, "", "", 0, MediaTypeOf(file.mimeType), dateNow)
  }

  /** A fresh upload matches only the empty search term: its caption and uploader are "". */
  lemma NewUploadMatchesOnlyEmptyTerm(file: File, idNow: int, dateNow: int, objectUrl: string, searchTerm: string)
    ensures Matches(NewUpload(file, idNow, dateNow, objectUrl), searchTerm) <==> searchTerm == ""
  {
    if searchTerm != "" {
      assert !StartsWith("", ToLower(searchTerm));
    } else {
      EmptyIncluded("");
    }
  }

  /** The `App` component: its state is the list of uploads, seeded with the mock uploads. */
  class App {
    var uploads: seq<Upload>

    constructor (seed: seq<Upload>)
      ensures uploads == seed
    {
      uploads := seed;
    }

    /** handleUpload: `setUploads(prev => [newUpload, ...prev])`. */
    method HandleUpload(newUpload: Upload)
      modifies this
      ensures uploads == [newUpload] + old(uploads)
      ensures |uploads| == |old(uploads)| + 1 && uploads[0] == newUpload
      ensures uploads[1..] == old(uploads)
    {
      uploads := [newUpload] + uploads;
    }
  }

  /** The upload page's drop zone: `uploading` shows the spinner, `uploadSuccess` the
      success screen; `redirects` records the paths passed to navigate(). */
  class UploadZone {
    var uploading: bool
    var uploadSuccess: bool
    var redirects: seq<string>

    constructor ()
      ensures !uploading && !uploadSuccess && redirects == []
    {
      uploading, uploadSuccess, redirects := false, false, [];
    }

    /** onDrop as written. `acceptedFiles[0]` is read without a check: when the drop
        zone rejects every file (too large, wrong type, more than one) the list is
        empty, URL.createObjectURL(undefined) throws, and the handler stops with the
        spinner still on. Otherwise the new upload is prepended and, after a delay,
        the page redirects to the gallery. */
    method OnDrop(app: App, acceptedFiles: seq<File>, idNow: int, dateNow: int, objectUrl: string)
      modifies this, app
      ensures acceptedFiles == [] ==>
        uploading && uploadSuccess == old(uploadSuccess) && redirects == old(redirects) &&
        app.uploads == old(app.uploads)
      ensures acceptedFiles != [] ==>
        !uploading && uploadSuccess && redirects == old(redirects) + ["/gallery"] &&
        app.uploads == [NewUpload(acceptedFiles[0], idNow, dateNow, objectUrl)] + old(app.uploads)
    {
      uploading := true;
      if acceptedFiles == [] {
        return;
      }
      var upload := NewUpload(acceptedFiles[0], idNow, dateNow, objectUrl);
      app.HandleUpload(upload);
      uploading := false;
      uploadSuccess := true;
      redirects := redirects + ["/gallery"];
    }

    /** onDrop with the missing guard: a drop with no accepted file ends the upload
        state instead of leaving the spinner on; everything else is as OnDrop. */
    method OnDropChecked(app: App, acceptedFiles: seq<File>, idNow: int, dateNow: int, objectUrl: string)
      modifies this, app
      ensures !uploading
      ensures acceptedFiles == [] ==>
        uploadSuccess == old(uploadSuccess) && redirects == old(redirects) &&
        app.uploads == old(app.uploads)
      ensures acceptedFiles != [] ==>
        uploadSuccess && redirects == old(redirects) + ["/gallery"] &&
        app.uploads == [NewUpload(acceptedFiles[0], idNow, dateNow, objectUrl)] + old(app.uploads)
    {
      uploading := true;
      if acceptedFiles == [] {
        uploading := false;
        return;
      }
      var upload := NewUpload(acceptedFiles[0], idNow, dateNow, objectUrl);
      app.HandleUpload(upload);
      uploading := false;
      uploadSuccess := true;
      redirects := redirects + ["/gallery"];
    }
  }

  /** A rejected drop on a fresh drop zone, as written: the spinner stays on and no
      upload is added. */
  method RejectedDropAsWritten(seed: seq<Upload>, idNow: int, dateNow: int) returns (spinning: bool, added: bool)
    ensures spinning && !added
  {
    var app := new App(seed);
    var zone := new UploadZone();
    zone.OnDrop(app, [], idNow, dateNow, "");
    spinning, added := zone.uploading, app.uploads != seed;
  }

  /** The same drop with the guard: the zone goes back to idle and no upload is added. */
  method RejectedDropChecked(seed: seq<Upload>, idNow: int, dateNow: int) returns (spinning: bool, added: bool)
    ensures !spinning && !added
  {
    var app := new App(seed);
    var zone := new UploadZone();
    zone.OnDropChecked(app, [], idNow, dateNow, "");
    spinning, added := zone.uploading, app.uploads != seed;
  }
}
