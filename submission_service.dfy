/**
 * The submission store and the operations of the submission service:
 * lookup, creation with image normalisation, shallow update, aggregate
 * status, statistics, deletion and the AI-result patch.
 */
module SubmissionService {
  import opened Types
  import opened Lists
  import opened JsStrings

  /** Demo submitter names used when none is given. */
  const SubmitterNames: seq<string> := [
    "Mario Rossi", "Luca Verdi", "Elena Bianchi", "Giovanni Romano",
    "Francesca Greco", "Alessandro Russo", "Chiara Conti", "Marco Ferrari"
  ]

  function SubmissionIds(subs: seq<Submission>): (r: seq<string>)
    ensures |r| == |subs| && forall i :: 0 <= i < |subs| ==> r[i] == subs[i].id
  {
    seq(|subs|, i requires 0 <= i < |subs| => subs[i].id)
  }

  function ImageIds(images: seq<DroneImage>): (r: seq<string>)
    ensures |r| == |images| && forall i :: 0 <= i < |images| ==> r[i] == images[i].id
  {
    seq(|images|, i requires 0 <= i < |images| => images[i].id)
  }

  /** `submissions.findIndex(s => s.id === id)`. */
  function SubmissionIndex(subs: seq<Submission>, id: string): (r: int)
    ensures -1 <= r < |subs|
    ensures r == -1 <==> forall i :: 0 <= i < |subs| ==> subs[i].id != id
    ensures 0 <= r ==> subs[r].id == id && forall i :: 0 <= i < r ==> subs[i].id != id
  {
    var ids := SubmissionIds(subs);
    var r := IndexOf(ids, id);
    assert r == -1 ==> forall i :: 0 <= i < |subs| ==> ids[i] != id;
    assert 0 <= r ==> forall i :: 0 <= i < r ==> ids[..r][i] != id;
    r
  }

  /** `images.findIndex(img => img.id === id)`. */
  function ImageIndex(images: seq<DroneImage>, id: string): (r: int)
    ensures -1 <= r < |images|
    ensures r == -1 <==> forall i :: 0 <= i < |images| ==> images[i].id != id
    ensures 0 <= r ==> images[r].id == id && forall i :: 0 <= i < r ==> images[i].id != id
  {
    var ids := ImageIds(images);
    var r := IndexOf(ids, id);
    assert r == -1 ==> forall i :: 0 <= i < |images| ==> ids[i] != id;
    assert 0 <= r ==> forall i :: 0 <= i < r ==> ids[..r][i] != id;
    r
  }

  /** `images.find(img => img.id === id)`. */
  function FindImage(images: seq<DroneImage>, id: string): (r: Option<DroneImage>)
    ensures r.None? <==> forall i :: 0 <= i < |images| ==> images[i].id != id
    ensures r.Some? ==> r.value.id == id && r.value in images
    ensures r.Some? ==> exists i :: 0 <= i < |images| && images[i] == r.value && forall j :: 0 <= j < i ==> images[j].id != id
  {
    var i := ImageIndex(images, id);
    if i == -1 then None else Some(images[i])
  }

  /** Two image lists with the same ids in the same order locate every id at the same place. */
  lemma ImageIndexByIds(a: seq<DroneImage>, b: seq<DroneImage>, id: string)
    requires ImageIds(a) == ImageIds(b)
    ensures ImageIndex(a, id) == ImageIndex(b, id)
  {
  }

  lemma SubmissionIndexByIds(a: seq<Submission>, b: seq<Submission>, id: string)
    requires SubmissionIds(a) == SubmissionIds(b)
    ensures SubmissionIndex(a, id) == SubmissionIndex(b, id)
  {
  }

  /** The store with image `ii` of submission `si` replaced by `img`. */
  function ReplaceImage(subs: seq<Submission>, si: nat, ii: nat, img: DroneImage): (r: seq<Submission>)
    requires si < |subs| && ii < |subs[si].images|
    ensures |r| == |subs| && |r[si].images| == |subs[si].images|
    ensures img.id == subs[si].images[ii].id ==> SubmissionIds(r) == SubmissionIds(subs) && ImageIds(r[si].images) == ImageIds(subs[si].images)
  {
    subs[si := subs[si].(images := subs[si].images[ii := img])]
  }

  // ---------------------------------------------------------------------
  // Aggregate status and statistics
  // ---------------------------------------------------------------------

  /**
   * The aggregate's test `img.reviewData?.status !== 'pending_review'`:
   * an image WITHOUT review data counts as reviewed here.
   */
  predicate CountsAsReviewed(img: DroneImage)
    ensures CountsAsReviewed(img) <==> img.reviewData.None? || img.reviewData.value.status != PendingReview
  {
    !(img.reviewData.Some? && img.reviewData.value.status == PendingReview)
  }

  /** `images.every(...)`: every image, wherever it stands, counts as reviewed. */
  predicate AllReviewed(images: seq<DroneImage>)
    ensures AllReviewed(images) <==> forall img :: img in images ==> CountsAsReviewed(img)
  {
    forall i :: 0 <= i < |images| ==> CountsAsReviewed(images[i])
  }

  /**
   * The aggregate status the recomputation writes: completed exactly when
   * all images count as reviewed, in review exactly when some image has
   * review data explicitly at pending.
   */
  function AggregateStatus(images: seq<DroneImage>): (r: SubmissionStatus)
    ensures r == Completed <==> AllReviewed(images)
    ensures r == InReview <==> exists i :: 0 <= i < |images| && images[i].reviewData.Some? && images[i].reviewData.value.status == PendingReview
  {
    if AllReviewed(images) then Completed else InReview
  }

  /**
   * The statistics' `img.reviewData?.status || 'pending_review'`:
   * an image WITHOUT review data counts as pending here.
   */
  function EffectiveStatus(img: DroneImage): (r: ImageReviewStatus)
    ensures img.reviewData.None? ==> r == PendingReview
    ensures img.reviewData.Some? ==> r == img.reviewData.value.status
    ensures r == PendingReview <==> !CountsAsReviewed(img) || img.reviewData.None?
  {
    if img.reviewData.Some? then img.reviewData.value.status else PendingReview
  }

  datatype Stats = Stats(total: nat, pending: nat, inAnalysis: nat, worthy: nat, inconclusive: nat, discarded: nat)

  /** Number of images whose effective status is `s`. */
  function CountStatus(images: seq<DroneImage>, s: ImageReviewStatus): (n: nat)
    ensures n <= |images|
  {
    if |images| == 0 then 0
    else CountStatus(images[..|images| - 1], s) + (if EffectiveStatus(images[|images| - 1]) == s then 1 else 0)
  }

  /** Every image falls under exactly one of the five counters. */
  lemma {:induction false} CountsPartition(images: seq<DroneImage>)
    ensures CountStatus(images, PendingReview) + CountStatus(images, InAnalysis) + CountStatus(images, WorthyOfReview)
            + CountStatus(images, Inconclusive) + CountStatus(images, Discarded) == |images|
  {
    if |images| > 0 {
      CountsPartition(images[..|images| - 1]);
    }
  }

  /** A status counts zero exactly when no image has it, and counts every image exactly when all have it. */
  lemma {:induction false} CountStatusExtremes(images: seq<DroneImage>, s: ImageReviewStatus)
    ensures CountStatus(images, s) == 0 <==> forall i :: 0 <= i < |images| ==> EffectiveStatus(images[i]) != s
    ensures CountStatus(images, s) == |images| <==> forall i :: 0 <= i < |images| ==> EffectiveStatus(images[i]) == s
  {
    if |images| > 0 {
      var init := images[..|images| - 1];
      CountStatusExtremes(init, s);
      assert forall i :: 0 <= i < |init| ==> init[i] == images[i];
    }
  }

  /** With no image counted as pending, the aggregate is completed. */
  lemma {:induction false} NoPendingMeansCompleted(images: seq<DroneImage>)
    requires CountStatus(images, PendingReview) == 0
    ensures AggregateStatus(images) == Completed
  {
    if |images| > 0 {
      var init := images[..|images| - 1];
      NoPendingMeansCompleted(init);
      forall i | 0 <= i < |images| ensures CountsAsReviewed(images[i]) {
        if i < |images| - 1 {
          assert images[i] == init[i];
        }
      }
    }
  }

  /**
   * The two defaults disagree: one image without review data is counted
   * as pending by the statistics, yet the aggregate calls it completed.
   */
  lemma MissingReviewDataDisagrees(img: DroneImage)
    requires img.reviewData.None?
    ensures CountStatus([img], PendingReview) == 1
    ensures AggregateStatus([img]) == Completed
  {
    assert [img][..0] == [];
  }

  /** An image explicitly back at pending review makes the aggregate in review. */
  lemma PendingImageMeansInReview(images: seq<DroneImage>, i: nat, data: ImageReviewData)
    requires i < |images| && data.status == PendingReview
    ensures AggregateStatus(images[i := images[i].(reviewData := Some(data))]) == InReview
  {
    var changed := images[i := images[i].(reviewData := Some(data))];
    assert !CountsAsReviewed(changed[i]);
  }

  /** An empty image list is vacuously completed. */
  lemma EmptyIsCompleted()
    ensures AggregateStatus([]) == Completed
  {
  }

  /** The stats loop: one pass over the images incrementing the matching counter. */
  method GetSubmissionStats(submission: Submission) returns (stats: Stats)
    ensures stats.total == |submission.images|
    ensures stats.pending == CountStatus(submission.images, PendingReview)
    ensures stats.inAnalysis == CountStatus(submission.images, InAnalysis)
    ensures stats.worthy == CountStatus(submission.images, WorthyOfReview)
    ensures stats.inconclusive == CountStatus(submission.images, Inconclusive)
    ensures stats.discarded == CountStatus(submission.images, Discarded)
    ensures stats.pending + stats.inAnalysis + stats.worthy + stats.inconclusive + stats.discarded == stats.total
  {
    var images := submission.images;
    stats := Stats(|images|, 0, 0, 0, 0, 0);
    for k := 0 to |images|
      invariant stats.total == |images|
      invariant stats.pending == CountStatus(images[..k], PendingReview)
      invariant stats.inAnalysis == CountStatus(images[..k], InAnalysis)
      invariant stats.worthy == CountStatus(images[..k], WorthyOfReview)
      invariant stats.inconclusive == CountStatus(images[..k], Inconclusive)
      invariant stats.discarded == CountStatus(images[..k], Discarded)
    {
      assert images[..k + 1][..k] == images[..k];
      match EffectiveStatus(images[k])
      case PendingReview => stats := stats.(pending := stats.pending + 1);
      case InAnalysis => stats := stats.(inAnalysis := stats.inAnalysis + 1);
      case WorthyOfReview => stats := stats.(worthy := stats.worthy + 1);
      case Inconclusive => stats := stats.(inconclusive := stats.inconclusive + 1);
      case Discarded => stats := stats.(discarded := stats.discarded + 1);
    }
    assert images[..|images|] == images;
    CountsPartition(images);
  }

  // ---------------------------------------------------------------------
  // Creation: URL normalisation and fresh review data
  // ---------------------------------------------------------------------

  /**
   * What reading a `blob:` URL comes to: a data URL, a failure inside the
   * `try` (the awaited `fetch` or `response.blob()`), or a FileReader
   * error, which rejects the promise that is returned from the `try`
   * without being awaited there.
   */
  datatype Conversion = Converted(dataUrl: string) | FetchFailed | ReaderFailed

  /**
   * `blobUrlToBase64`: `data:` URLs and URLs that are not `blob:` are kept;
   * a `blob:` URL becomes its data URL, stays as it was when the fetch
   * fails (the `catch` fallback), and rejects (`None`) on a FileReader
   * error, which the `catch` never sees.
   */
  function PersistableUrl(url: string, convert: string -> Conversion): (r: Option<string>)
    ensures StartsWith(url, "data:") || !StartsWith(url, "blob:") ==> r == Some(url)
    ensures StartsWith(url, "blob:") && convert(url).FetchFailed? ==> r == Some(url)
    ensures StartsWith(url, "blob:") && convert(url).Converted? ==> r == Some(convert(url).dataUrl)
    ensures r.None? <==> StartsWith(url, "blob:") && convert(url).ReaderFailed?
  {
    if StartsWith(url, "data:") || !StartsWith(url, "blob:") then Some(url)
    else
      match convert(url)
      case Converted(dataUrl) => Some(dataUrl)
      case FetchFailed => Some(url)
      case ReaderFailed => None
  }

  /** When conversions produce `data:` URLs, normalising a normalised URL changes nothing. */
  lemma PersistableUrlIdempotent(url: string, convert: string -> Conversion)
    requires forall u :: convert(u).Converted? ==> StartsWith(convert(u).dataUrl, "data:")
    ensures PersistableUrl(url, convert).Some? ==>
              PersistableUrl(PersistableUrl(url, convert).value, convert) == PersistableUrl(url, convert)
  {
  }

  /** The review data every image of a new submission starts with: only the pending status. */
  const FreshReview: ImageReviewData := ImageReviewData(PendingReview, None, None, None, None)

  /** One input image as it is stored in a new submission, once its URL `url` has resolved. */
  function NormalizedImage(img: DroneImage, url: string): (r: DroneImage)
    ensures r.id == img.id && r.name == img.name && r.metadata == img.metadata && r.aiAnalysis == img.aiAnalysis
    ensures r.previewUrl == url
    ensures r.reviewData == Some(FreshReview)
  {
    img.(previewUrl := url, reviewData := Some(FreshReview))
  }

  /** `Promise.all` over the conversions resolves only when every image's conversion does. */
  predicate AllConvert(images: seq<DroneImage>, convert: string -> Conversion) {
    forall i :: 0 <= i < |images| ==> PersistableUrl(images[i].previewUrl, convert).Some?
  }

  /**
   * The images of a new submission, in input order, or `None` when one
   * conversion rejects and with it the whole `Promise.all`.
   */
  function NormalizedImages(images: seq<DroneImage>, convert: string -> Conversion): (r: Option<seq<DroneImage>>)
    ensures r.Some? <==> AllConvert(images, convert)
    ensures r.Some? ==> |r.value| == |images| && ImageIds(r.value) == ImageIds(images)
    ensures r.Some? ==> forall i :: 0 <= i < |images| ==>
              r.value[i] == NormalizedImage(images[i], PersistableUrl(images[i].previewUrl, convert).value)
  {
    if AllConvert(images, convert) then
      Some(seq(|images|, i requires 0 <= i < |images| => NormalizedImage(images[i], PersistableUrl(images[i].previewUrl, convert).value)))
    else None
  }

  /** One image whose FileReader fails rejects the creation, whatever the other images are. */
  lemma ReaderFailureRejects(images: seq<DroneImage>, convert: string -> Conversion, i: nat)
    requires i < |images| && StartsWith(images[i].previewUrl, "blob:") && convert(images[i].previewUrl).ReaderFailed?
    ensures NormalizedImages(images, convert).None?
  {
    assert PersistableUrl(images[i].previewUrl, convert).None?;
  }

  /** Failed fetches fall back: with no FileReader error, the creation goes through. */
  lemma NoReaderFailureConverts(images: seq<DroneImage>, convert: string -> Conversion)
    requires forall u :: !convert(u).ReaderFailed?
    ensures NormalizedImages(images, convert).Some?
  {
  }

  /**
   * A new submission is stored as in review; recomputing its aggregate
   * gives the same answer exactly when it has at least one image.
   */
  lemma CreatedStatusMatchesAggregateIffNonEmpty(images: seq<DroneImage>, convert: string -> Conversion)
    requires NormalizedImages(images, convert).Some?
    ensures AggregateStatus(NormalizedImages(images, convert).value) == InReview <==> |images| > 0
    ensures forall i :: 0 <= i < |images| ==> EffectiveStatus(NormalizedImages(images, convert).value[i]) == PendingReview
  {
    var n := NormalizedImages(images, convert).value;
    if |images| > 0 {
      assert !CountsAsReviewed(n[0]);
    }
  }

  /** The submitter name: the given one when it is a non-empty string, otherwise the chosen demo name. */
  function SubmitterName(given: Option<string>, randomPick: nat): (r: string)
    requires randomPick < |SubmitterNames|
    ensures given.Some? && given.value != "" ==> r == given.value
    ensures given.None? || given.value == "" ==> r in SubmitterNames
  {
    if given.Some? && given.value != "" then given.value else SubmitterNames[randomPick]
  }

  // ---------------------------------------------------------------------
  // Shallow update and deletion
  // ---------------------------------------------------------------------

  /** A `Partial<Submission>`: the fields present in the update. */
  datatype SubmissionPatch = SubmissionPatch(
    id: Option<string>,
    submitterName: Option<string>,
    submittedAt: Option<string>,
    images: Option<seq<DroneImage>>,
    status: Option<SubmissionStatus>,
    location: Option<Location>)

  const EmptyPatch: SubmissionPatch := SubmissionPatch(None, None, None, None, None, None)

  function Pick<T>(field: Option<T>, current: T): T {
    if field.Some? then field.value else current
  }

  /** `{ ...s, ...patch }`: every field present in the patch wins, the others are kept. */
  function Merge(s: Submission, patch: SubmissionPatch): (r: Submission)
    ensures r.id == (if patch.id.Some? then patch.id.value else s.id)
    ensures r.submitterName == (if patch.submitterName.Some? then patch.submitterName.value else s.submitterName)
    ensures r.submittedAt == (if patch.submittedAt.Some? then patch.submittedAt.value else s.submittedAt)
    ensures r.images == (if patch.images.Some? then patch.images.value else s.images)
    ensures r.status == (if patch.status.Some? then patch.status.value else s.status)
    ensures r.location == (if patch.location.Some? then patch.location.value else s.location)
  {
    Submission(Pick(patch.id, s.id), Pick(patch.submitterName, s.submitterName), Pick(patch.submittedAt, s.submittedAt),
               Pick(patch.images, s.images), Pick(patch.status, s.status), Pick(patch.location, s.location))
  }

  /** An empty patch changes nothing, and applying a patch twice is applying it once. */
  lemma MergeLaws(s: Submission, patch: SubmissionPatch)
    ensures Merge(s, EmptyPatch) == s
    ensures Merge(Merge(s, patch), patch) == Merge(s, patch)
  {
  }

  /** `submissions.filter(s => s.id !== id)`. */
  function RemoveSubmission(subs: seq<Submission>, id: string): (r: seq<Submission>)
    ensures forall s :: s in r <==> s in subs && s.id != id
    ensures |r| == |subs| <==> forall i :: 0 <= i < |subs| ==> subs[i].id != id
  {
    Filter(subs, (s: Submission) => s.id != id)
  }

  /** Deletion keeps the survivors in order: it distributes over concatenation. */
  lemma RemoveSubmissionKeepsOrder(a: seq<Submission>, b: seq<Submission>, id: string)
    ensures RemoveSubmission(a + b, id) == RemoveSubmission(a, id) + RemoveSubmission(b, id)
  {
    FilterConcat(a, b, (s: Submission) => s.id != id);
  }

  /** Removing an id that no record has returns the collection unchanged. */
  lemma RemoveAbsentSubmission(subs: seq<Submission>, id: string)
    requires forall i :: 0 <= i < |subs| ==> subs[i].id != id
    ensures RemoveSubmission(subs, id) == subs
  {
    FilterAll(subs, (s: Submission) => s.id != id);
  }

  // ---------------------------------------------------------------------
  // The store
  // ---------------------------------------------------------------------

  /**
   * The persisted collection, newest first. Loading reads `subs` and
   * saving assigns it; every operation reads the whole list, changes its
   * copy and writes the whole list back.
   */
  class Store {
    var subs: seq<Submission>

    constructor (initial: seq<Submission>)
      ensures subs == initial
    {
      subs := initial;
    }

    /** `getSubmissionById`: the first record with that id, if any. */
    function GetSubmissionById(id: string): (r: Option<Submission>)
      reads this
      ensures r.None? <==> forall i :: 0 <= i < |subs| ==> subs[i].id != id
      ensures r.Some? ==> r.value.id == id
      ensures r.Some? ==> exists i :: 0 <= i < |subs| && subs[i] == r.value && forall j :: 0 <= j < i ==> subs[j].id != id
    {
      var i := SubmissionIndex(subs, id);
      if i == -1 then None else Some(subs[i])
    }

    /**
     * `createSubmission`: once every image's URL is converted, the new
     * record goes in front, in review, with the images in input order and
     * each image's review data reset to the pending status alone. A
     * rejected conversion rejects the call before anything is saved. The
     * time-based id, the timestamp, the random name pick, the centroid and
     * the area name come in as parameters.
     */
    method CreateSubmission(images: seq<DroneImage>, submitterName: Option<string>, convert: string -> Conversion,
                            randomPick: nat, id: string, now: string, area: string, centre: Coordinates)
      returns (submission: Option<Submission>)
      requires randomPick < |SubmitterNames|
      modifies this
      ensures submission.None? <==> !AllConvert(images, convert)
      ensures submission.None? ==> subs == old(subs)
      ensures submission.Some? ==>
                && subs == [submission.value] + old(subs)
                && submission.value.id == id && submission.value.submittedAt == now
                && submission.value.submitterName == SubmitterName(submitterName, randomPick)
                && submission.value.status == InReview
                && submission.value.location == Location(area, centre)
                && |submission.value.images| == |images|
                && forall i :: 0 <= i < |images| ==>
                     submission.value.images[i] == NormalizedImage(images[i], PersistableUrl(images[i].previewUrl, convert).value)
    {
      var submissions := subs;
      var imagesWithBase64 := NormalizedImages(images, convert);
      if imagesWithBase64.None? {
        return None;
      }
      var created := Submission(id, SubmitterName(submitterName, randomPick), now, imagesWithBase64.value, InReview, Location(area, centre));
      submissions := [created] + submissions;
      subs := submissions;
      submission := Some(created);
    }

    /** `updateSubmission`: merge into the first matching record, or report none. */
    method UpdateSubmission(id: string, patch: SubmissionPatch) returns (r: Option<Submission>)
      modifies this
      ensures SubmissionIndex(old(subs), id) == -1 ==> r.None? && subs == old(subs)
      ensures SubmissionIndex(old(subs), id) != -1 ==>
                var i := SubmissionIndex(old(subs), id);
                r == Some(Merge(old(subs)[i], patch)) && subs == old(subs)[i := r.value]
    {
      var submissions := subs;
      var index := SubmissionIndex(submissions, id);
      if index == -1 {
        return None;
      }
      submissions := submissions[index := Merge(submissions[index], patch)];
      subs := submissions;
      r := Some(submissions[index]);
    }

    /**
     * `updateSubmissionStatus`: write the recomputed aggregate into the
     * first matching record and return it; an unknown id gives in review
     * and writes nothing.
     */
    method UpdateSubmissionStatus(id: string) returns (status: SubmissionStatus)
      modifies this
      ensures SubmissionIndex(old(subs), id) == -1 ==> status == InReview && subs == old(subs)
      ensures SubmissionIndex(old(subs), id) != -1 ==>
                var i := SubmissionIndex(old(subs), id);
                status == AggregateStatus(old(subs)[i].images) && subs == old(subs)[i := old(subs)[i].(status := status)]
      ensures status == Completed ==> SubmissionIndex(old(subs), id) != -1
    {
      var submissions := subs;
      var index := SubmissionIndex(submissions, id);
      if index == -1 {
        return InReview;
      }
      var allReviewed := AllReviewed(submissions[index].images);
      status := if allReviewed then Completed else InReview;
      submissions := submissions[index := submissions[index].(status := status)];
      subs := submissions;
    }

    /** `deleteSubmission`: drop every record with that id; false, and no write, when none matched. */
    method DeleteSubmission(id: string) returns (deleted: bool)
      modifies this
      ensures deleted <==> exists i :: 0 <= i < |old(subs)| && old(subs)[i].id == id
      ensures subs == RemoveSubmission(old(subs), id)
      ensures !deleted ==> subs == old(subs)
    {
      var submissions := subs;
      var filtered := RemoveSubmission(submissions, id);
      if |filtered| == |submissions| {
        RemoveAbsentSubmission(submissions, id);
        return false;
      }
      subs := filtered;
      deleted := true;
    }

    /** `updateImageAIAnalysis`: set only that image's AI result; false when either id is missing. */
    method UpdateImageAIAnalysis(submissionId: string, imageId: string, aiAnalysis: Option<AIAnalysisResult>) returns (ok: bool)
      modifies this
      ensures var si := SubmissionIndex(old(subs), submissionId);
              ok <==> si != -1 && ImageIndex(old(subs)[si].images, imageId) != -1
      ensures !ok ==> subs == old(subs)
      ensures ok ==>
                var si := SubmissionIndex(old(subs), submissionId);
                var ii := ImageIndex(old(subs)[si].images, imageId);
                subs == ReplaceImage(old(subs), si, ii, old(subs)[si].images[ii].(aiAnalysis := aiAnalysis))
    {
      var submissions := subs;
      var submissionIndex := SubmissionIndex(submissions, submissionId);
      if submissionIndex == -1 {
        return false;
      }
      var imageIndex := ImageIndex(submissions[submissionIndex].images, imageId);
      if imageIndex == -1 {
        return false;
      }
      var img := submissions[submissionIndex].images[imageIndex];
      submissions := ReplaceImage(submissions, submissionIndex, imageIndex, img.(aiAnalysis := aiAnalysis));
      subs := submissions;
      ok := true;
    }
  }
}
