/**
 * The review service: single and bulk per-image status transitions
 * over the store, each followed by the aggregate recomputation, and the
 * status icon and "is reviewed" helpers.
 */
module ReviewService {
  import opened Types
  import opened Lists
  import opened SubmissionService

  /** The placeholder reviewer written into every review record. */
  const Reviewer: string := "Dr. archeologo"

  /**
   * The record that replaces an image's review data wholesale: the reason
   * and the comment survive only for the discarded status.
   */
  function ReviewRecord(status: ImageReviewStatus, reason: Option<DiscardReason>, comment: Option<string>, at: string): (r: ImageReviewData)
    ensures r.status == status && r.reviewedAt == Some(at) && r.reviewedBy == Some(Reviewer)
    ensures status == Discarded ==> r.discardReason == reason && r.discardComment == comment
    ensures status != Discarded ==> r.discardReason.None? && r.discardComment.None?
  {
    ImageReviewData(status,
                    if status == Discarded then reason else None,
                    if status == Discarded then comment else None,
                    Some(at), Some(Reviewer))
  }

  /** The submission with its images replaced and its aggregate recomputed from them. */
  function WithImages(sub: Submission, images: seq<DroneImage>): (r: Submission)
    ensures r.images == images && r.status == AggregateStatus(images)
    ensures r.id == sub.id && r.submitterName == sub.submitterName && r.submittedAt == sub.submittedAt && r.location == sub.location
  {
    sub.(images := images, status := AggregateStatus(images))
  }

  /**
   * The store after `updateImageStatus`: when both ids are found, the
   * first matching image of the first matching submission gets `rec` as
   * its review data, and that submission's aggregate is recomputed;
   * nothing else changes. Otherwise the store is unchanged.
   */
  function ApplyReview(subs: seq<Submission>, submissionId: string, imageId: string, rec: ImageReviewData): (r: seq<Submission>)
    ensures |r| == |subs| && SubmissionIds(r) == SubmissionIds(subs)
    ensures forall k :: 0 <= k < |subs| && k != SubmissionIndex(subs, submissionId) ==> r[k] == subs[k]
    ensures var si := SubmissionIndex(subs, submissionId);
            si == -1 || ImageIndex(subs[si].images, imageId) == -1 ==> r == subs
    ensures var si := SubmissionIndex(subs, submissionId);
            si != -1 && ImageIndex(subs[si].images, imageId) != -1 ==>
              var ii := ImageIndex(subs[si].images, imageId);
              && |r[si].images| == |subs[si].images|
              && r[si].images[ii] == subs[si].images[ii].(reviewData := Some(rec))
              && (forall j :: 0 <= j < |subs[si].images| && j != ii ==> r[si].images[j] == subs[si].images[j])
              && r[si].status == AggregateStatus(r[si].images)
              && r[si] == WithImages(subs[si], r[si].images)
  {
    var si := SubmissionIndex(subs, submissionId);
    if si == -1 then subs
    else
      var ii := ImageIndex(subs[si].images, imageId);
      if ii == -1 then subs
      else
        var images := subs[si].images[ii := subs[si].images[ii].(reviewData := Some(rec))];
        assert ImageIds(images) == ImageIds(subs[si].images);
        var r := subs[si := WithImages(subs[si], images)];
        assert SubmissionIds(r) == SubmissionIds(subs);
        r
  }

  /** Whether position `k` is where the search for some requested id lands: the first image with a requested id. */
  predicate Targeted(images: seq<DroneImage>, ids: seq<string>, k: nat)
    requires k < |images|
  {
    images[k].id in ids && ImageIndex(images, images[k].id) == k
  }

  /** The images after the bulk loop: each position some requested id lands on gets `rec`. */
  function BulkImages(images: seq<DroneImage>, ids: seq<string>, rec: ImageReviewData): (r: seq<DroneImage>)
    ensures |r| == |images| && ImageIds(r) == ImageIds(images)
  {
    seq(|images|, k requires 0 <= k < |images| =>
      if Targeted(images, ids, k) then images[k].(reviewData := Some(rec)) else images[k])
  }

  /** The requested ids that some image has, in request order, duplicates repeated. */
  function FoundIds(images: seq<DroneImage>, ids: seq<string>): (r: seq<string>)
    ensures forall x :: x in r <==> x in ids && x in ImageIds(images)
  {
    Filter(ids, (x: string) => x in ImageIds(images))
  }

  /** What the bulk update returns: one updated image per found id, in request order. */
  function BulkHits(images: seq<DroneImage>, ids: seq<string>, rec: ImageReviewData): (r: seq<DroneImage>)
    ensures |r| == |FoundIds(images, ids)|
    ensures forall j :: 0 <= j < |r| ==> r[j].id == FoundIds(images, ids)[j] && r[j].reviewData == Some(rec)
  {
    var found := FoundIds(images, ids);
    seq(|found|, j requires 0 <= j < |found| => images[ImageIndex(images, found[j])].(reviewData := Some(rec)))
  }

  /** Every image the bulk update returns is one of the images it stores. */
  lemma BulkHitsAreStored(images: seq<DroneImage>, ids: seq<string>, rec: ImageReviewData)
    ensures forall j :: 0 <= j < |BulkHits(images, ids, rec)| ==> BulkHits(images, ids, rec)[j] in BulkImages(images, ids, rec)
  {
    var found := FoundIds(images, ids);
    var r := BulkHits(images, ids, rec);
    forall j | 0 <= j < |r| ensures r[j] in BulkImages(images, ids, rec) {
      var k := ImageIndex(images, found[j]);
      assert Targeted(images, ids, k);
      assert BulkImages(images, ids, rec)[k] == r[j];
    }
  }

  /**
   * The bulk loop writes one record, with its single timestamp, on the
   * first image of every requested id that is found; every other image,
   * and in particular every image whose id was not requested, is kept.
   */
  lemma BulkSharesOneRecord(images: seq<DroneImage>, ids: seq<string>, rec: ImageReviewData)
    ensures forall x :: x in ids && ImageIndex(images, x) != -1 ==>
              BulkImages(images, ids, rec)[ImageIndex(images, x)] == images[ImageIndex(images, x)].(reviewData := Some(rec))
    ensures forall k :: 0 <= k < |images| ==>
              BulkImages(images, ids, rec)[k] == images[k] || BulkImages(images, ids, rec)[k].reviewData == Some(rec)
    ensures forall k :: 0 <= k < |images| && images[k].id !in ids ==> BulkImages(images, ids, rec)[k] == images[k]
  {
    forall x | x in ids && ImageIndex(images, x) != -1
      ensures BulkImages(images, ids, rec)[ImageIndex(images, x)] == images[ImageIndex(images, x)].(reviewData := Some(rec))
    {
      assert Targeted(images, ids, ImageIndex(images, x));
    }
  }

  /**
   * The store after `bulkUpdateStatus`: unchanged for an unknown
   * submission, otherwise that submission's images as the bulk loop leaves
   * them, with the aggregate recomputed (also when no id was found).
   */
  function ApplyBulk(subs: seq<Submission>, submissionId: string, ids: seq<string>, rec: ImageReviewData): (r: seq<Submission>)
    ensures |r| == |subs| && SubmissionIds(r) == SubmissionIds(subs)
    ensures SubmissionIndex(subs, submissionId) == -1 ==> r == subs
    ensures forall k :: 0 <= k < |subs| && k != SubmissionIndex(subs, submissionId) ==> r[k] == subs[k]
    ensures var si := SubmissionIndex(subs, submissionId);
            si != -1 ==> r[si] == WithImages(subs[si], BulkImages(subs[si].images, ids, rec))
  {
    var si := SubmissionIndex(subs, submissionId);
    if si == -1 then subs
    else
      var r := subs[si := WithImages(subs[si], BulkImages(subs[si].images, ids, rec))];
      assert SubmissionIds(r) == SubmissionIds(subs);
      r
  }

  /** One more requested id: what the loop body does to the images and to the result list. */
  lemma BulkStep(images: seq<DroneImage>, ids: seq<string>, n: nat, rec: ImageReviewData)
    requires n < |ids|
    ensures var cur := BulkImages(images, ids[..n], rec);
            var ii := ImageIndex(cur, ids[n]);
            && BulkImages(images, ids[..n + 1], rec) == (if ii == -1 then cur else cur[ii := cur[ii].(reviewData := Some(rec))])
            && BulkHits(images, ids[..n + 1], rec) == BulkHits(images, ids[..n], rec) + (if ii == -1 then [] else [cur[ii].(reviewData := Some(rec))])
  {
    BulkImagesStep(images, ids, n, rec);
    BulkHitsStep(images, ids, n, rec);
  }

  lemma BulkImagesStep(images: seq<DroneImage>, ids: seq<string>, n: nat, rec: ImageReviewData)
    requires n < |ids|
    ensures var cur := BulkImages(images, ids[..n], rec);
            var ii := ImageIndex(cur, ids[n]);
            BulkImages(images, ids[..n + 1], rec) == (if ii == -1 then cur else cur[ii := cur[ii].(reviewData := Some(rec))])
  {
    var cur := BulkImages(images, ids[..n], rec);
    var id := ids[n];
    ImageIndexByIds(cur, images, id);
    var ii := ImageIndex(cur, id);
    assert ids[..n + 1] == ids[..n] + [id];
    var next := BulkImages(images, ids[..n + 1], rec);
    var expected := if ii == -1 then cur else cur[ii := cur[ii].(reviewData := Some(rec))];
    forall k | 0 <= k < |images| ensures next[k] == expected[k] {
      if k == ii {
        assert Targeted(images, ids[..n + 1], k);
      } else {
        assert Targeted(images, ids[..n + 1], k) <==> Targeted(images, ids[..n], k);
      }
    }
    assert next == expected;
  }

  lemma BulkHitsStep(images: seq<DroneImage>, ids: seq<string>, n: nat, rec: ImageReviewData)
    requires n < |ids|
    ensures var cur := BulkImages(images, ids[..n], rec);
            var ii := ImageIndex(cur, ids[n]);
            BulkHits(images, ids[..n + 1], rec) == BulkHits(images, ids[..n], rec) + (if ii == -1 then [] else [cur[ii].(reviewData := Some(rec))])
  {
    var cur := BulkImages(images, ids[..n], rec);
    var id := ids[n];
    ImageIndexByIds(cur, images, id);
    var ii := ImageIndex(cur, id);
    assert ids[..n + 1][..n] == ids[..n];
    assert FoundIds(images, ids[..n + 1]) == FoundIds(images, ids[..n]) + (if ii == -1 then [] else [id]);
  }

  /**
   * `updateImageStatus`: overwrite one image's review data, save, recompute
   * the aggregate, and return the updated image; not found leaves the store
   * untouched.
   */
  method UpdateImageStatus(store: Store, submissionId: string, imageId: string, status: ImageReviewStatus,
                           reason: Option<DiscardReason>, comment: Option<string>, now: string)
    returns (r: Option<DroneImage>)
    modifies store
    ensures store.subs == ApplyReview(old(store.subs), submissionId, imageId, ReviewRecord(status, reason, comment, now))
    ensures var si := SubmissionIndex(old(store.subs), submissionId);
            r.None? <==> si == -1 || ImageIndex(old(store.subs)[si].images, imageId) == -1
    ensures r.Some? ==>
              var si := SubmissionIndex(old(store.subs), submissionId);
              r.value == store.subs[si].images[ImageIndex(old(store.subs)[si].images, imageId)]
  {
    var submissions := store.subs;
    var submissionIndex := SubmissionIndex(submissions, submissionId);
    if submissionIndex == -1 {
      return None;
    }
    var imageIndex := ImageIndex(submissions[submissionIndex].images, imageId);
    if imageIndex == -1 {
      return None;
    }
    var rec := ReviewRecord(status, reason, comment, now);
    var img := submissions[submissionIndex].images[imageIndex];
    submissions := ReplaceImage(submissions, submissionIndex, imageIndex, img.(reviewData := Some(rec)));
    store.subs := submissions;
    SubmissionIndexByIds(submissions, old(store.subs), submissionId);
    var _ := store.UpdateSubmissionStatus(submissionId);
    r := Some(submissions[submissionIndex].images[imageIndex]);
  }

  /**
   * `bulkUpdateStatus`: one timestamp for the whole batch, the same
   * overwrite for every requested id that is found, one save and one
   * aggregate recomputation at the end. An unknown submission returns
   * nothing and writes nothing.
   */
  method BulkUpdateStatus(store: Store, submissionId: string, imageIds: seq<string>, status: ImageReviewStatus,
                          reason: Option<DiscardReason>, comment: Option<string>, now: string)
    returns (updatedImages: seq<DroneImage>)
    modifies store
    ensures store.subs == ApplyBulk(old(store.subs), submissionId, imageIds, ReviewRecord(status, reason, comment, now))
    ensures var si := SubmissionIndex(old(store.subs), submissionId);
            updatedImages == if si == -1 then [] else BulkHits(old(store.subs)[si].images, imageIds, ReviewRecord(status, reason, comment, now))
  {
    updatedImages := [];
    var submissions := store.subs;
    var submissionIndex := SubmissionIndex(submissions, submissionId);
    if submissionIndex == -1 {
      return [];
    }
    var timestamp := now;
    var rec := ReviewRecord(status, reason, comment, timestamp);
    // The loop works on the submission's image list, which `bulkUpdateStatus` mutates in place.
    var images := submissions[submissionIndex].images;
    ghost var original := images;
    assert imageIds[..0] == [];
    assert BulkImages(original, [], rec) == original;
    for n := 0 to |imageIds|
      invariant images == BulkImages(original, imageIds[..n], rec)
      invariant updatedImages == BulkHits(original, imageIds[..n], rec)
    {
      BulkStep(original, imageIds, n, rec);
      var imageIndex := ImageIndex(images, imageIds[n]);
      if imageIndex != -1 {
        images := images[imageIndex := images[imageIndex].(reviewData := Some(rec))];
        updatedImages := updatedImages + [images[imageIndex]];
      }
    }
    assert imageIds[..|imageIds|] == imageIds;
    submissions := submissions[submissionIndex := submissions[submissionIndex].(images := images)];
    store.subs := submissions;
    ApplyBulkIsTwoWrites(old(store.subs), submissionId, imageIds, rec);
    var _ := store.UpdateSubmissionStatus(submissionId);
  }

  /** The bulk result is the write of the images followed by the write of the recomputed aggregate. */
  lemma ApplyBulkIsTwoWrites(subs: seq<Submission>, submissionId: string, ids: seq<string>, rec: ImageReviewData)
    requires SubmissionIndex(subs, submissionId) != -1
    ensures var si := SubmissionIndex(subs, submissionId);
            var written := subs[si := subs[si].(images := BulkImages(subs[si].images, ids, rec))];
            && SubmissionIndex(written, submissionId) == si
            && ApplyBulk(subs, submissionId, ids, rec) == written[si := written[si].(status := AggregateStatus(written[si].images))]
  {
    var si := SubmissionIndex(subs, submissionId);
    var written := subs[si := subs[si].(images := BulkImages(subs[si].images, ids, rec))];
    assert SubmissionIds(written) == SubmissionIds(subs);
    SubmissionIndexByIds(written, subs, submissionId);
  }

  /** Icon name of a status (`getStatusIcon`): each icon names one status only. */
  function GetStatusIcon(status: ImageReviewStatus): (r: string)
    ensures r == "schedule" <==> status == PendingReview
    ensures r == "search" <==> status == InAnalysis
    ensures r == "star" <==> status == WorthyOfReview
    ensures r == "help_outline" <==> status == Inconclusive
    ensures r == "close" <==> status == Discarded
  {
    match status
    case PendingReview => "schedule"
    case InAnalysis => "search"
    case WorthyOfReview => "star"
    case Inconclusive => "help_outline"
    case Discarded => "close"
  }

  /** `isReviewed`: every status but pending review. */
  predicate IsReviewed(status: ImageReviewStatus)
    ensures IsReviewed(status) <==> status in {InAnalysis, WorthyOfReview, Inconclusive, Discarded}
  {
    status != PendingReview
  }

  // ---------------------------------------------------------------------
  // Properties
  // ---------------------------------------------------------------------

  /** Each status has its own icon. */
  lemma StatusIconsDistinct(s: ImageReviewStatus, t: ImageReviewStatus)
    requires s != t
    ensures GetStatusIcon(s) != GetStatusIcon(t)
  {
  }

  /** `isReviewed` is the aggregate's test on images that have review data. */
  lemma IsReviewedIsAggregateTest(images: seq<DroneImage>)
    ensures AllReviewed(images) <==>
              forall i :: 0 <= i < |images| && images[i].reviewData.Some? ==> IsReviewed(images[i].reviewData.value.status)
  {
  }

  /**
   * Re-applying a single update with the same arguments at a later time
   * gives the state of applying it once at that time: status, reason and
   * comment are unchanged, only the timestamp moves.
   */
  lemma ApplyReviewIdempotent(subs: seq<Submission>, submissionId: string, imageId: string,
                              status: ImageReviewStatus, reason: Option<DiscardReason>, comment: Option<string>, t1: string, t2: string)
    ensures ApplyReview(ApplyReview(subs, submissionId, imageId, ReviewRecord(status, reason, comment, t1)),
                        submissionId, imageId, ReviewRecord(status, reason, comment, t2))
            == ApplyReview(subs, submissionId, imageId, ReviewRecord(status, reason, comment, t2))
  {
    var once := ApplyReview(subs, submissionId, imageId, ReviewRecord(status, reason, comment, t1));
    var si := SubmissionIndex(subs, submissionId);
    SubmissionIndexByIds(once, subs, submissionId);
    if si != -1 {
      ImageIndexByIds(once[si].images, subs[si].images, imageId);
      var ii := ImageIndex(subs[si].images, imageId);
      if ii != -1 {
        var twice := ApplyReview(once, submissionId, imageId, ReviewRecord(status, reason, comment, t2));
        var direct := ApplyReview(subs, submissionId, imageId, ReviewRecord(status, reason, comment, t2));
        assert twice[si].images == direct[si].images;
        assert twice[si] == direct[si];
        assert twice == direct;
      }
    }
  }

  /** Re-applying a bulk update with the same arguments at a later time equals applying it once then. */
  lemma ApplyBulkIdempotent(subs: seq<Submission>, submissionId: string, ids: seq<string>,
                            status: ImageReviewStatus, reason: Option<DiscardReason>, comment: Option<string>, t1: string, t2: string)
    ensures ApplyBulk(ApplyBulk(subs, submissionId, ids, ReviewRecord(status, reason, comment, t1)),
                      submissionId, ids, ReviewRecord(status, reason, comment, t2))
            == ApplyBulk(subs, submissionId, ids, ReviewRecord(status, reason, comment, t2))
  {
    var r1 := ReviewRecord(status, reason, comment, t1);
    var r2 := ReviewRecord(status, reason, comment, t2);
    var once := ApplyBulk(subs, submissionId, ids, r1);
    var si := SubmissionIndex(subs, submissionId);
    SubmissionIndexByIds(once, subs, submissionId);
    if si != -1 {
      var images := subs[si].images;
      var mid := BulkImages(images, ids, r1);
      forall k | 0 <= k < |images| ensures Targeted(mid, ids, k) <==> Targeted(images, ids, k) {
        ImageIndexByIds(mid, images, images[k].id);
      }
      assert BulkImages(mid, ids, r2) == BulkImages(images, ids, r2);
    }
  }

  /** A requested id that no image has is skipped: it changes neither the images nor the result. */
  lemma BulkSkipsUnknownId(images: seq<DroneImage>, ids: seq<string>, unknown: string, rec: ImageReviewData)
    requires forall i :: 0 <= i < |images| ==> images[i].id != unknown
    ensures BulkImages(images, ids + [unknown], rec) == BulkImages(images, ids, rec)
    ensures BulkHits(images, ids + [unknown], rec) == BulkHits(images, ids, rec)
  {
    var ids' := ids + [unknown];
    assert ids'[..|ids|] == ids;
    BulkStep(images, ids', |ids|, rec);
    ImageIndexByIds(BulkImages(images, ids, rec), images, unknown);
  }

  /** Bulk-updating exactly one found image is the single update. */
  lemma BulkOfOneIsSingle(subs: seq<Submission>, submissionId: string, imageId: string, rec: ImageReviewData)
    requires SubmissionIndex(subs, submissionId) != -1
    requires ImageIndex(subs[SubmissionIndex(subs, submissionId)].images, imageId) != -1
    ensures ApplyBulk(subs, submissionId, [imageId], rec) == ApplyReview(subs, submissionId, imageId, rec)
  {
    var si := SubmissionIndex(subs, submissionId);
    var images := subs[si].images;
    var ii := ImageIndex(images, imageId);
    var updated := images[ii := images[ii].(reviewData := Some(rec))];
    BulkOfOneImage(images, imageId, rec);
    assert ApplyBulk(subs, submissionId, [imageId], rec) == subs[si := WithImages(subs[si], updated)];
  }

  lemma BulkOfOneImage(images: seq<DroneImage>, imageId: string, rec: ImageReviewData)
    requires ImageIndex(images, imageId) != -1
    ensures var ii := ImageIndex(images, imageId);
            BulkImages(images, [imageId], rec) == images[ii := images[ii].(reviewData := Some(rec))]
  {
    assert [imageId][..0] == [];
    BulkImagesStep(images, [imageId], 0, rec);
    assert [imageId][..1] == [imageId];
    assert BulkImages(images, [], rec) == images;
  }

  /** After any single update that found its image, reason and comment are present only for a discard. */
  lemma DiscardFieldsOnlyWhenDiscarded(subs: seq<Submission>, submissionId: string, imageId: string,
                                       status: ImageReviewStatus, reason: Option<DiscardReason>, comment: Option<string>, now: string)
    requires SubmissionIndex(subs, submissionId) != -1
    requires ImageIndex(subs[SubmissionIndex(subs, submissionId)].images, imageId) != -1
    ensures var si := SubmissionIndex(subs, submissionId);
            var ii := ImageIndex(subs[si].images, imageId);
            var data := ApplyReview(subs, submissionId, imageId, ReviewRecord(status, reason, comment, now))[si].images[ii].reviewData;
            && data.Some? && data.value.status == status && data.value.reviewedBy == Some(Reviewer)
            && (status == Discarded ==> data.value.discardReason == reason && data.value.discardComment == comment)
            && (status != Discarded ==> data.value.discardReason.None? && data.value.discardComment.None?)
  {
  }
}
