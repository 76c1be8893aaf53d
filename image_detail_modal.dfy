/**
 * The image detail dialog: position of the shown image in the list,
 * previous/next navigation and its keyboard dispatch, the displayed
 * status with its action buttons, and the analysis-in-progress flag.
 */
module ImageDetailModal {
  import opened Types
  import opened SubmissionService
  import opened ReviewService

  /** `currentIndex`: the first position of the shown image's id, or -1 with no image or an id not in the list. */
  function CurrentIndex(image: Option<DroneImage>, images: seq<DroneImage>): (r: int)
    ensures -1 <= r < |images|
    ensures image.None? ==> r == -1
    ensures image.Some? ==> r == ImageIndex(images, image.value.id)
    ensures 0 <= r ==> image.Some? && images[r].id == image.value.id && forall j :: 0 <= j < r ==> images[j].id != image.value.id
  {
    if image.Some? then ImageIndex(images, image.value.id) else -1
  }

  /** `hasPrev`: a previous position exists; an image not in the list (-1) has none. */
  predicate HasPrev(index: int)
    ensures HasPrev(index) ==> 0 <= index - 1
    ensures index == -1 ==> !HasPrev(index)
  {
    index > 0
  }

  /**
   * `hasNext`: for a listed image, the next position is inside the list;
   * an image not in the list (-1) has a "next" whenever the list is not
   * empty, since -1 is below every non-negative last index.
   */
  predicate HasNext(index: int, count: nat)
    ensures 0 <= index ==> (HasNext(index, count) <==> index + 1 < count)
    ensures index == -1 ==> (HasNext(index, count) <==> count > 0)
  {
    index < count - 1
  }

  /** `handlePrev`: the id to navigate to, only when there is a previous image. */
  function PrevTarget(image: Option<DroneImage>, images: seq<DroneImage>): (r: Option<string>)
    ensures r.Some? <==> HasPrev(CurrentIndex(image, images))
    ensures r.Some? ==> r.value == images[CurrentIndex(image, images) - 1].id
  {
    var i := CurrentIndex(image, images);
    if HasPrev(i) then Some(images[i - 1].id) else None
  }

  /** `handleNext`: the id to navigate to, only when there is a next image. */
  function NextTarget(image: Option<DroneImage>, images: seq<DroneImage>): (r: Option<string>)
    ensures r.Some? <==> HasNext(CurrentIndex(image, images), |images|)
    ensures r.Some? ==> r.value == images[CurrentIndex(image, images) + 1].id
  {
    var i := CurrentIndex(image, images);
    if HasNext(i, |images|) then Some(images[i + 1].id) else None
  }

  /** What a key press does. */
  datatype KeyAction = Ignored | CloseModal | NavigateTo(id: string)

  function TargetAction(target: Option<string>): KeyAction {
    if target.Some? then NavigateTo(target.value) else Ignored
  }

  /** `handleKeyDown`: nothing while closed; Escape closes, the arrows step back and forth. */
  function KeyDown(isOpen: bool, key: string, image: Option<DroneImage>, images: seq<DroneImage>): (r: KeyAction)
    ensures !isOpen ==> r == Ignored
    ensures isOpen && key == "Escape" ==> r == CloseModal
    ensures isOpen && key == "ArrowLeft" ==> r == TargetAction(PrevTarget(image, images))
    ensures isOpen && key == "ArrowRight" ==> r == TargetAction(NextTarget(image, images))
    ensures key != "Escape" && key != "ArrowLeft" && key != "ArrowRight" ==> r == Ignored
  {
    if !isOpen then Ignored
    else if key == "Escape" then CloseModal
    else if key == "ArrowLeft" then TargetAction(PrevTarget(image, images))
    else if key == "ArrowRight" then TargetAction(NextTarget(image, images))
    else Ignored
  }

  /** The four action buttons. */
  datatype Action = MarkWorthy | MarkInconclusive | MarkInAnalysis | DiscardImage

  /** The status an action leads to. */
  function ActionStatus(a: Action): ImageReviewStatus {
    match a
    case MarkWorthy => WorthyOfReview
    case MarkInconclusive => Inconclusive
    case MarkInAnalysis => InAnalysis
    case DiscardImage => Discarded
  }

  /**
   * A button is disabled when the image already has the status it leads
   * to; no button leads to pending review, so a pending image has all
   * four enabled.
   */
  predicate ActionDisabled(img: DroneImage, a: Action)
    ensures ActionDisabled(img, a) ==> EffectiveStatus(img) != PendingReview
  {
    EffectiveStatus(img) == ActionStatus(a)
  }

  /** What an enabled button asks the parent for. */
  datatype Request = StatusChange(imageId: string, status: ImageReviewStatus) | DiscardRequest(imageId: string)

  /** Pressing a button: nothing when it is disabled; discarding goes through the discard dialog. */
  function Press(img: DroneImage, a: Action): (r: Option<Request>)
    ensures r.None? <==> ActionDisabled(img, a)
    ensures r.Some? && a == DiscardImage ==> r.value == DiscardRequest(img.id)
    ensures r.Some? && a != DiscardImage ==> r.value == StatusChange(img.id, ActionStatus(a)) && r.value.status != EffectiveStatus(img)
  {
    if ActionDisabled(img, a) then None
    else if a == DiscardImage then Some(DiscardRequest(img.id))
    else Some(StatusChange(img.id, ActionStatus(a)))
  }

  /** The discard box shows for a discarded image that records a reason. */
  predicate ShowsDiscardDetails(img: DroneImage)
    ensures ShowsDiscardDetails(img) ==> img.reviewData.Some? && img.reviewData.value.status == Discarded
  {
    EffectiveStatus(img) == Discarded && img.reviewData.Some? && img.reviewData.value.discardReason.Some?
  }

  /** Within it, the comment line shows only for a non-empty comment. */
  predicate ShowsDiscardComment(img: DroneImage)
    ensures ShowsDiscardComment(img) ==> ShowsDiscardDetails(img) && Truthy(img.reviewData.value.discardComment)
  {
    ShowsDiscardDetails(img) && img.reviewData.value.discardComment.Some? && img.reviewData.value.discardComment.value != ""
  }

  /**
   * After a review is recorded, the discard box shows exactly when the new
   * status is discarded with a reason, and its comment line exactly when a
   * non-empty comment went with it; a status other than discarded hides
   * both, since the record then keeps neither reason nor comment.
   */
  lemma DiscardDetailsAfterReview(img: DroneImage, status: ImageReviewStatus, reason: Option<DiscardReason>, comment: Option<string>, at: string)
    ensures ShowsDiscardDetails(img.(reviewData := Some(ReviewRecord(status, reason, comment, at)))) <==> status == Discarded && reason.Some?
    ensures ShowsDiscardComment(img.(reviewData := Some(ReviewRecord(status, reason, comment, at)))) <==> status == Discarded && reason.Some? && Truthy(comment)
  {
  }

  /** The confidence bar colour: above 70, above 40, otherwise. */
  datatype ConfidenceBand = High | Medium | Low

  function Band(confidence: real): (r: ConfidenceBand)
    ensures r == High <==> confidence > 70.0
    ensures r == Medium <==> 40.0 < confidence <= 70.0
    ensures r == Low <==> confidence <= 40.0
  {
    if confidence > 70.0 then High else if confidence > 40.0 then Medium else Low
  }

  /** The analysis button's busy flag. */
  class AnalysisControl {
    var isAnalyzing: bool

    constructor ()
      ensures !isAnalyzing
    {
      isAnalyzing := false;
    }

    /** Pressing the button raises the flag before the analysis starts. */
    method StartAnalysis()
      modifies this
      ensures isAnalyzing
    {
      isAnalyzing := true;
    }

    /**
     * The `finally` block: `failed` says whether the analysis threw, and
     * the flag drops either way, so the contract does not mention it.
     */
    method FinishAnalysis(failed: bool)
      modifies this
      ensures !isAnalyzing
    {
      isAnalyzing := false;
    }
  }

  // ---------------------------------------------------------------------
  // Properties
  // ---------------------------------------------------------------------

  /**
   * With no shown image, or one whose id is not in the list, the index is
   * -1: "previous" is off, while "next" lands on the first image of any
   * non-empty list.
   */
  lemma UnknownImageNextIsFirst(image: Option<DroneImage>, images: seq<DroneImage>)
    requires image.None? || forall i :: 0 <= i < |images| ==> images[i].id != image.value.id
    ensures PrevTarget(image, images).None?
    ensures |images| > 0 ==> NextTarget(image, images) == Some(images[0].id)
    ensures |images| == 0 ==> NextTarget(image, images).None?
  {
  }

  /** Stepping next and then previous (or the reverse) returns to the same position, when ids are distinct. */
  lemma NextThenPrev(images: seq<DroneImage>, i: nat)
    requires i + 1 < |images|
    requires forall a, b :: 0 <= a < b < |images| ==> images[a].id != images[b].id
    ensures NextTarget(Some(images[i]), images) == Some(images[i + 1].id)
    ensures PrevTarget(Some(images[i + 1]), images) == Some(images[i].id)
  {
    assert CurrentIndex(Some(images[i]), images) == i;
    assert CurrentIndex(Some(images[i + 1]), images) == i + 1;
  }

  /** At the ends of the list there is nowhere further to go. */
  lemma EndsStop(images: seq<DroneImage>)
    requires |images| > 0
    requires forall a, b :: 0 <= a < b < |images| ==> images[a].id != images[b].id
    ensures PrevTarget(Some(images[0]), images).None?
    ensures NextTarget(Some(images[|images| - 1]), images).None?
  {
    assert CurrentIndex(Some(images[|images| - 1]), images) == |images| - 1;
  }

  /** An image without review data is shown as pending; otherwise its recorded status is shown. */
  lemma DisplayedStatusDefault(img: DroneImage)
    ensures img.reviewData.None? ==> EffectiveStatus(img) == PendingReview
    ensures img.reviewData.Some? ==> EffectiveStatus(img) == img.reviewData.value.status
  {
  }

  /** A pending image has every button enabled; any other image has exactly one disabled, the one for its status. */
  lemma ExactlyOneDisabledUnlessPending(img: DroneImage)
    ensures EffectiveStatus(img) == PendingReview ==> forall a: Action :: !ActionDisabled(img, a)
    ensures EffectiveStatus(img) != PendingReview ==>
              exists a: Action :: ActionDisabled(img, a) && forall b: Action :: b != a ==> !ActionDisabled(img, b)
  {
    match EffectiveStatus(img)
    case PendingReview =>
    case WorthyOfReview => assert ActionDisabled(img, MarkWorthy);
    case Inconclusive => assert ActionDisabled(img, MarkInconclusive);
    case InAnalysis => assert ActionDisabled(img, MarkInAnalysis);
    case Discarded => assert ActionDisabled(img, DiscardImage);
  }
}
