/**
 * The archaeologist's submission page: image selection, the detail
 * viewer, and the routing of single and bulk discard/mark requests to the
 * review service, each followed by a refresh from the store.
 */
module SubmissionDetail {
  import opened Types
  import opened Lists
  import opened SubmissionService
  import opened ReviewService

  /** The two bulk marks that go through the confirmation dialog. */
  datatype BulkKind = Worthy | InconclusiveMark

  /** A bulk mark awaiting confirmation, over a snapshot of the selection. */
  datatype PendingAction = PendingAction(kind: BulkKind, imageIds: seq<string>)

  /** The status a confirmed bulk mark writes: worthy for "worthy", inconclusive for anything else. */
  function BulkStatus(kind: BulkKind): (r: ImageReviewStatus)
    ensures r == WorthyOfReview <==> kind == Worthy
    ensures r != WorthyOfReview ==> r == Inconclusive
  {
    if kind == Worthy then WorthyOfReview else Inconclusive
  }

  /**
   * `handleImageClick`: with Ctrl or Cmd held, toggle the id (appending it
   * when absent); a plain click selects just that image, or clears the
   * selection when it was already the only one selected.
   */
  function ClickSelection(selected: seq<string>, id: string, modifier: bool): (r: seq<string>)
    ensures modifier ==> (id in r <==> id !in selected) && forall x :: x != id ==> (x in r <==> x in selected)
    ensures modifier && id !in selected ==> r == selected + [id]
    ensures !modifier ==> r == (if selected == [id] then [] else [id])
  {
    if modifier then Toggle(selected, id)
    else if id in selected && |selected| == 1 then []
    else [id]
  }

  /** Where a confirmed discard goes. */
  datatype DiscardRoute = SingleImage(imageId: string) | Selection(imageIds: seq<string>) | Nowhere

  /** `handleConfirmDiscard`'s branch: a single target wins over any selection; an empty selection writes nothing. */
  function RouteDiscard(single: Option<string>, selected: seq<string>): (r: DiscardRoute)
    ensures Truthy(single) ==> r == SingleImage(single.value)
    ensures !Truthy(single) && |selected| > 0 ==> r == Selection(selected)
    ensures !Truthy(single) && |selected| == 0 ==> r == Nowhere
  {
    if Truthy(single) then SingleImage(single.value)
    else if |selected| > 0 then Selection(selected)
    else Nowhere
  }

  /** The store after a routed discard. */
  function StoreAfterDiscard(subs: seq<Submission>, submissionId: string, route: DiscardRoute, rec: ImageReviewData): (r: seq<Submission>)
    ensures route.Nowhere? ==> r == subs
    ensures route.SingleImage? ==> r == ApplyReview(subs, submissionId, route.imageId, rec)
    ensures route.Selection? ==> r == ApplyBulk(subs, submissionId, route.imageIds, rec)
  {
    match route
    case SingleImage(id) => ApplyReview(subs, submissionId, id, rec)
    case Selection(ids) => ApplyBulk(subs, submissionId, ids, rec)
    case Nowhere => subs
  }

  /** All the page's state fields at once. */
  datatype DetailState = DetailState(
    selectedImageIds: seq<string>,
    viewingImage: Option<DroneImage>,
    localSubmission: Submission,
    showDiscardModal: bool,
    showConfirmModal: bool,
    pendingAction: Option<PendingAction>,
    singleDiscardImageId: Option<string>)

  /**
   * `refreshSubmission`: reload the page's submission from the store and,
   * when the viewed image still exists there, its stored version; a
   * submission gone from the store leaves the page as it was.
   */
  function Refreshed(s: DetailState, subs: seq<Submission>): (r: DetailState)
    ensures r.localSubmission.id == s.localSubmission.id
    ensures r.viewingImage.None? <==> s.viewingImage.None?
    ensures s.viewingImage.Some? ==> r.viewingImage.value.id == s.viewingImage.value.id
    ensures r == s.(localSubmission := r.localSubmission, viewingImage := r.viewingImage)
    ensures SubmissionIndex(subs, s.localSubmission.id) == -1 ==> r == s
    ensures SubmissionIndex(subs, s.localSubmission.id) != -1 ==> r.localSubmission == subs[SubmissionIndex(subs, s.localSubmission.id)]
    ensures var i := SubmissionIndex(subs, s.localSubmission.id);
            i != -1 && s.viewingImage.Some? ==>
              var k := ImageIndex(subs[i].images, s.viewingImage.value.id);
              r.viewingImage == (if k != -1 then Some(subs[i].images[k]) else s.viewingImage)
  {
    var i := SubmissionIndex(subs, s.localSubmission.id);
    if i == -1 then s
    else
      var updated := subs[i];
      var viewing :=
        if s.viewingImage.Some? then
          match FindImage(updated.images, s.viewingImage.value.id)
          case Some(img) => Some(img)
          case None => s.viewingImage
        else s.viewingImage;
      s.(localSubmission := updated, viewingImage := viewing)
  }

  class SubmissionDetailPage {
    const store: Store
    var selectedImageIds: seq<string>
    var viewingImage: Option<DroneImage>
    var localSubmission: Submission
    var showDiscardModal: bool
    var showConfirmModal: bool
    var pendingAction: Option<PendingAction>
    var singleDiscardImageId: Option<string>

    function State(): DetailState
      reads this
    {
      DetailState(selectedImageIds, viewingImage, localSubmission, showDiscardModal, showConfirmModal, pendingAction, singleDiscardImageId)
    }

    /** The discard dialog is in bulk mode only with no single target and more than one selected image. */
    function IsBulkDiscard(): (r: bool)
      reads this
      ensures r <==> !Truthy(singleDiscardImageId) && |selectedImageIds| > 1
    {
      !Truthy(singleDiscardImageId) && |selectedImageIds| > 1
    }

    /** The count the discard dialog shows: one for a single target, else the selection size. */
    function DiscardCount(): (r: nat)
      reads this
      ensures Truthy(singleDiscardImageId) ==> r == 1
      ensures !Truthy(singleDiscardImageId) ==> r == |selectedImageIds|
    {
      if Truthy(singleDiscardImageId) then 1 else |selectedImageIds|
    }

    /** The count the confirmation dialog shows: the snapshot's size, or 0 without a pending action. */
    function ConfirmCount(): (r: nat)
      reads this
      ensures pendingAction.None? ==> r == 0
      ensures pendingAction.Some? ==> r == |pendingAction.value.imageIds|
    {
      if pendingAction.Some? then |pendingAction.value.imageIds| else 0
    }

    constructor (store: Store, submission: Submission)
      ensures this.store == store
      ensures State() == DetailState([], None, submission, false, false, None, None)
    {
      this.store := store;
      selectedImageIds := [];
      viewingImage := None;
      localSubmission := submission;
      showDiscardModal := false;
      showConfirmModal := false;
      pendingAction := None;
      singleDiscardImageId := None;
    }

    method HandleImageClick(imageId: string, modifier: bool)
      modifies this
      ensures State() == old(State()).(selectedImageIds := ClickSelection(old(selectedImageIds), imageId, modifier))
    {
      selectedImageIds := ClickSelection(selectedImageIds, imageId, modifier);
    }

    method HandleViewImage(image: DroneImage)
      modifies this
      ensures State() == old(State()).(viewingImage := Some(image))
    {
      viewingImage := Some(image);
    }

    method HandleCloseViewer()
      modifies this
      ensures State() == old(State()).(viewingImage := None)
    {
      viewingImage := None;
    }

    method HandleClearSelection()
      modifies this
      ensures State() == old(State()).(selectedImageIds := [])
    {
      selectedImageIds := [];
    }

    method RefreshSubmission()
      modifies this
      ensures State() == Refreshed(old(State()), store.subs)
    {
      var updated := store.GetSubmissionById(localSubmission.id);
      if updated.Some? {
        localSubmission := updated.value;
        if viewingImage.Some? {
          var updatedImage := FindImage(updated.value.images, viewingImage.value.id);
          if updatedImage.Some? {
            viewingImage := updatedImage;
          }
        }
      }
    }

    /** A status change from the viewer: no reason or comment, then refresh. */
    method HandleStatusChange(imageId: string, status: ImageReviewStatus, now: string)
      modifies this, store
      ensures store.subs == ApplyReview(old(store.subs), old(localSubmission).id, imageId, ReviewRecord(status, None, None, now))
      ensures State() == Refreshed(old(State()), store.subs)
    {
      var _ := UpdateImageStatus(store, localSubmission.id, imageId, status, None, None, now);
      RefreshSubmission();
    }

    /** The viewer's discard button: remember the one image and open the dialog. */
    method HandleDiscardSingle(imageId: string)
      modifies this
      ensures State() == old(State()).(singleDiscardImageId := Some(imageId), showDiscardModal := true)
    {
      singleDiscardImageId := Some(imageId);
      showDiscardModal := true;
    }

    /**
     * `handleConfirmDiscard`: discard the single target, or else the whole
     * selection (which is then cleared); either way forget the target,
     * close the dialog and refresh.
     */
    method HandleConfirmDiscard(reason: DiscardReason, comment: Option<string>, now: string)
      modifies this, store
      ensures var route := RouteDiscard(old(singleDiscardImageId), old(selectedImageIds));
              store.subs == StoreAfterDiscard(old(store.subs), old(localSubmission).id, route, ReviewRecord(Discarded, Some(reason), comment, now))
      ensures var route := RouteDiscard(old(singleDiscardImageId), old(selectedImageIds));
              State() == Refreshed(old(State()).(selectedImageIds := if route.Selection? then [] else old(selectedImageIds),
                                                 singleDiscardImageId := None, showDiscardModal := false),
                                   store.subs)
    {
      if Truthy(singleDiscardImageId) {
        var _ := UpdateImageStatus(store, localSubmission.id, singleDiscardImageId.value, Discarded, Some(reason), comment, now);
      } else if |selectedImageIds| > 0 {
        var _ := BulkUpdateStatus(store, localSubmission.id, selectedImageIds, Discarded, Some(reason), comment, now);
        selectedImageIds := [];
      }
      singleDiscardImageId := None;
      showDiscardModal := false;
      RefreshSubmission();
    }

    /** The bulk toolbar's marks: snapshot the selection and ask for confirmation. */
    method HandleBulkMark(kind: BulkKind)
      modifies this
      ensures State() == old(State()).(pendingAction := Some(PendingAction(kind, old(selectedImageIds))), showConfirmModal := true)
    {
      pendingAction := Some(PendingAction(kind, selectedImageIds));
      showConfirmModal := true;
    }

    /** The bulk toolbar's discard: open the dialog, without touching the single target. */
    method HandleBulkDiscard()
      modifies this
      ensures State() == old(State()).(showDiscardModal := true)
    {
      showDiscardModal := true;
    }

    /**
     * `handleConfirmBulkAction`: apply the pending mark to its snapshot,
     * clear selection and pending action, close the dialog and refresh;
     * with nothing pending, do nothing at all.
     */
    method HandleConfirmBulkAction(now: string)
      modifies this, store
      ensures old(pendingAction).None? ==> store.subs == old(store.subs) && State() == old(State())
      ensures old(pendingAction).Some? ==>
                var p := old(pendingAction).value;
                && store.subs == ApplyBulk(old(store.subs), old(localSubmission).id, p.imageIds, ReviewRecord(BulkStatus(p.kind), None, None, now))
                && State() == Refreshed(old(State()).(selectedImageIds := [], pendingAction := None, showConfirmModal := false), store.subs)
    {
      if pendingAction.Some? {
        var status := BulkStatus(pendingAction.value.kind);
        var _ := BulkUpdateStatus(store, localSubmission.id, pendingAction.value.imageIds, status, None, None, now);
        selectedImageIds := [];
        pendingAction := None;
        showConfirmModal := false;
        RefreshSubmission();
      }
    }

    /** Cancelling the discard dialog closes it and forgets the single target. */
    method HandleCancelDiscard()
      modifies this
      ensures State() == old(State()).(showDiscardModal := false, singleDiscardImageId := None)
    {
      showDiscardModal := false;
      singleDiscardImageId := None;
    }

    /** Cancelling the confirmation closes it and drops the pending action. */
    method HandleCancelConfirm()
      modifies this
      ensures State() == old(State()).(showConfirmModal := false, pendingAction := None)
    {
      showConfirmModal := false;
      pendingAction := None;
    }

    /** `handleNavigateImage`: view the page's image with that id, if there is one. */
    method HandleNavigateImage(imageId: string)
      modifies this
      ensures FindImage(old(localSubmission).images, imageId).None? ==> State() == old(State())
      ensures FindImage(old(localSubmission).images, imageId).Some? ==>
                State() == old(State()).(viewingImage := FindImage(old(localSubmission).images, imageId))
    {
      var image := FindImage(localSubmission.images, imageId);
      if image.Some? {
        viewingImage := image;
      }
    }
  }

  // ---------------------------------------------------------------------
  // Properties
  // ---------------------------------------------------------------------

  /** Two modifier clicks on an unselected image give the selection back exactly. */
  lemma ModifierClickTwiceRestores(selected: seq<string>, id: string)
    requires id !in selected
    ensures ClickSelection(ClickSelection(selected, id, true), id, true) == selected
  {
    WithoutOne(selected, [], id);
    assert selected + [id] + [] == selected + [id];
  }

  /** A modifier click on a selected image removes it and keeps the rest in order. */
  lemma ModifierClickRemovesInOrder(a: seq<string>, b: seq<string>, id: string)
    requires id !in a && id !in b
    ensures ClickSelection(a + [id] + b, id, true) == a + b
  {
    WithoutOne(a, b, id);
  }

  /** Two plain clicks on the same image leave nothing selected, unless it was the only selected image. */
  lemma PlainClickTwice(selected: seq<string>, id: string)
    ensures selected != [id] ==> ClickSelection(ClickSelection(selected, id, false), id, false) == []
    ensures ClickSelection(ClickSelection([id], id, false), id, false) == [id]
  {
  }

  /** Refreshing twice against the same store is refreshing once. */
  lemma RefreshIdempotent(s: DetailState, subs: seq<Submission>)
    ensures Refreshed(Refreshed(s, subs), subs) == Refreshed(s, subs)
  {
    var i := SubmissionIndex(subs, s.localSubmission.id);
    if i != -1 && s.viewingImage.Some? {
      var updated := subs[i];
      var once := Refreshed(s, subs);
      var found := FindImage(updated.images, s.viewingImage.value.id);
      assert found.Some? ==> FindImage(updated.images, found.value.id) == found;
    }
  }

  /** A single discard with a selection present leaves the selection as it was; the store gets the single update only. */
  lemma SingleTargetWins(single: string, selected: seq<string>, subs: seq<Submission>, submissionId: string, rec: ImageReviewData)
    requires single != ""
    ensures StoreAfterDiscard(subs, submissionId, RouteDiscard(Some(single), selected), rec) == ApplyReview(subs, submissionId, single, rec)
  {
  }
}
