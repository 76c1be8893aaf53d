/**
 * The pilot's editor: the uploaded images, the selection, the metadata
 * form with its common-value display, the AI analysis of the selection,
 * deletion with reselection, the validity gate, reset and submission.
 */
module PilotEditor {
  import opened Types
  import opened Lists
  import opened SubmissionService

  /** The pilot's three screens. */
  datatype View = Upload | Editor | Success

  /** The test `img => selectedImageIds.includes(img.id)`. */
  function IsSelectedIn(selected: seq<string>): DroneImage -> bool {
    (img: DroneImage) => img.id in selected
  }

  /** The test `img => img.id !== id`. */
  function HasOtherId(id: string): DroneImage -> bool {
    (img: DroneImage) => img.id != id
  }

  /** `images.filter(img => selectedImageIds.includes(img.id))`: the selected images in list order. */
  function SelectedImages(images: seq<DroneImage>, selected: seq<string>): (r: seq<DroneImage>)
    ensures |r| <= |images|
    ensures forall img :: img in r <==> img in images && img.id in selected
  {
    Filter(images, IsSelectedIn(selected))
  }

  /** `toggleSelection`: a multi-click toggles the id (appending when absent), a plain click selects only it. */
  function ToggledSelection(selected: seq<string>, id: string, multi: bool): (r: seq<string>)
    ensures multi ==> (id in r <==> id !in selected) && forall x :: x != id ==> (x in r <==> x in selected)
    ensures multi && id !in selected ==> r == selected + [id]
    ensures !multi ==> r == [id]
  {
    if multi then Toggle(selected, id) else [id]
  }

  // ---------------------------------------------------------------------
  // Metadata editing
  // ---------------------------------------------------------------------

  /** One metadata field set to one value (`updateMetadata(key, value)` and `updateSelectedCoordinates`). */
  datatype MetadataUpdate =
    | SetDate(date: string)
    | SetTime(time: string)
    | SetAltitude(altitude: real)
    | SetDroneModel(droneModel: string)
    | SetCoordinates(coordinates: Coordinates)

  /** `{ ...metadata, [key]: value }`. */
  function Updated(m: Metadata, u: MetadataUpdate): (r: Metadata)
    ensures u.SetDate? ==> r == m.(date := u.date)
    ensures u.SetTime? ==> r == m.(time := u.time)
    ensures u.SetAltitude? ==> r == m.(altitude := u.altitude)
    ensures u.SetDroneModel? ==> r == m.(droneModel := u.droneModel)
    ensures u.SetCoordinates? ==> r == m.(coordinates := u.coordinates)
  {
    match u
    case SetDate(d) => m.(date := d)
    case SetTime(t) => m.(time := t)
    case SetAltitude(a) => m.(altitude := a)
    case SetDroneModel(d) => m.(droneModel := d)
    case SetCoordinates(c) => m.(coordinates := c)
  }

  /** The images after a form edit: selected images get the field, the others are untouched, order kept. */
  function UpdateSelected(images: seq<DroneImage>, selected: seq<string>, u: MetadataUpdate): (r: seq<DroneImage>)
    ensures |r| == |images| && ImageIds(r) == ImageIds(images)
    ensures forall i :: 0 <= i < |images| && images[i].id in selected ==> r[i] == images[i].(metadata := Updated(images[i].metadata, u))
    ensures forall i :: 0 <= i < |images| && images[i].id !in selected ==> r[i] == images[i]
  {
    seq(|images|, i requires 0 <= i < |images| =>
      if images[i].id in selected then images[i].(metadata := Updated(images[i].metadata, u)) else images[i])
  }

  /** The scalar form fields. */
  datatype Field = DateField | TimeField | AltitudeField | DroneModelField

  /** A form value: the `string | number` the getters return. */
  datatype FieldValue = Text(text: string) | Number(number: real)

  function FieldOf(m: Metadata, f: Field): FieldValue {
    match f
    case DateField => Text(m.date)
    case TimeField => Text(m.time)
    case AltitudeField => Number(m.altitude)
    case DroneModelField => Text(m.droneModel)
  }

  /** The field and value an update writes, for the scalar fields. */
  function UpdateField(u: MetadataUpdate): Field
    requires !u.SetCoordinates?
  {
    match u
    case SetDate(_) => DateField
    case SetTime(_) => TimeField
    case SetAltitude(_) => AltitudeField
    case SetDroneModel(_) => DroneModelField
  }

  function UpdateValue(u: MetadataUpdate): FieldValue
    requires !u.SetCoordinates?
  {
    match u
    case SetDate(d) => Text(d)
    case SetTime(t) => Text(t)
    case SetAltitude(a) => Number(a)
    case SetDroneModel(d) => Text(d)
  }

  /** Whether all the images agree on a field. */
  predicate AllShare(images: seq<DroneImage>, f: Field, v: FieldValue) {
    forall i :: 0 <= i < |images| ==> FieldOf(images[i].metadata, f) == v
  }

  /** `getCommonValue`: the first image's value when every selected image shares it, otherwise `''`. */
  function CommonValue(selectedImages: seq<DroneImage>, f: Field): (r: FieldValue)
    ensures |selectedImages| == 0 ==> r == Text("")
    ensures |selectedImages| > 0 && AllShare(selectedImages, f, FieldOf(selectedImages[0].metadata, f)) ==> r == FieldOf(selectedImages[0].metadata, f)
    ensures |selectedImages| > 0 && !AllShare(selectedImages, f, FieldOf(selectedImages[0].metadata, f)) ==> r == Text("")
  {
    if |selectedImages| == 0 then Text("")
    else
      var first := FieldOf(selectedImages[0].metadata, f);
      if AllShare(selectedImages, f, first) then first else Text("")
  }

  datatype Axis = Lat | Lng

  function AxisOf(c: Coordinates, a: Axis): real {
    if a == Lat then c.lat else c.lng
  }

  predicate AllShareAxis(images: seq<DroneImage>, a: Axis, x: real) {
    forall i :: 0 <= i < |images| ==> AxisOf(images[i].metadata.coordinates, a) == x
  }

  /** `getCommonCoordinate`: the shared latitude (or longitude) of the selection, otherwise `''`. */
  function CommonCoordinate(selectedImages: seq<DroneImage>, a: Axis): (r: FieldValue)
    ensures |selectedImages| == 0 ==> r == Text("")
    ensures |selectedImages| > 0 ==>
              var first := AxisOf(selectedImages[0].metadata.coordinates, a);
              r == if AllShareAxis(selectedImages, a, first) then Number(first) else Text("")
  {
    if |selectedImages| == 0 then Text("")
    else
      var first := AxisOf(selectedImages[0].metadata.coordinates, a);
      if AllShareAxis(selectedImages, a, first) then Number(first) else Text("")
  }

  /** `parseFloat(String(common) || '0')`: a shared number reads back as itself, a blank as zero. */
  function NumberOrZero(v: FieldValue): (r: real)
    ensures v.Number? ==> r == v.number
    ensures v.Text? ==> r == 0.0
  {
    match v
    case Number(x) => x
    case Text(_) => 0.0
  }

  /** `areAllImagesValid`: at least one image, and every image has a non-zero latitude and longitude. */
  predicate AreAllImagesValid(images: seq<DroneImage>)
    ensures AreAllImagesValid(images) <==> images != [] && forall img :: img in images ==> img.metadata.coordinates.lat != 0.0 && img.metadata.coordinates.lng != 0.0
  {
    |images| > 0 && forall i :: 0 <= i < |images| ==> images[i].metadata.coordinates.lat != 0.0 && images[i].metadata.coordinates.lng != 0.0
  }

  // ---------------------------------------------------------------------
  // Deletion
  // ---------------------------------------------------------------------

  /** `images.filter(img => img.id !== id)`. */
  function RemainingImages(images: seq<DroneImage>, id: string): (r: seq<DroneImage>)
    ensures forall img :: img in r <==> img in images && img.id != id
    ensures |r| == |images| <==> forall i :: 0 <= i < |images| ==> images[i].id != id
  {
    Filter(images, HasOtherId(id))
  }

  /**
   * The selection after deleting `id`: the id leaves it; when the deleted
   * image was selected and nothing else is, the first remaining image is
   * selected instead (if there is one).
   */
  function SelectionAfterDelete(selected: seq<string>, images: seq<DroneImage>, id: string): (r: seq<string>)
    ensures id !in r
    ensures id !in selected ==> r == selected
    ensures forall x :: x != id && x in selected ==> x in r
    ensures id in selected && |Without(selected, id)| == 0 && |RemainingImages(images, id)| > 0 ==>
              r == [RemainingImages(images, id)[0].id]
    ensures !(id in selected && |Without(selected, id)| == 0 && |RemainingImages(images, id)| > 0) ==>
              r == Without(selected, id)
  {
    var newSelection := Without(selected, id);
    if id in selected && |newSelection| == 0 then
      var remaining := RemainingImages(images, id);
      if |remaining| > 0 then
        assert remaining[0] in remaining;
        [remaining[0].id]
      else newSelection
    else newSelection
  }

  // ---------------------------------------------------------------------
  // AI analysis of the selection
  // ---------------------------------------------------------------------

  /**
   * One iteration of the analysis loop: a failed analysis (`None`, the
   * thrown error) is skipped; a result is stored on the first image with
   * that id.
   */
  function AnalysisStep(current: seq<DroneImage>, img: DroneImage, analyze: DroneImage -> Option<AIAnalysisResult>): (r: seq<DroneImage>)
    ensures |r| == |current| && ImageIds(r) == ImageIds(current)
  {
    var result := analyze(img);
    if result.None? then current
    else
      var index := ImageIndex(current, img.id);
      if index == -1 then current
      else
        var r := current[index := current[index].(aiAnalysis := result)];
        assert ImageIds(r) == ImageIds(current);
        r
  }

  /** The loop over the images to analyse, in order. */
  function ApplyAnalyses(current: seq<DroneImage>, todo: seq<DroneImage>, analyze: DroneImage -> Option<AIAnalysisResult>): (r: seq<DroneImage>)
    ensures |r| == |current| && ImageIds(r) == ImageIds(current)
    decreases |todo|
  {
    if |todo| == 0 then current
    else AnalysisStep(ApplyAnalyses(current, todo[..|todo| - 1], analyze), todo[|todo| - 1], analyze)
  }

  /** An image as the analysis leaves it: a selected image with a successful analysis carries its result. */
  function Analysed(img: DroneImage, selected: seq<string>, analyze: DroneImage -> Option<AIAnalysisResult>): DroneImage {
    if img.id in selected && analyze(img).Some? then img.(aiAnalysis := analyze(img)) else img
  }

  // ---------------------------------------------------------------------
  // The editor
  // ---------------------------------------------------------------------

  /** All the editor's state fields at once. */
  datatype EditorState = EditorState(
    view: View,
    images: seq<DroneImage>,
    selectedImageIds: seq<string>,
    searchAddress: string,
    isAnalyzing: bool,
    isUploading: bool)

  class PilotApp {
    var view: View
    var images: seq<DroneImage>
    var selectedImageIds: seq<string>
    var searchAddress: string
    var isAnalyzing: bool
    var isUploading: bool

    function State(): EditorState
      reads this
    {
      EditorState(view, images, selectedImageIds, searchAddress, isAnalyzing, isUploading)
    }

    /** A fresh editor (nothing restored from the browser's storage). */
    constructor ()
      ensures State() == EditorState(Upload, [], [], "", false, false)
    {
      view := Upload;
      images := [];
      selectedImageIds := [];
      searchAddress := "";
      isAnalyzing := false;
      isUploading := false;
    }

    /**
     * `handleFileUpload`, after the EXIF extraction: the new images go
     * after the existing ones; from the upload screen it moves to the
     * editor and selects the first new image. No file list, no change;
     * from an idle editor a failed extraction ends the same way, its
     * `catch` and `finally` leaving the state as it was.
     */
    method HandleFileUpload(files: Option<seq<DroneImage>>)
      modifies this
      ensures files.None? ==> State() == old(State())
      ensures files.Some? ==>
                var newImages := files.value;
                State() == old(State()).(
                  images := old(images) + newImages,
                  view := if old(view) == Upload then Editor else old(view),
                  selectedImageIds := if old(view) == Upload && |newImages| > 0 then [newImages[0].id] else old(selectedImageIds),
                  isUploading := false)
    {
      if files.Some? {
        isUploading := true;
        var newImages := files.value;
        images := images + newImages;
        if view == Upload {
          view := Editor;
          if |newImages| > 0 {
            selectedImageIds := [newImages[0].id];
          }
        }
        isUploading := false;
      }
    }

    method ToggleSelection(id: string, multi: bool)
      modifies this
      ensures State() == old(State()).(selectedImageIds := ToggledSelection(old(selectedImageIds), id, multi))
    {
      selectedImageIds := ToggledSelection(selectedImageIds, id, multi);
    }

    /** `updateMetadata` / `updateSelectedCoordinates`: write one field of every selected image. */
    method UpdateMetadata(u: MetadataUpdate)
      modifies this
      ensures State() == old(State()).(images := UpdateSelected(old(images), old(selectedImageIds), u))
    {
      images := UpdateSelected(images, selectedImageIds, u);
    }

    /**
     * The latitude input: a number that parses (`Some`) is written together
     * with the selection's common longitude, which is zero when the
     * selected longitudes differ.
     */
    method EditLatitude(value: Option<real>)
      modifies this
      ensures value.None? ==> State() == old(State())
      ensures value.Some? ==>
                var lng := NumberOrZero(CommonCoordinate(SelectedImages(old(images), old(selectedImageIds)), Lng));
                State() == old(State()).(images := UpdateSelected(old(images), old(selectedImageIds), SetCoordinates(Coordinates(value.value, lng))))
    {
      if value.Some? {
        var lng := NumberOrZero(CommonCoordinate(SelectedImages(images, selectedImageIds), Lng));
        UpdateMetadata(SetCoordinates(Coordinates(value.value, lng)));
      }
    }

    /** The longitude input, symmetric to the latitude one. */
    method EditLongitude(value: Option<real>)
      modifies this
      ensures value.None? ==> State() == old(State())
      ensures value.Some? ==>
                var lat := NumberOrZero(CommonCoordinate(SelectedImages(old(images), old(selectedImageIds)), Lat));
                State() == old(State()).(images := UpdateSelected(old(images), old(selectedImageIds), SetCoordinates(Coordinates(lat, value.value))))
    {
      if value.Some? {
        var lat := NumberOrZero(CommonCoordinate(SelectedImages(images, selectedImageIds), Lat));
        UpdateMetadata(SetCoordinates(Coordinates(lat, value.value)));
      }
    }

    /**
     * `runAIAnalysis`, behind its button (disabled while an analysis runs
     * or with nothing selected): analyse each selected image in list order
     * and store each result on a copy of the list, then write the copy.
     */
    method RunAIAnalysis(analyze: DroneImage -> Option<AIAnalysisResult>)
      modifies this
      ensures old(isAnalyzing) || |old(selectedImageIds)| == 0 ==> State() == old(State())
      ensures !old(isAnalyzing) && |old(selectedImageIds)| > 0 ==>
                State() == old(State()).(images := ApplyAnalyses(old(images), SelectedImages(old(images), old(selectedImageIds)), analyze))
    {
      if isAnalyzing || |selectedImageIds| == 0 {
        return;
      }
      isAnalyzing := true;
      var current := images;
      var imagesToAnalyze := Filter(current, IsSelectedIn(selectedImageIds));
      var updatedImages := current;
      for k := 0 to |imagesToAnalyze|
        invariant updatedImages == ApplyAnalyses(current, imagesToAnalyze[..k], analyze)
        invariant State() == old(State()).(isAnalyzing := true)
      {
        assert imagesToAnalyze[..k + 1][..k] == imagesToAnalyze[..k];
        var img := imagesToAnalyze[k];
        ghost var before := updatedImages;
        var result := analyze(img);
        if result.Some? {
          var index := ImageIndex(updatedImages, img.id);
          if index != -1 {
            updatedImages := updatedImages[index := updatedImages[index].(aiAnalysis := result)];
          }
        }
        assert updatedImages == AnalysisStep(before, img, analyze);
      }
      assert imagesToAnalyze[..|imagesToAnalyze|] == imagesToAnalyze;
      images := updatedImages;
      isAnalyzing := false;
    }

    /** `handleReset`: back to an empty upload screen. */
    method HandleReset()
      modifies this
      ensures State() == EditorState(Upload, [], [], "", false, old(isUploading))
    {
      images := [];
      selectedImageIds := [];
      searchAddress := "";
      isAnalyzing := false;
      view := Upload;
    }

    /** `handleDeleteImage`: drop every image with the id, back to upload when none is left, and fix the selection. */
    method HandleDeleteImage(id: string)
      modifies this
      ensures var remaining := RemainingImages(old(images), id);
              State() == old(State()).(
                images := remaining,
                view := if |remaining| == 0 then Upload else old(view),
                selectedImageIds := SelectionAfterDelete(old(selectedImageIds), old(images), id))
    {
      var newImages := RemainingImages(images, id);
      if |newImages| == 0 {
        view := Upload;
      }
      var newSelection := SelectionAfterDelete(selectedImageIds, images, id);
      images := newImages;
      selectedImageIds := newSelection;
    }

    /**
     * `handleSubmit`, behind its button (enabled only when every image is
     * located): create the submission from the images and show the
     * success screen. A rejected creation is not caught, so the view stays
     * as it was. The images stay in the editor's state.
     */
    method HandleSubmit(store: Store, convert: string -> Conversion, randomPick: nat,
                        id: string, now: string, area: string, centre: Coordinates)
      returns (submission: Option<Submission>)
      requires randomPick < |SubmitterNames|
      modifies this, store
      ensures !AreAllImagesValid(old(images)) ==> submission.None? && store.subs == old(store.subs) && State() == old(State())
      ensures AreAllImagesValid(old(images)) && NormalizedImages(old(images), convert).None? ==>
                submission.None? && store.subs == old(store.subs) && State() == old(State())
      ensures AreAllImagesValid(old(images)) && NormalizedImages(old(images), convert).Some? ==>
                && submission.Some?
                && store.subs == [submission.value] + old(store.subs)
                && submission.value.status == InReview
                && submission.value.images == NormalizedImages(old(images), convert).value
                && State() == old(State()).(view := Success)
    {
      if !AreAllImagesValid(images) {
        return None;
      }
      submission := store.CreateSubmission(images, None, convert, randomPick, id, now, area, centre);
      if submission.None? {
        return;
      }
      assert submission.value.images == NormalizedImages(images, convert).value;
      view := Success;
    }
  }

  // ---------------------------------------------------------------------
  // Properties
  // ---------------------------------------------------------------------

  /** For a non-blank value, the form shows it exactly when the selection is non-empty and every selected image has it. */
  lemma CommonValueIff(selectedImages: seq<DroneImage>, f: Field, v: FieldValue)
    requires v != Text("")
    ensures CommonValue(selectedImages, f) == v <==> |selectedImages| > 0 && AllShare(selectedImages, f, v)
  {
  }

  /** After a form edit of a scalar field with something selected, the form shows the value just written. */
  lemma {:induction false} CommonValueAfterUpdate(images: seq<DroneImage>, selected: seq<string>, u: MetadataUpdate)
    requires !u.SetCoordinates?
    requires exists i :: 0 <= i < |images| && images[i].id in selected
    ensures CommonValue(SelectedImages(UpdateSelected(images, selected, u), selected), UpdateField(u)) == UpdateValue(u)
  {
    var after := UpdateSelected(images, selected, u);
    var sel := SelectedImages(after, selected);
    var i :| 0 <= i < |images| && images[i].id in selected;
    assert after[i] in sel;
    forall k | 0 <= k < |sel| ensures FieldOf(sel[k].metadata, UpdateField(u)) == UpdateValue(u) {
      UpdatedImageHasValue(images, selected, u, sel[k]);
    }
    assert AllShare(sel, UpdateField(u), UpdateValue(u));
  }

  /** Every selected image of the edited list carries the value just written. */
  lemma UpdatedImageHasValue(images: seq<DroneImage>, selected: seq<string>, u: MetadataUpdate, img: DroneImage)
    requires !u.SetCoordinates?
    requires img in UpdateSelected(images, selected, u) && img.id in selected
    ensures FieldOf(img.metadata, UpdateField(u)) == UpdateValue(u)
  {
    var after := UpdateSelected(images, selected, u);
    var j :| 0 <= j < |after| && after[j] == img;
    assert ImageIds(after)[j] == ImageIds(images)[j];
  }

  /** Setting a non-zero location on every image makes the submission valid. */
  lemma {:induction false} LocatingAllMakesValid(images: seq<DroneImage>, selected: seq<string>, c: Coordinates)
    requires |images| > 0 && forall i :: 0 <= i < |images| ==> images[i].id in selected
    requires c.lat != 0.0 && c.lng != 0.0
    ensures AreAllImagesValid(UpdateSelected(images, selected, SetCoordinates(c)))
  {
  }

  /** One image left at latitude or longitude zero keeps the submission invalid, as does an empty list. */
  lemma OneUnlocatedBlocks(images: seq<DroneImage>, i: nat)
    requires i < |images| && (images[i].metadata.coordinates.lat == 0.0 || images[i].metadata.coordinates.lng == 0.0)
    ensures !AreAllImagesValid(images)
    ensures !AreAllImagesValid([])
  {
  }

  /**
   * Editing the latitude of a selection whose longitudes differ writes
   * longitude zero on every selected image, which leaves the list invalid.
   */
  lemma {:induction false} LatitudeEditZeroesMixedLongitudes(images: seq<DroneImage>, selected: seq<string>, lat: real, i: nat, j: nat)
    requires i < |images| && j < |images|
    requires images[i].id in selected && images[j].id in selected
    requires images[i].metadata.coordinates.lng != images[j].metadata.coordinates.lng
    ensures var lng := NumberOrZero(CommonCoordinate(SelectedImages(images, selected), Lng));
            var after := UpdateSelected(images, selected, SetCoordinates(Coordinates(lat, lng)));
            && lng == 0.0
            && (forall k :: 0 <= k < |after| && after[k].id in selected ==> after[k].metadata.coordinates.lng == 0.0)
            && !AreAllImagesValid(after)
  {
    var sel := SelectedImages(images, selected);
    assert images[i] in sel && images[j] in sel;
    var a :| 0 <= a < |sel| && sel[a] == images[i];
    var b :| 0 <= b < |sel| && sel[b] == images[j];
    var first := AxisOf(sel[0].metadata.coordinates, Lng);
    assert !AllShareAxis(sel, Lng, first);
    var after := UpdateSelected(images, selected, SetCoordinates(Coordinates(lat, 0.0)));
    assert after[i].metadata.coordinates.lng == 0.0;
  }

  /** Deleting an image keeps the other images in their order: the filter distributes over concatenation. */
  lemma RemainingKeepsOrder(a: seq<DroneImage>, b: seq<DroneImage>, id: string)
    ensures RemainingImages(a + b, id) == RemainingImages(a, id) + RemainingImages(b, id)
  {
    FilterConcat(a, b, HasOtherId(id));
  }

  /** Deleting the only selected image selects the first image that is left. */
  lemma DeleteOnlySelectedSelectsFirst(images: seq<DroneImage>, id: string)
    requires |RemainingImages(images, id)| > 0
    ensures SelectionAfterDelete([id], images, id) == [RemainingImages(images, id)[0].id]
  {
    assert id in [id];
  }

  lemma FirstIndexOfDistinct(images: seq<DroneImage>, k: nat)
    requires k < |images| && Distinct(ImageIds(images))
    ensures ImageIndex(images, images[k].id) == k
  {
    var r := ImageIndex(images, images[k].id);
    assert ImageIds(images)[r] == ImageIds(images)[k];
  }

  /** The images with the first `m` analysed. */
  function AnalysedUpTo(images: seq<DroneImage>, selected: seq<string>, analyze: DroneImage -> Option<AIAnalysisResult>, m: nat): (r: seq<DroneImage>)
    ensures |r| == |images| && ImageIds(r) == ImageIds(images)
  {
    seq(|images|, i requires 0 <= i < |images| => if i < m then Analysed(images[i], selected, analyze) else images[i])
  }

  /** Analysing the next selected image in list order moves the analysed prefix on by one. */
  lemma AnalysisStepExtends(images: seq<DroneImage>, selected: seq<string>, analyze: DroneImage -> Option<AIAnalysisResult>, m: nat)
    requires 0 < m <= |images| && Distinct(ImageIds(images)) && images[m - 1].id in selected
    ensures AnalysisStep(AnalysedUpTo(images, selected, analyze, m - 1), images[m - 1], analyze) == AnalysedUpTo(images, selected, analyze, m)
  {
    var prev := AnalysedUpTo(images, selected, analyze, m - 1);
    var next := AnalysedUpTo(images, selected, analyze, m);
    var img := images[m - 1];
    FirstIndexOfDistinct(images, m - 1);
    ImageIndexByIds(prev, images, img.id);
    assert prev[m - 1] == img;
    if analyze(img).None? {
      assert next == prev by {
        forall k | 0 <= k < |images| ensures next[k] == prev[k] {
        }
      }
    } else {
      var stepped := prev[m - 1 := prev[m - 1].(aiAnalysis := analyze(img))];
      assert AnalysisStep(prev, img, analyze) == stepped;
      assert next == stepped by {
        forall k | 0 <= k < |images| ensures next[k] == stepped[k] {
        }
      }
    }
  }

  /** An unselected image is left as it is, so the analysed prefix grows over it for free. */
  lemma AnalysedUpToSkips(images: seq<DroneImage>, selected: seq<string>, analyze: DroneImage -> Option<AIAnalysisResult>, m: nat)
    requires 0 < m <= |images| && images[m - 1].id !in selected
    ensures AnalysedUpTo(images, selected, analyze, m - 1) == AnalysedUpTo(images, selected, analyze, m)
  {
  }

  /** The analysis loop over `todo + [img]` is the loop over `todo` followed by one step. */
  lemma ApplyAnalysesSnoc(current: seq<DroneImage>, todo: seq<DroneImage>, img: DroneImage, analyze: DroneImage -> Option<AIAnalysisResult>)
    ensures ApplyAnalyses(current, todo + [img], analyze) == AnalysisStep(ApplyAnalyses(current, todo, analyze), img, analyze)
  {
    assert (todo + [img])[..|todo|] == todo;
  }

  /** The loop over the selected images among the first `m` leaves exactly those analysed. */
  predicate PrefixAnalysed(images: seq<DroneImage>, selected: seq<string>, analyze: DroneImage -> Option<AIAnalysisResult>, m: nat)
    requires m <= |images|
  {
    ApplyAnalyses(images, Filter(images[..m], IsSelectedIn(selected)), analyze) == AnalysedUpTo(images, selected, analyze, m)
  }

  lemma {:induction false} AnalysesPrefix(images: seq<DroneImage>, selected: seq<string>, analyze: DroneImage -> Option<AIAnalysisResult>, m: nat)
    requires m <= |images| && Distinct(ImageIds(images))
    ensures PrefixAnalysed(images, selected, analyze, m)
  {
    if m == 0 {
      AnalysesPrefixEmpty(images, selected, analyze);
    } else {
      AnalysesPrefix(images, selected, analyze, m - 1);
      AnalysesPrefixStep(images, selected, analyze, m);
    }
  }

  /** Before any image is visited nothing is analysed. */
  lemma AnalysesPrefixEmpty(images: seq<DroneImage>, selected: seq<string>, analyze: DroneImage -> Option<AIAnalysisResult>)
    ensures PrefixAnalysed(images, selected, analyze, 0)
  {
    assert images[..0] == [];
    assert AnalysedUpTo(images, selected, analyze, 0) == images;
  }

  lemma AnalysesPrefixStep(images: seq<DroneImage>, selected: seq<string>, analyze: DroneImage -> Option<AIAnalysisResult>, m: nat)
    requires 0 < m <= |images| && Distinct(ImageIds(images))
    requires PrefixAnalysed(images, selected, analyze, m - 1)
    ensures PrefixAnalysed(images, selected, analyze, m)
  {
    var before := Filter(images[..m - 1], IsSelectedIn(selected));
    FilterPrefixStep(images, IsSelectedIn(selected), m);
    if images[m - 1].id in selected {
      KeptAnalysisStep(images, selected, analyze, m, before);
    } else {
      AnalysedUpToSkips(images, selected, analyze, m);
    }
  }

  /** A selected image analysed after the loop over the earlier ones extends the analysed prefix over it. */
  lemma KeptAnalysisStep(images: seq<DroneImage>, selected: seq<string>, analyze: DroneImage -> Option<AIAnalysisResult>, m: nat, before: seq<DroneImage>)
    requires 0 < m <= |images| && Distinct(ImageIds(images)) && images[m - 1].id in selected
    requires ApplyAnalyses(images, before, analyze) == AnalysedUpTo(images, selected, analyze, m - 1)
    ensures ApplyAnalyses(images, before + [images[m - 1]], analyze) == AnalysedUpTo(images, selected, analyze, m)
  {
    ApplyAnalysesSnoc(images, before, images[m - 1], analyze);
    AnalysisStepExtends(images, selected, analyze, m);
  }

  /**
   * With distinct image ids, the analysis stores on each selected image its
   * own successful result and leaves every other image, and every failure,
   * as it was.
   */
  lemma AnalysesClosedForm(images: seq<DroneImage>, selected: seq<string>, analyze: DroneImage -> Option<AIAnalysisResult>)
    requires Distinct(ImageIds(images))
    ensures var r := ApplyAnalyses(images, SelectedImages(images, selected), analyze);
            && |r| == |images|
            && forall i :: 0 <= i < |images| ==> r[i] == Analysed(images[i], selected, analyze)
  {
    AnalysesPrefix(images, selected, analyze, |images|);
    assert images[..|images|] == images;
  }
}
