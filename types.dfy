/** Entities of the drone-archaeology review workflow and their fixed lookup tables. */
module Types {

  /** An optional field (`T | undefined` in the original records). */
  datatype Option<+T> = None | Some(value: T)

  /** JavaScript truthiness of an optional string: present and not the empty string. */
  predicate Truthy(s: Option<string>) {
    s.Some? && s.value != ""
  }

  /** The per-image triage states. */
  datatype ImageReviewStatus = PendingReview | InAnalysis | WorthyOfReview | Inconclusive | Discarded

  /** The fixed justifications an archaeologist can give when discarding an image. */
  datatype DiscardReason = PoorQuality | AlreadyCataloged | AiFalsePositive | NotArchaeological | InsufficientData

  /** The submission-level aggregate state. */
  datatype SubmissionStatus = InReview | Completed

  /** Review record of one image: only `status` is mandatory. */
  datatype ImageReviewData = ImageReviewData(
    status: ImageReviewStatus,
    discardReason: Option<DiscardReason>,
    discardComment: Option<string>,
    reviewedAt: Option<string>,
    reviewedBy: Option<string>)

  datatype Coordinates = Coordinates(lat: real, lng: real)

  datatype AIAnalysisResult = AIAnalysisResult(confidence: real, description: string, features: seq<string>, isAnalyzed: bool)

  datatype Metadata = Metadata(date: string, time: string, coordinates: Coordinates, altitude: real, droneModel: string)

  datatype DroneImage = DroneImage(
    id: string,
    previewUrl: string,
    name: string,
    metadata: Metadata,
    aiAnalysis: Option<AIAnalysisResult>,
    reviewData: Option<ImageReviewData>)

  /** Where a submission lies: a human-readable area and one centroid coordinate. */
  datatype Location = Location(area: string, coordinates: Coordinates)

  datatype Submission = Submission(
    id: string,
    submitterName: string,
    submittedAt: string,
    images: seq<DroneImage>,
    status: SubmissionStatus,
    location: Location)

  const AllStatuses: seq<ImageReviewStatus> := [PendingReview, InAnalysis, WorthyOfReview, Inconclusive, Discarded]
  const AllReasons: seq<DiscardReason> := [PoorQuality, AlreadyCataloged, AiFalsePositive, NotArchaeological, InsufficientData]

  /** The stored (JSON) spelling of a review status. */
  function StatusName(s: ImageReviewStatus): string {
    match s
    case PendingReview => "pending_review"
    case InAnalysis => "in_analysis"
    case WorthyOfReview => "worthy_of_review"
    case Inconclusive => "inconclusive"
    case Discarded => "discarded"
  }

  /** Reads a stored status name back; anything else is not a status. */
  function ParseStatus(name: string): (r: Option<ImageReviewStatus>)
    ensures r.Some? ==> StatusName(r.value) == name
  {
    if name == "pending_review" then Some(PendingReview)
    else if name == "in_analysis" then Some(InAnalysis)
    else if name == "worthy_of_review" then Some(WorthyOfReview)
    else if name == "inconclusive" then Some(Inconclusive)
    else if name == "discarded" then Some(Discarded)
    else None
  }

  function SubmissionStatusName(s: SubmissionStatus): string {
    match s
    case InReview => "in_review"
    case Completed => "completed"
  }

  function ReasonName(r: DiscardReason): string {
    match r
    case PoorQuality => "poor_quality"
    case AlreadyCataloged => "already_cataloged"
    case AiFalsePositive => "ai_false_positive"
    case NotArchaeological => "not_archaeological"
    case InsufficientData => "insufficient_data"
  }

  /** Full label of a status (STATUS_LABELS). */
  function StatusLabel(s: ImageReviewStatus): (r: string)
    ensures r != ""
  {
    match s
    case PendingReview => "In attesa di revisione"
    case InAnalysis => "In analisi"
    case WorthyOfReview => "Meritevole di approfondimento"
    case Inconclusive => "Non conclusiva"
    case Discarded => "Scartata"
  }

  /** Badge label of a status (STATUS_LABELS_SHORT): never longer than the full label, as befits a compact badge. */
  function StatusLabelShort(s: ImageReviewStatus): (r: string)
    ensures r != "" && |r| <= |StatusLabel(s)|
  {
    match s
    case PendingReview => "In attesa"
    case InAnalysis => "Analisi"
    case WorthyOfReview => "Meritevole"
    case Inconclusive => "Inconclusiva"
    case Discarded => "Scartata"
  }

  datatype StatusColor = StatusColor(border: string, bg: string)

  /** Border and background classes of a status (STATUS_COLORS): a `border-` class and a `bg-` class. */
  function StatusColors(s: ImageReviewStatus): (r: StatusColor)
    ensures |r.border| > 7 && r.border[..7] == "border-"
    ensures |r.bg| > 3 && r.bg[..3] == "bg-"
  {
    match s
    case PendingReview => StatusColor("border-slate-500", "bg-slate-500/20")
    case InAnalysis => StatusColor("border-amber-500", "bg-amber-500/20")
    case WorthyOfReview => StatusColor("border-emerald-500", "bg-emerald-500/20")
    case Inconclusive => StatusColor("border-blue-500", "bg-blue-500/20")
    case Discarded => StatusColor("border-red-500", "bg-red-500/20")
  }

  /** Label of a discard reason (DISCARD_REASON_LABELS). */
  function DiscardReasonLabel(r: DiscardReason): (l: string)
    ensures l != ""
  {
    match r
    case PoorQuality => "Qualità insufficiente"
    case AlreadyCataloged => "Area già censita/nota"
    case AiFalsePositive => "Falso positivo AI"
    case NotArchaeological => "Natura non archeologica"
    case InsufficientData => "Dati insufficienti"
  }

  /** There are exactly five review statuses, each listed once. */
  lemma StatusesExactlyFive()
    ensures |AllStatuses| == 5
    ensures forall s: ImageReviewStatus :: s in AllStatuses
    ensures forall i, j :: 0 <= i < j < |AllStatuses| ==> AllStatuses[i] != AllStatuses[j]
  {
    forall s: ImageReviewStatus ensures s in AllStatuses {
      match s
      case PendingReview => assert AllStatuses[0] == s;
      case InAnalysis => assert AllStatuses[1] == s;
      case WorthyOfReview => assert AllStatuses[2] == s;
      case Inconclusive => assert AllStatuses[3] == s;
      case Discarded => assert AllStatuses[4] == s;
    }
  }

  /** There are exactly five discard reasons, each listed once. */
  lemma ReasonsExactlyFive()
    ensures |AllReasons| == 5
    ensures forall r: DiscardReason :: r in AllReasons
    ensures forall i, j :: 0 <= i < j < |AllReasons| ==> AllReasons[i] != AllReasons[j]
  {
    forall r: DiscardReason ensures r in AllReasons {
      match r
      case PoorQuality => assert AllReasons[0] == r;
      case AlreadyCataloged => assert AllReasons[1] == r;
      case AiFalsePositive => assert AllReasons[2] == r;
      case NotArchaeological => assert AllReasons[3] == r;
      case InsufficientData => assert AllReasons[4] == r;
    }
  }

  /** The aggregate status has exactly two values. */
  lemma SubmissionStatusExactlyTwo(s: SubmissionStatus)
    ensures s == InReview || s == Completed
    ensures SubmissionStatusName(InReview) != SubmissionStatusName(Completed)
  {
  }

  /** The stored spelling of a status reads back as that status, so the names are pairwise distinct. */
  lemma StatusNameRoundTrip(s: ImageReviewStatus)
    ensures ParseStatus(StatusName(s)) == Some(s)
  {
    match s
    case PendingReview =>
    case InAnalysis =>
    case WorthyOfReview =>
    case Inconclusive =>
    case Discarded =>
  }

  /** The label tables give every status (resp. reason) a non-empty entry. */
  lemma LabelTablesTotal()
    ensures forall s: ImageReviewStatus :: StatusLabel(s) != "" && StatusLabelShort(s) != ""
    ensures forall s: ImageReviewStatus :: StatusColors(s).border != "" && StatusColors(s).bg != ""
    ensures forall r: DiscardReason :: DiscardReasonLabel(r) != ""
  {
  }

  /** Distinct statuses get distinct labels and distinct colours. */
  lemma LabelTablesDistinct()
    ensures forall s, t: ImageReviewStatus :: s != t ==> StatusLabel(s) != StatusLabel(t) && StatusColors(s) != StatusColors(t)
  {
  }

  /** Distinct discard reasons get distinct labels. */
  lemma ReasonLabelsDistinct()
    ensures forall r, q: DiscardReason :: r != q ==> DiscardReasonLabel(r) != DiscardReasonLabel(q)
  {
  }
}
