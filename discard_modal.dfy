/**
 * The discard dialog: a reason picked from the fixed list, an optional
 * comment bounded to 500 characters, and the confirm and cancel handlers
 * that report to the parent and reset the dialog.
 */
module DiscardModal {
  import opened Types
  import opened JsStrings

  /** The reasons offered, in display order. */
  const DiscardReasons: seq<DiscardReason> := [PoorQuality, AlreadyCataloged, AiFalsePositive, NotArchaeological, InsufficientData]

  /** The comment bound enforced by the text area. */
  const MaxCommentLength: nat := 500

  /** What the dialog reports to its parent. */
  datatype ModalEvent = Confirm(reason: DiscardReason, comment: Option<string>) | Cancel

  /** `value.slice(0, 500)`: the first 500 characters, or all of a shorter value. */
  function TruncateComment(value: string): (r: string)
    ensures |r| <= MaxCommentLength
    ensures |r| <= |value| && r == value[..|r|]
    ensures |value| <= MaxCommentLength <==> r == value
    ensures |value| > MaxCommentLength ==> |r| == MaxCommentLength
  {
    if |value| <= MaxCommentLength then value else value[..MaxCommentLength]
  }

  /** `comment.trim() || undefined`: the trimmed comment, absent when nothing but white space is left. */
  function CommentArgument(comment: string): (r: Option<string>)
    ensures r.None? <==> Trim(comment) == ""
    ensures r.Some? ==> r.value == Trim(comment) && r.value != ""
  {
    var t := Trim(comment);
    if t == "" then None else Some(t)
  }

  /** Header text for the number of images being discarded. */
  function SelectionLabel(count: int): (r: string)
    ensures r == "immagine selezionata" <==> count == 1
    ensures count != 1 ==> r == "immagini selezionate"
  {
    if count == 1 then "immagine selezionata" else "immagini selezionate"
  }

  /** The state of the dialog: the highlighted reason and the comment text. */
  class DiscardModalState {
    var selectedReason: Option<DiscardReason>
    var comment: string

    /** The text area never holds more than the bound. */
    predicate Valid()
      reads this
    {
      |comment| <= MaxCommentLength
    }

    /** Whether the confirm button is disabled: no reason selected yet. */
    function ConfirmDisabled(): (r: bool)
      reads this
      ensures r <==> selectedReason.None?
    {
      !selectedReason.Some?
    }

    constructor ()
      ensures selectedReason.None? && comment == "" && Valid()
    {
      selectedReason := None;
      comment := "";
    }

    /** Clicking a reason button highlights it; the comment is kept. */
    method SelectReason(reason: DiscardReason)
      requires Valid()
      modifies this
      ensures selectedReason == Some(reason) && comment == old(comment) && Valid()
    {
      selectedReason := Some(reason);
    }

    /** Typing into the text area keeps at most the first 500 characters. */
    method ChangeComment(value: string)
      modifies this
      ensures comment == TruncateComment(value) && selectedReason == old(selectedReason) && Valid()
    {
      comment := TruncateComment(value);
    }

    /**
     * `handleConfirm`: with a reason selected, report it with the trimmed
     * comment and reset the dialog; without one, do nothing.
     */
    method HandleConfirm() returns (event: Option<ModalEvent>)
      requires Valid()
      modifies this
      ensures old(selectedReason).None? ==> event.None? && selectedReason == old(selectedReason) && comment == old(comment)
      ensures old(selectedReason).Some? ==>
                event == Some(Confirm(old(selectedReason).value, CommentArgument(old(comment))))
                && selectedReason.None? && comment == ""
      ensures Valid()
    {
      if selectedReason.Some? {
        event := Some(Confirm(selectedReason.value, CommentArgument(comment)));
        selectedReason := None;
        comment := "";
      } else {
        event := None;
      }
    }

    /** `handleCancel` (also the backdrop click): reset the dialog and always report the cancel. */
    method HandleCancel() returns (event: ModalEvent)
      modifies this
      ensures event == Cancel && selectedReason.None? && comment == "" && Valid()
    {
      selectedReason := None;
      comment := "";
      event := Cancel;
    }
  }

  // ---------------------------------------------------------------------
  // Properties
  // ---------------------------------------------------------------------

  /** The dialog offers exactly the five discard reasons, each once. */
  lemma OffersEveryReasonOnce()
    ensures |DiscardReasons| == 5
    ensures forall r: DiscardReason :: r in DiscardReasons
    ensures forall i, j :: 0 <= i < j < |DiscardReasons| ==> DiscardReasons[i] != DiscardReasons[j]
  {
    ReasonsExactlyFive();
    assert DiscardReasons == AllReasons;
  }

  /** Truncation is idempotent, so re-rendering the bounded comment does not shorten it further. */
  lemma TruncateIdempotent(value: string)
    ensures TruncateComment(TruncateComment(value)) == TruncateComment(value)
  {
  }

  /** The comment that reaches the parent is at most as long as the text area, with no white space at either end. */
  lemma {:induction false} CommentArgumentBounded(comment: string)
    ensures var r := CommentArgument(comment);
            r.Some? ==> |r.value| <= |comment| && !IsWhitespace(r.value[0]) && !IsWhitespace(r.value[|r.value| - 1])
  {
    var t := Trim(comment);
    var i, j :| 0 <= i <= j <= |comment| && t == comment[i..j];
  }

  /** A comment of nothing but white space is reported as absent. */
  lemma BlankCommentIsAbsent(comment: string)
    requires forall k :: 0 <= k < |comment| ==> IsWhitespace(comment[k])
    ensures CommentArgument(comment).None?
  {
    TrimBlank(comment);
  }

  /** Re-trimming what the dialog reports changes nothing. */
  lemma CommentArgumentStable(comment: string)
    requires CommentArgument(comment).Some?
    ensures CommentArgument(CommentArgument(comment).value) == CommentArgument(comment)
  {
    TrimIdempotent(comment);
  }
}
