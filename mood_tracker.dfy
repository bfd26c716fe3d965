/** The mood tracker card: five mood buttons, a note dialog, and a submit handler
    that maps the chosen mood to a 1..5 rating and calls `saveMood`. The handler is
    split at its `await`: `BeginSubmit` runs up to the call and returns the call it
    makes, and `SubmitReturned` runs the rest once the result arrives. */
module MoodTracker {
  import opened Wrappers
  import opened Types
  import Actions

  /** The button values, left to right. */
  const Moods: seq<string> := ["angry", "sad", "neutral", "happy", "excited"]

  /** `ratingMap[mood]`: the mood's 1-based position in the list, or undefined. */
  function RatingOf(mood: string): (r: Option<Rating>)
    ensures r.Some? <==> mood in Moods
    ensures forall i :: 0 <= i < |Moods| && Moods[i] == mood ==> r == Some(i + 1)
  {
    if mood == "angry" then Some(1)
    else if mood == "sad" then Some(2)
    else if mood == "neutral" then Some(3)
    else if mood == "happy" then Some(4)
    else if mood == "excited" then Some(5)
    else None
  }

  /** The mood a rating stands for. */
  function MoodOf(r: Rating): (mood: string)
    ensures mood in Moods
  {
    Moods[r - 1]
  }

  lemma RatingRoundTrip(r: Rating)
    ensures RatingOf(MoodOf(r)) == Some(r)
  {
  }

  lemma MoodRoundTrip(mood: string)
    requires mood in Moods
    ensures MoodOf(RatingOf(mood).value) == mood
  {
  }

  /** A button further right logs a higher rating. */
  lemma RatingsFollowButtonOrder(i: int, j: int)
    requires 0 <= i < j < |Moods|
    ensures RatingOf(Moods[i]).Some? && RatingOf(Moods[j]).Some?
    ensures RatingOf(Moods[i]).value < RatingOf(Moods[j]).value
  {
  }

  /** `saveMood(rating, note)`; `rating` is None when the mood has no rating. */
  datatype SaveMoodCall = SaveMoodCall(rating: Option<Rating>, note: string)

  class Tracker {
    var selectedMood: Option<string>
    var note: string
    var isDialogOpen: bool
    var isSubmitting: bool

    constructor ()
      ensures selectedMood == None && note == "" && !isDialogOpen && !isSubmitting
    {
      selectedMood, note, isDialogOpen, isSubmitting := None, "", false, false;
    }

    /** The save button is disabled while a submission is under way. */
    predicate SaveDisabled()
      reads this
    {
      isSubmitting
    }

    /** The save button's caption reads "Saving..." exactly while the button is
        disabled, and "Save Log" otherwise. */
    function SaveCaption(): (caption: string)
      reads this
      ensures caption == "Saving..." <==> SaveDisabled()
      ensures caption == "Save Log" <==> !SaveDisabled()
    {
      if isSubmitting then "Saving..." else "Save Log"
    }

    /** Clicking a mood selects it and opens the dialog; the note is kept. */
    method HandleMoodClick(moodValue: string)
      modifies this
      ensures selectedMood == Some(moodValue) && isDialogOpen
      ensures note == old(note) && isSubmitting == old(isSubmitting)
    {
      selectedMood := Some(moodValue);
      isDialogOpen := true;
    }

    /** Typing in the note field. */
    method SetNote(text: string)
      modifies this
      ensures note == text
      ensures selectedMood == old(selectedMood) && isDialogOpen == old(isDialogOpen)
      ensures isSubmitting == old(isSubmitting)
    {
      note := text;
    }

    /** "Skip" and dismissing the dialog close it without logging; the selection
        and the note stay. */
    method CloseDialog()
      modifies this
      ensures !isDialogOpen
      ensures selectedMood == old(selectedMood) && note == old(note) && isSubmitting == old(isSubmitting)
    {
      isDialogOpen := false;
    }

    /** `handleSubmit` up to the `await`: without a selection nothing happens;
        otherwise the tracker is submitting and the rated call is made. */
    method BeginSubmit() returns (call: Option<SaveMoodCall>)
      modifies this
      ensures !Truthy(old(selectedMood)) ==> call == None && unchanged(this)
      ensures Truthy(old(selectedMood)) ==>
        call == Some(SaveMoodCall(RatingOf(old(selectedMood).value), old(note)))
        && isSubmitting
        && selectedMood == old(selectedMood) && note == old(note) && isDialogOpen == old(isDialogOpen)
    {
      if !Truthy(selectedMood) {
        return None;
      }
      isSubmitting := true;
      call := Some(SaveMoodCall(RatingOf(selectedMood.value), note));
    }

    /** `handleSubmit` after the `await`: the dialog closes either way; a success
        clears the note and the selection, a failure keeps both. `message` is the
        text of the alert shown. */
    method SubmitReturned(result: Actions.ActionResult) returns (message: string)
      modifies this
      ensures !isSubmitting && !isDialogOpen
      ensures result.Success? ==>
        message == "Mood logged! You earned 10 XP." && note == "" && selectedMood == None
      ensures result.Failure? ==>
        message == "Failed to log mood." && note == old(note) && selectedMood == old(selectedMood)
    {
      isSubmitting := false;
      isDialogOpen := false;
      if result.Success? {
        message := "Mood logged! You earned 10 XP.";
        note := "";
        selectedMood := None;
      } else {
        message := "Failed to log mood.";
      }
    }
  }

  /** Every button of the card, clicked and submitted, asks for a rating in 1..5
      with the note typed so far. */
  method ClickAndSubmit(t: Tracker, i: int) returns (call: Option<SaveMoodCall>)
    requires 0 <= i < |Moods|
    modifies t
    ensures call == Some(SaveMoodCall(Some(i + 1), old(t.note)))
    ensures t.isSubmitting && t.isDialogOpen && t.selectedMood == Some(Moods[i])
  {
    t.HandleMoodClick(Moods[i]);
    call := t.BeginSubmit();
  }
}
