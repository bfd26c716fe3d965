/** The moderation queue: a table of reports with "Ignore" and "Delete Content"
    buttons. Deleting derives the target (post or comment) from the report's ids;
    while a call is in flight the row's buttons are disabled through a loading
    marker. Each asynchronous handler is split at its `await`: a `Begin` method
    that returns the server action to call, and `CallReturned` for when it answers.
    The confirmation dialog's answer is an input. */
module ReportQueue {
  import opened Wrappers
  import opened Types

  /** A row of the queue; the ids are text or null. */
  datatype ReportItem = ReportItem(
    id: string,
    reason: string,
    postId: Option<string>,
    commentId: Option<string>,
    status: string,
    contentPreview: string,
    createdAt: int)

  /** The server action a handler calls. */
  datatype ModerationCall =
    | DismissCall(reportId: string)
    | DeleteCall(reportId: string, target: TargetType, contentId: string)

  /** `report.post_id ? 'post' : 'comment'`. */
  function DeleteType(item: ReportItem): (t: TargetType)
    ensures t == PostTarget ==> ContentId(item) == item.postId
    ensures t == CommentTarget ==> ContentId(item) == item.commentId
  {
    if Truthy(item.postId) then PostTarget else CommentTarget
  }

  /** `report.post_id || report.comment_id`. */
  function ContentId(item: ReportItem): (id: Option<string>)
    ensures id == item.postId || id == item.commentId
    ensures Truthy(id) <==> Truthy(item.postId) || Truthy(item.commentId)
  {
    if Truthy(item.postId) then item.postId else item.commentId
  }

  /** The Type column: `report.post_id ? 'Post' : 'Comment'`. */
  function TypeLabel(item: ReportItem): (text: string)
    ensures text == "Post" || text == "Comment"
    ensures text == "Post" <==> DeleteType(item) == PostTarget
  {
    if Truthy(item.postId) then "Post" else "Comment"
  }

  /** The delete call `handleDelete` issues for a confirmed row, if any: a truthy
      post id wins and targets the post; otherwise a truthy comment id targets the
      comment; with neither, nothing is called. */
  function DeleteRequest(item: ReportItem): (call: Option<ModerationCall>)
    ensures call.Some? <==> Truthy(item.postId) || Truthy(item.commentId)
    ensures Truthy(item.postId) ==> call == Some(DeleteCall(item.id, PostTarget, item.postId.value))
    ensures !Truthy(item.postId) && Truthy(item.commentId)
            ==> call == Some(DeleteCall(item.id, CommentTarget, item.commentId.value))
  {
    var target := DeleteType(item);
    var contentId := ContentId(item);
    if !Truthy(contentId) then None else Some(DeleteCall(item.id, target, contentId.value))
  }

  /** The row's label names the kind of content a delete would target. */
  lemma LabelAgreesWithTarget(item: ReportItem)
    ensures TypeLabel(item) == "Post" <==> DeleteType(item) == PostTarget
    ensures TypeLabel(item) == "Comment" <==> DeleteType(item) == CommentTarget
    ensures DeleteRequest(item).Some? ==> DeleteRequest(item).value.target == DeleteType(item)
  {
  }

  class Queue {
    /** `isLoading`: the id of the report whose call is in flight, or null. */
    var isLoading: Option<string>

    constructor ()
      ensures isLoading == None
    {
      isLoading := None;
    }

    /** A row's buttons are disabled exactly while its own report is marked. */
    predicate ButtonsDisabled(rowId: string)
      reads this
    {
      isLoading == Some(rowId)
    }

    /** `handleDismiss` up to its `await`: mark the row and call `dismissReport`. */
    method BeginDismiss(reportId: string) returns (call: ModerationCall)
      modifies this
      ensures isLoading == Some(reportId)
      ensures call == DismissCall(reportId)
    {
      isLoading := Some(reportId);
      call := DismissCall(reportId);
    }

    /** `handleDelete` up to its `await`. A declined confirmation changes nothing and
        calls nothing. Otherwise the row is marked, and the delete call is made when
        the row has a content id; without one the handler returns early and the
        mark stays. */
    method BeginDelete(item: ReportItem, confirmed: bool) returns (call: Option<ModerationCall>)
      modifies this
      ensures !confirmed ==> call == None && isLoading == old(isLoading)
      ensures confirmed ==> isLoading == Some(item.id) && call == DeleteRequest(item)
    {
      if !confirmed {
        return None;
      }
      isLoading := Some(item.id);
      var target := DeleteType(item);
      var contentId := ContentId(item);
      if !Truthy(contentId) {
        return None;
      }
      call := Some(DeleteCall(item.id, target, contentId.value));
    }

    /** After the awaited action answers, whatever it answered, the mark is cleared. */
    method CallReturned()
      modifies this
      ensures isLoading == None
      ensures forall rowId :: !ButtonsDisabled(rowId)
    {
      isLoading := None;
    }
  }

  /** A confirmed delete of a row with neither id leaves that row's buttons disabled. */
  method StuckRowExample() returns (q: Queue)
    ensures q.ButtonsDisabled("r1")
  {
    q := new Queue();
    var call := q.BeginDelete(ReportItem("r1", "spam", None, Some(""), "pending", "N/A", 0), true);
    assert call == None;
  }
}
