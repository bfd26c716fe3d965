/** The server actions (mood logging, posts, comments, reports, quiz results, and the
    admin, case and moderation actions) over an abstract in-memory store. The
    admin, case and moderation actions first check the caller's role with
    `requireRole`; every action then performs its writes in order. Whether a write
    succeeds is decided by the backing database; the model takes each outcome as a
    boolean input. An insert whose generated id is already taken fails like any
    other insert; an update or delete that matches no row succeeds and changes
    nothing. */
module Actions {
  import opened Wrappers
  import opened Types
  import Auth
  import Strings

  /** `{ success: true }` or `{ error }`. */
  datatype ActionResult = Success | Failure(error: string)

  /** A snapshot of every table the actions touch; `points` is the per-user point
      total kept by the `update_user_points` procedure (a missing user has 0). */
  datatype StoreState = StoreState(
    profiles: map<string, Profile>,
    posts: map<string, Post>,
    comments: map<string, Comment>,
    reports: map<string, Report>,
    moodLogs: seq<MoodLog>,
    quizResults: seq<QuizResult>,
    points: map<string, int>)

  const AdminOnly: seq<Role> := [Admin]
  const CaseWorkers: seq<Role> := [Counselor, Moderator, Admin]
  const ModerationStaff: seq<Role> := [Moderator, Admin]

  const MoodPoints: int := 10
  const PostPoints: int := 5

  const IgnoredNote: string := "Ignored by moderator"
  const DeletedNote: string := "Content deleted by moderator"

  /** `note || null`: a missing or empty note is stored as null. */
  function StoredNote(note: Option<string>): (stored: Option<string>)
    ensures stored.Some? <==> note.Some? && note.value != ""
    ensures stored.Some? ==> stored == note
  {
    if Truthy(note) then note else None
  }

  /** `update_user_points(user, amount)`: the user's total grows by `amount`. */
  function AwardPoints(points: map<string, int>, userId: string, amount: int): (r: map<string, int>)
    ensures r.Keys == points.Keys + {userId}
    ensures r[userId] == (if userId in points then points[userId] else 0) + amount
    ensures forall u :: u in points && u != userId ==> r[u] == points[u]
  {
    points[userId := (if userId in points then points[userId] else 0) + amount]
  }

  /** The profile `userId`, if there is one, with its role set to `role`. */
  function WithRole(profiles: map<string, Profile>, userId: string, role: Role): (r: map<string, Profile>)
    ensures r.Keys == profiles.Keys
    ensures userId in profiles ==> r[userId] == profiles[userId].(role := role)
    ensures forall id :: id in profiles && id != userId ==> r[id] == profiles[id]
  {
    if userId in profiles then profiles[userId := profiles[userId].(role := role)] else profiles
  }

  /** The post `postId`, if there is one, with its case status set to `status`. */
  function WithCaseStatus(posts: map<string, Post>, postId: string, status: CaseStatus): (r: map<string, Post>)
    ensures r.Keys == posts.Keys
    ensures postId in posts ==> r[postId] == posts[postId].(caseStatus := status)
    ensures forall id :: id in posts && id != postId ==> r[id] == posts[id]
  {
    if postId in posts then posts[postId := posts[postId].(caseStatus := status)] else posts
  }

  /** The report `reportId`, if there is one, marked resolved with `note`. */
  function WithResolution(reports: map<string, Report>, reportId: string, note: string): (r: map<string, Report>)
    ensures r.Keys == reports.Keys
    ensures reportId in reports
            ==> r[reportId] == reports[reportId].(status := ReportResolved, adminNotes := Some(note))
    ensures forall id :: id in reports && id != reportId ==> r[id] == reports[id]
  {
    if reportId in reports
    then reports[reportId := reports[reportId].(status := ReportResolved, adminNotes := Some(note))]
    else reports
  }

  /** The report a `createReport` call files: the target id goes into `post_id` for a
      post and into `comment_id` otherwise. */
  function NewReport(reporterId: string, targetId: string, target: TargetType, reason: string): (r: Report)
    ensures r.postId.Some? <==> target == PostTarget
    ensures r.commentId.Some? <==> target == CommentTarget
    ensures r.postId.Some? ==> r.postId.value == targetId
    ensures r.commentId.Some? ==> r.commentId.value == targetId
    ensures r.reporterId == reporterId && r.reason == reason && r.status == ReportPending
  {
    match target
    case PostTarget => Report(reporterId, Some(targetId), None, reason, ReportPending, None)
    case CommentTarget => Report(reporterId, None, Some(targetId), reason, ReportPending, None)
  }

  /** Every filed report names exactly one of a post and a comment. */
  ghost predicate TargetsExclusive(reports: map<string, Report>)
  {
    forall id :: id in reports ==> (reports[id].postId.Some? <==> reports[id].commentId.None?)
  }

  /** Filing a report keeps every report's target exclusive. */
  lemma FilingKeepsTargets(reports: map<string, Report>, newId: string, reporterId: string, targetId: string,
                           target: TargetType, reason: string)
    requires TargetsExclusive(reports)
    ensures TargetsExclusive(reports[newId := NewReport(reporterId, targetId, target, reason)])
  {
  }

  /** Resolving a report, by dismissal or after a deletion, keeps every report's
      target exclusive. */
  lemma ResolutionKeepsTargets(reports: map<string, Report>, reportId: string, note: string)
    requires TargetsExclusive(reports)
    ensures TargetsExclusive(WithResolution(reports, reportId, note))
  {
  }

  class Store {
    var profiles: map<string, Profile>
    var posts: map<string, Post>
    var comments: map<string, Comment>
    var reports: map<string, Report>
    var moodLogs: seq<MoodLog>
    var quizResults: seq<QuizResult>
    var points: map<string, int>

    function State(): StoreState
      reads this
    {
      StoreState(profiles, posts, comments, reports, moodLogs, quizResults, points)
    }

    /** The profiles table as the role lookups see it: id to role column. */
    function RoleTable(): (t: map<string, string>)
      reads this
      ensures t.Keys == profiles.Keys
      ensures forall id :: id in profiles ==> t[id] == RoleName(profiles[id].role)
    {
      map id | id in profiles :: RoleName(profiles[id].role)
    }

    /** `requireRole(allowed)` against the current profiles. */
    function Authorize(allowed: seq<Role>, user: Option<string>): Auth.Authorization
      reads this
    {
      Auth.RequireRole(allowed, user, RoleTable())
    }

    function PointsOf(userId: string): int
      reads this
    {
      if userId in points then points[userId] else 0
    }

    constructor ()
      ensures State() == StoreState(map[], map[], map[], map[], [], [], map[])
    {
      profiles, posts, comments, reports := map[], map[], map[], map[];
      moodLogs, quizResults, points := [], [], map[];
    }

    /** `saveMood`: insert a mood log for the caller (or the fallback identity); only
        after a successful insert are 10 points awarded, and the points call's own
        failure is not reported. A rating outside 1..5 cannot form a mood log and
        fails like a failed insert. */
    method SaveMood(user: Option<string>, rating: int, note: Option<string>, insertOk: bool, pointsOk: bool)
      returns (res: ActionResult)
      modifies this
      ensures var uid := Auth.EffectiveUserId(user);
        if insertOk && 1 <= rating <= 5 then
          res == Success
          && State() == old(State()).(
               moodLogs := old(moodLogs) + [MoodLog(uid, rating, StoredNote(note))],
               points := if pointsOk then AwardPoints(old(points), uid, MoodPoints) else old(points))
        else
          res == Failure("Failed to save mood") && State() == old(State())
      ensures forall u :: old(PointsOf(u)) <= PointsOf(u)
    {
      var uid := Auth.EffectiveUserId(user);
      if !(insertOk && 1 <= rating <= 5) {
        return Failure("Failed to save mood");
      }
      moodLogs := moodLogs + [MoodLog(uid, rating, StoredNote(note))];
      if pointsOk {
        points := AwardPoints(points, uid, MoodPoints);
      }
      res := Success;
    }

    /** `updateUserRole`: admins only; changes the role of the one profile `userId`. */
    method UpdateUserRole(user: Option<string>, userId: string, newRole: Role, writeOk: bool)
      returns (res: ActionResult)
      modifies this
      ensures if old(Authorize(AdminOnly, user)).Forbidden? then
                res == Failure(Auth.ForbiddenMessage(AdminOnly)) && State() == old(State())
              else if !writeOk then
                res == Failure("Failed to update role") && State() == old(State())
              else
                res == Success && State() == old(State()).(profiles := WithRole(old(profiles), userId, newRole))
    {
      var auth := Authorize(AdminOnly, user);
      if auth.Forbidden? {
        return Failure(auth.error);
      }
      if !writeOk {
        return Failure("Failed to update role");
      }
      if userId in profiles {
        profiles := profiles[userId := profiles[userId].(role := newRole)];
      }
      res := Success;
    }

    /** `deleteUser`: admins only; removes the one profile `userId`. */
    method DeleteUser(user: Option<string>, userId: string, writeOk: bool) returns (res: ActionResult)
      modifies this
      ensures if old(Authorize(AdminOnly, user)).Forbidden? then
                res == Failure(Auth.ForbiddenMessage(AdminOnly)) && State() == old(State())
              else if !writeOk then
                res == Failure("Failed to delete user") && State() == old(State())
              else
                res == Success && State() == old(State()).(profiles := old(profiles) - {userId})
    {
      var auth := Authorize(AdminOnly, user);
      if auth.Forbidden? {
        return Failure(auth.error);
      }
      if !writeOk {
        return Failure("Failed to delete user");
      }
      profiles := profiles - {userId};
      res := Success;
    }

    /** `updateCaseStatus`: counselors, moderators and admins; sets the case status
        of the one post `postId`. */
    method UpdateCaseStatus(user: Option<string>, postId: string, newStatus: CaseStatus, writeOk: bool)
      returns (res: ActionResult)
      modifies this
      ensures if old(Authorize(CaseWorkers, user)).Forbidden? then
                res == Failure(Auth.ForbiddenMessage(CaseWorkers)) && State() == old(State())
              else if !writeOk then
                res == Failure("Failed to update status") && State() == old(State())
              else
                res == Success && State() == old(State()).(posts := WithCaseStatus(old(posts), postId, newStatus))
    {
      var auth := Authorize(CaseWorkers, user);
      if auth.Forbidden? {
        return Failure(auth.error);
      }
      if !writeOk {
        return Failure("Failed to update status");
      }
      if postId in posts {
        posts := posts[postId := posts[postId].(caseStatus := newStatus)];
      }
      res := Success;
    }

    /** `addComment`: anyone (logged out: the fallback identity) comments on `postId`;
        the content is not checked. */
    method AddComment(user: Option<string>, postId: string, content: string, newId: string, insertOk: bool)
      returns (res: ActionResult)
      modifies this
      ensures insertOk && newId !in old(comments) ==>
        res == Success
        && State() == old(State()).(comments := old(comments)[newId := Comment(postId, Auth.EffectiveUserId(user), content)])
      ensures !(insertOk && newId !in old(comments)) ==>
        res == Failure("Failed to add comment") && State() == old(State())
    {
      var uid := Auth.EffectiveUserId(user);
      if !insertOk || newId in comments {
        return Failure("Failed to add comment");
      }
      comments := comments[newId := Comment(postId, uid, content)];
      res := Success;
    }

    /** `createReport`: anyone files a pending report against a post or a comment. */
    method CreateReport(user: Option<string>, targetId: string, target: TargetType, reason: string,
                        newId: string, insertOk: bool)
      returns (res: ActionResult)
      modifies this
      ensures insertOk && newId !in old(reports) ==>
        res == Success
        && State() == old(State()).(
             reports := old(reports)[newId := NewReport(Auth.EffectiveUserId(user), targetId, target, reason)])
      ensures !(insertOk && newId !in old(reports)) ==>
        res == Failure("Failed to create report") && State() == old(State())
    {
      var uid := Auth.EffectiveUserId(user);
      // exactly one of the two target ids is set
      var postId: Option<string> := None;
      var commentId: Option<string> := None;
      if target == PostTarget {
        postId := Some(targetId);
      } else {
        commentId := Some(targetId);
      }
      var payload := Report(uid, postId, commentId, reason, ReportPending, None);
      if !insertOk || newId in reports {
        return Failure("Failed to create report");
      }
      reports := reports[newId := payload];
      res := Success;
    }

    /** `saveQuizResult`: anyone records a score. */
    method SaveQuizResult(user: Option<string>, score: int, maxScore: int, insertOk: bool)
      returns (res: ActionResult)
      modifies this
      ensures insertOk ==>
        res == Success
        && State() == old(State()).(
             quizResults := old(quizResults) + [QuizResult(Auth.EffectiveUserId(user), score, maxScore)])
      ensures !insertOk ==> res == Failure("Failed to save quiz result") && State() == old(State())
    {
      var uid := Auth.EffectiveUserId(user);
      if !insertOk {
        return Failure("Failed to save quiz result");
      }
      quizResults := quizResults + [QuizResult(uid, score, maxScore)];
      res := Success;
    }

    /** `createPost`: content that is empty after trimming is refused before any
        write; otherwise an open post is inserted and, after that, 5 points are
        awarded (the points call's own failure is not reported). `createdAt` is the
        database's timestamp for the new row. */
    method CreatePost(user: Option<string>, content: string, newId: string, createdAt: int,
                      insertOk: bool, pointsOk: bool)
      returns (res: ActionResult)
      modifies this
      ensures (forall k :: 0 <= k < |content| ==> Strings.IsJsWhitespace(content[k]))
              ==> res == Failure("Content cannot be empty") && State() == old(State())
      ensures var uid := Auth.EffectiveUserId(user);
        (exists k :: 0 <= k < |content| && !Strings.IsJsWhitespace(content[k])) ==>
          if insertOk && newId !in old(posts) then
            res == Success
            && State() == old(State()).(
                 posts := old(posts)[newId := Post(uid, content, Open, createdAt)],
                 points := if pointsOk then AwardPoints(old(points), uid, PostPoints) else old(points))
          else
            res == Failure("Failed to create post") && State() == old(State())
      ensures forall u :: old(PointsOf(u)) <= PointsOf(u)
    {
      var uid := Auth.EffectiveUserId(user);
      Strings.TrimEmptyIffBlank(content);
      if Strings.Trim(content) == "" {
        return Failure("Content cannot be empty");
      }
      if !insertOk || newId in posts {
        return Failure("Failed to create post");
      }
      posts := posts[newId := Post(uid, content, Open, createdAt)];
      if pointsOk {
        points := AwardPoints(points, uid, PostPoints);
      }
      res := Success;
    }

    /** `dismissReport`: moderators and admins; resolves the one report `reportId`
        with the note "Ignored by moderator" and touches no content. */
    method DismissReport(user: Option<string>, reportId: string, writeOk: bool) returns (res: ActionResult)
      modifies this
      ensures if old(Authorize(ModerationStaff, user)).Forbidden? then
                res == Failure(Auth.ForbiddenMessage(ModerationStaff)) && State() == old(State())
              else if !writeOk then
                res == Failure("Failed") && State() == old(State())
              else
                res == Success && State() == old(State()).(reports := WithResolution(old(reports), reportId, IgnoredNote))
    {
      var auth := Authorize(ModerationStaff, user);
      if auth.Forbidden? {
        return Failure(auth.error);
      }
      if !writeOk {
        return Failure("Failed");
      }
      reports := WithResolution(reports, reportId, IgnoredNote);
      res := Success;
    }

    /** `deleteReportedContent`: moderators and admins. First the post or comment
        `contentId` is deleted; if that fails nothing has changed, the report
        included. Then the report is resolved with the note "Content deleted by
        moderator"; that second write's failure is not reported. */
    method DeleteReportedContent(user: Option<string>, reportId: string, target: TargetType, contentId: string,
                                 deleteOk: bool, updateOk: bool)
      returns (res: ActionResult)
      modifies this
      ensures if old(Authorize(ModerationStaff, user)).Forbidden? then
                res == Failure(Auth.ForbiddenMessage(ModerationStaff)) && State() == old(State())
              else if !deleteOk then
                res == Failure("Failed to delete content") && State() == old(State())
              else
                res == Success
                && State() == old(State()).(
                     posts := if target == PostTarget then old(posts) - {contentId} else old(posts),
                     comments := if target == CommentTarget then old(comments) - {contentId} else old(comments),
                     reports := if updateOk then WithResolution(old(reports), reportId, DeletedNote) else old(reports))
    {
      var auth := Authorize(ModerationStaff, user);
      if auth.Forbidden? {
        return Failure(auth.error);
      }
      if !deleteOk {
        return Failure("Failed to delete content");
      }
      RemoveContent(reportId, target, contentId, updateOk);
      res := Success;
    }

    /** The two writes of `deleteReportedContent` once authorized: the content is
        deleted from the table its type names, then the report is resolved when
        that second write succeeds. */
    method RemoveContent(reportId: string, target: TargetType, contentId: string, updateOk: bool)
      modifies this
      ensures State() == old(State()).(
                posts := if target == PostTarget then old(posts) - {contentId} else old(posts),
                comments := if target == CommentTarget then old(comments) - {contentId} else old(comments),
                reports := if updateOk then WithResolution(old(reports), reportId, DeletedNote) else old(reports))
    {
      if target == PostTarget {
        posts := posts - {contentId};
      } else {
        comments := comments - {contentId};
      }
      reports := if updateOk then WithResolution(reports, reportId, DeletedNote) else reports;
    }
  }
}
