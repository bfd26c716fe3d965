/** The domain records of the application: roles, posts and their case status, mood
    logs, comments, reports and quiz results. Records that the store keys by id do
    not repeat the id. */
module Types {
  import opened Wrappers

  /** A service role. */
  datatype Role = User | Counselor | Moderator | Admin

  /** The text the profiles table stores for a role. */
  function RoleName(r: Role): string
  {
    match r
    case User => "user"
    case Counselor => "counselor"
    case Moderator => "moderator"
    case Admin => "admin"
  }

  /** Reads a role column back; anything but the four names is not a role. */
  function ParseRole(s: string): (r: Option<Role>)
    ensures forall role :: r == Some(role) <==> RoleName(role) == s
  {
    match s
    case "user" => Some(User)
    case "counselor" => Some(Counselor)
    case "moderator" => Some(Moderator)
    case "admin" => Some(Admin)
    case _ => None
  }

  /** A post's case status on the moderation and counselling boards. */
  datatype CaseStatus = Open | Pending | Resolved

  function CaseStatusName(c: CaseStatus): string
  {
    match c
    case Open => "open"
    case Pending => "pending"
    case Resolved => "resolved"
  }

  function ParseCaseStatus(s: string): (r: Option<CaseStatus>)
    ensures forall c :: r == Some(c) <==> CaseStatusName(c) == s
  {
    match s
    case "open" => Some(Open)
    case "pending" => Some(Pending)
    case "resolved" => Some(Resolved)
    case _ => None
  }

  /** A report's review status. */
  datatype ReportStatus = ReportPending | ReportReviewed | ReportResolved

  function ReportStatusName(st: ReportStatus): string
  {
    match st
    case ReportPending => "pending"
    case ReportReviewed => "reviewed"
    case ReportResolved => "resolved"
  }

  function ParseReportStatus(s: string): (r: Option<ReportStatus>)
    ensures forall st :: r == Some(st) <==> ReportStatusName(st) == s
  {
    match s
    case "pending" => Some(ReportPending)
    case "reviewed" => Some(ReportReviewed)
    case "resolved" => Some(ReportResolved)
    case _ => None
  }

  /** A mood rating: one of 1, 2, 3, 4, 5. */
  type Rating = r: int | 1 <= r <= 5 witness 3

  /** What a report, or a moderator's delete, is aimed at. */
  datatype TargetType = PostTarget | CommentTarget

  datatype Profile = Profile(email: string, role: Role, fullName: string)

  /** A peer-support post; `createdAt` is in milliseconds since the epoch. */
  datatype Post = Post(userId: string, content: string, caseStatus: CaseStatus, createdAt: int)

  datatype MoodLog = MoodLog(userId: string, rating: Rating, note: Option<string>)

  datatype Comment = Comment(postId: string, userId: string, content: string)

  datatype Report = Report(
    reporterId: string,
    postId: Option<string>,
    commentId: Option<string>,
    reason: string,
    status: ReportStatus,
    adminNotes: Option<string>)

  datatype QuizResult = QuizResult(userId: string, score: int, maxScore: int)

  /** Each name belongs to one role only. */
  lemma RoleNameInjective(a: Role, b: Role)
    requires RoleName(a) == RoleName(b)
    ensures a == b
  {
  }

  /** Reading a written role gives the role back, and a string parses only if it is a role's name. */
  lemma RoleRoundTrip(r: Role, s: string)
    ensures ParseRole(RoleName(r)) == Some(r)
    ensures ParseRole(s).Some? ==> RoleName(ParseRole(s).value) == s
  {
  }

  lemma CaseStatusRoundTrip(c: CaseStatus, s: string)
    ensures ParseCaseStatus(CaseStatusName(c)) == Some(c)
    ensures ParseCaseStatus(s).Some? ==> CaseStatusName(ParseCaseStatus(s).value) == s
  {
  }

  lemma ReportStatusRoundTrip(st: ReportStatus, s: string)
    ensures ParseReportStatus(ReportStatusName(st)) == Some(st)
    ensures ParseReportStatus(s).Some? ==> ReportStatusName(ParseReportStatus(s).value) == s
  {
  }
}
