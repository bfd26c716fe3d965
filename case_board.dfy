/** The counsellor's case board: posts sorted into three columns by case status,
    each card showing a keyword-based severity and how long the post has waited.
    "Now" and the post's creation time are integers of milliseconds. */
module CaseBoard {
  import opened Types
  import Strings
  import Seqs

  datatype Severity = High | Medium | Low

  const HighKeywords: seq<string> := ["die", "suicide", "kill", "harm"]
  const MediumKeywords: seq<string> := ["hurt", "pain", "sad"]

  /** Some keyword of `keywords` occurs in `text`. */
  ghost predicate MentionsAny(text: string, keywords: seq<string>)
  {
    exists k :: k in keywords && Strings.Occurs(text, k)
  }

  /** `getSeverity`: High if the lower-cased content mentions a high keyword, else
      Medium if it mentions a medium keyword, else Low. */
  function GetSeverity(content: string): (sev: Severity)
    ensures sev == High <==> MentionsAny(Strings.ToLower(content), HighKeywords)
    ensures sev == Medium <==> !MentionsAny(Strings.ToLower(content), HighKeywords)
                               && MentionsAny(Strings.ToLower(content), MediumKeywords)
    ensures sev == Low <==> !MentionsAny(Strings.ToLower(content), HighKeywords)
                            && !MentionsAny(Strings.ToLower(content), MediumKeywords)
  {
    var lower := Strings.ToLower(content);
    if Strings.Contains(lower, "die") || Strings.Contains(lower, "suicide")
       || Strings.Contains(lower, "kill") || Strings.Contains(lower, "harm") then High
    else if Strings.Contains(lower, "hurt") || Strings.Contains(lower, "pain")
       || Strings.Contains(lower, "sad") then Medium
    else Low
  }

  /** The match is on substrings and ignores case. */
  lemma HighSeverityExamples()
    ensures GetSeverity("I want to KILL time") == High
    ensures GetSeverity("my diet") == High
  {
    assert Strings.OccursAt(Strings.ToLower("I want to KILL time"), "kill", 10);
    assert Strings.OccursAt(Strings.ToLower("my diet"), "die", 3);
  }

  /** A medium keyword counts when no high keyword occurs. */
  lemma MediumSeverityExample()
    ensures GetSeverity("Sad") == Medium
  {
    assert Strings.ToLower("Sad") == "sad";
    assert Strings.OccursAt("sad", "sad", 0);
    NotMentioned("sad", HighKeywords);
  }

  /** A text without keywords is Low. */
  lemma LowSeverityExample()
    ensures GetSeverity("ok") == Low
  {
    assert Strings.ToLower("ok") == "ok";
    NotMentioned("ok", HighKeywords);
    NotMentioned("ok", MediumKeywords);
  }

  /** A text no longer than every keyword, and equal to none, mentions none of them. */
  lemma NotMentioned(text: string, keywords: seq<string>)
    requires forall k :: k in keywords ==> |text| <= |k| && text != k
    ensures !MentionsAny(text, keywords)
  {
    forall k, i | k in keywords ensures !Strings.OccursAt(text, k, i) {
      if 0 <= i && i + |k| <= |text| {
        assert i == 0 && text[i..i + |k|] == text;
      }
    }
  }

  const MillisPerHour: int := 1000 * 60 * 60
  const MillisPerDay: int := 24 * MillisPerHour

  /** `Math.floor((now - createdAt) / 3600000)`; the divisor is positive, so Dafny's
      division is the floor. */
  function WaitingHours(now: int, createdAt: int): int
  {
    (now - createdAt) / MillisPerHour
  }

  /** `calculateDuration`: the label is "< 1h waiting" exactly when less than a whole
      hour has elapsed; every other label starts with a digit; all end in " waiting". */
  function WaitingLabel(now: int, createdAt: int): (text: string)
    ensures |text| > 8 && text[|text| - 8..] == " waiting"
    ensures text == "< 1h waiting" <==> WaitingHours(now, createdAt) < 1
    ensures WaitingHours(now, createdAt) >= 1 ==> Strings.IsDigit(text[0])
  {
    var hours := WaitingHours(now, createdAt);
    if hours < 1 then "< 1h waiting"
    else
      var count := Strings.NatToString(if hours < 24 then hours else hours / 24);
      var text := count + (if hours < 24 then "h waiting" else "d waiting");
      CountLabel(count, if hours < 24 then "h waiting" else "d waiting");
      text
  }

  /** A count followed by its unit ends in " waiting", starts with a digit, and so
      is never the under-an-hour label. */
  lemma CountLabel(count: string, unit: string)
    requires count != [] && Strings.IsDigit(count[0])
    requires unit == "h waiting" || unit == "d waiting"
    ensures var text := count + unit;
      |text| > 8 && text[|text| - 8..] == " waiting" && Strings.IsDigit(text[0]) && text != "< 1h waiting"
  {
    var text := count + unit;
    assert text[0] == count[0];
    assert text[|text| - 8..] == unit[1..];
  }

  /** The label in terms of the elapsed time itself: under an hour (or a negative
      elapsed time) is "< 1h", under a day is the whole hours, and otherwise the whole
      days elapsed. */
  lemma {:induction false} WaitingLabelByElapsed(now: int, createdAt: int)
    ensures var elapsed := now - createdAt;
      WaitingLabel(now, createdAt) ==
        if elapsed < MillisPerHour then "< 1h waiting"
        else if elapsed < MillisPerDay then Strings.NatToString(elapsed / MillisPerHour) + "h waiting"
        else Strings.NatToString(elapsed / MillisPerDay) + "d waiting"
  {
    var elapsed := now - createdAt;
    FloorBelow(elapsed, MillisPerHour, 1);
    FloorBelow(elapsed, MillisPerHour, 24);
    if elapsed >= MillisPerDay {
      NestedFloor(elapsed, MillisPerHour, 24);
    }
  }

  /** Euclidean division by a positive number is the floor. */
  lemma FloorDivision(a: int, b: int)
    requires b > 0
    ensures (a / b) * b <= a < (a / b + 1) * b
  {
  }

  /** floor(a / d) < n exactly when a < n * d. */
  lemma FloorBelow(a: int, d: int, n: int)
    requires d > 0
    ensures a / d < n <==> a < n * d
  {
    var q := a / d;
    FloorDivision(a, d);
    if q < n {
      MultiplyMonotone(q + 1, n, d);
    } else {
      MultiplyMonotone(n, q, d);
    }
  }

  /** floor(floor(a / b) / c) = floor(a / (b * c)) for positive b and c. */
  lemma NestedFloor(a: int, b: int, c: int)
    requires b > 0 && c > 0
    ensures (a / b) / c == a / (b * c)
  {
    var q := a / b;
    var r := a % b;
    var q2 := q / c;
    var r2 := q % c;
    Regroup(q2, c, r2, b, r);
    RemainderBound(r2, b, c, r);
    DivisionUnique(a, b * c, q2, r2 * b + r);
  }

  lemma Regroup(q2: int, c: int, r2: int, b: int, r: int)
    ensures (q2 * c + r2) * b + r == q2 * (b * c) + (r2 * b + r)
  {
  }

  lemma RemainderBound(r2: int, b: int, c: int, r: int)
    requires 0 <= r2 < c && 0 <= r < b
    ensures 0 <= r2 * b + r < b * c
  {
    MultiplyMonotone(0, r2, b);
    MultiplyMonotone(r2, c - 1, b);
  }

  lemma MultiplyMonotone(x: int, y: int, d: int)
    requires x <= y && d >= 0
    ensures x * d <= y * d
  {
  }

  lemma DivisionUnique(a: int, d: int, q: int, r: int)
    requires d > 0 && a == q * d + r && 0 <= r < d
    ensures a / d == q
  {
    var q', r' := a / d, a % d;
    assert a == q' * d + r' && 0 <= r' < d;
    assert (q - q') * d == r' - r;
    if q - q' >= 1 {
      MultiplyAtLeast(q - q', d);
    } else if q' - q >= 1 {
      MultiplyAtLeast(q' - q, d);
    }
  }

  lemma MultiplyAtLeast(x: int, d: int)
    requires x >= 1 && d > 0
    ensures x * d >= d
  {
  }

  /** The three columns, in display order. */
  datatype Column = NewColumn | InProgressColumn | ResolvedColumn

  const Columns: seq<Column> := [NewColumn, InProgressColumn, ResolvedColumn]

  function ColumnTitle(c: Column): string
  {
    match c
    case NewColumn => "New"
    case InProgressColumn => "In Progress"
    case ResolvedColumn => "Resolved"
  }

  /** `mapStatusToColumn`, on the status text: "open" and any unknown text go to New. */
  function MapStatusToColumn(status: string): (c: Column)
    ensures c == InProgressColumn <==> status == "pending"
    ensures c == ResolvedColumn <==> status == "resolved"
    ensures c == NewColumn <==> status != "pending" && status != "resolved"
  {
    if status == "open" then NewColumn
    else if status == "pending" then InProgressColumn
    else if status == "resolved" then ResolvedColumn
    else NewColumn
  }

  /** Each case status has its own column. */
  lemma ColumnOfEachStatus()
    ensures MapStatusToColumn(CaseStatusName(Open)) == NewColumn
    ensures MapStatusToColumn(CaseStatusName(Pending)) == InProgressColumn
    ensures MapStatusToColumn(CaseStatusName(Resolved)) == ResolvedColumn
  {
  }

  function ColumnOf(p: Post): Column
  {
    MapStatusToColumn(CaseStatusName(p.caseStatus))
  }

  /** `posts.filter(post => mapStatusToColumn(post.case_status) === col)`. */
  function ColumnPosts(posts: seq<Post>, col: Column): (column: seq<Post>)
    ensures forall k :: 0 <= k < |column| ==> column[k] in posts && ColumnOf(column[k]) == col
  {
    var column := Seqs.Filter((p: Post) => ColumnOf(p) == col, posts);
    assert forall k :: 0 <= k < |column| ==> column[k] in posts && ColumnOf(column[k]) == col by {
      forall k | 0 <= k < |column| ensures column[k] in posts && ColumnOf(column[k]) == col {
        Seqs.FilterMembership((p: Post) => ColumnOf(p) == col, posts, column[k]);
      }
    }
    column
  }

  /** The board: one list of posts per column, in column order, and a post is in a
      column's list exactly when it is an input post whose status maps to that column. */
  function Board(posts: seq<Post>): (board: seq<seq<Post>>)
    ensures |board| == |Columns|
    ensures forall i, p :: 0 <= i < |Columns| ==> (p in board[i] <==> p in posts && ColumnOf(p) == Columns[i])
  {
    var board := seq(|Columns|, i requires 0 <= i < |Columns| => ColumnPosts(posts, Columns[i]));
    assert forall i, p :: 0 <= i < |Columns| ==> (p in board[i] <==> p in posts && ColumnOf(p) == Columns[i]) by {
      forall i, p | 0 <= i < |Columns| ensures p in board[i] <==> p in posts && ColumnOf(p) == Columns[i] {
        Seqs.FilterMembership((q: Post) => ColumnOf(q) == Columns[i], posts, p);
      }
    }
    board
  }

  /** The columns partition the posts: together they hold every post exactly as often
      as the input does, and each column keeps the input's order. */
  lemma {:induction false} BoardPartitionsPosts(posts: seq<Post>)
    ensures multiset(ColumnPosts(posts, NewColumn)) + multiset(ColumnPosts(posts, InProgressColumn))
            + multiset(ColumnPosts(posts, ResolvedColumn)) == multiset(posts)
    ensures forall c :: Seqs.IsSubsequence(ColumnPosts(posts, c), posts)
  {
    var all := multiset(ColumnPosts(posts, NewColumn)) + multiset(ColumnPosts(posts, InProgressColumn))
               + multiset(ColumnPosts(posts, ResolvedColumn));
    forall p ensures all[p] == multiset(posts)[p] {
      Seqs.FilterCounts((q: Post) => ColumnOf(q) == NewColumn, posts, p);
      Seqs.FilterCounts((q: Post) => ColumnOf(q) == InProgressColumn, posts, p);
      Seqs.FilterCounts((q: Post) => ColumnOf(q) == ResolvedColumn, posts, p);
    }
    forall c ensures Seqs.IsSubsequence(ColumnPosts(posts, c), posts) {
      Seqs.FilterIsSubsequence((q: Post) => ColumnOf(q) == c, posts);
    }
  }

  /** A post of the input is in the column of its status and in no other. */
  lemma PostInExactlyOneColumn(posts: seq<Post>, p: Post, c: Column)
    requires p in posts
    ensures p in ColumnPosts(posts, c) <==> c == ColumnOf(p)
  {
    Seqs.FilterMembership((q: Post) => ColumnOf(q) == c, posts, p);
  }
}
