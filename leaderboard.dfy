/** The leaderboard query: the best score of every (user, problem) pair,
    summed per user, with every user listed, ordered by total score from the
    highest down and numbered from 1. */
module Leaderboard {
  import opened Wrappers
  import opened Schema
  import Storage

  /** One row of the `best_submissions` step: a (user, problem) group and its maximum score. */
  datatype BestRow = BestRow(userId: string, problemId: int, maxScore: int)

  /** One user's aggregate before ranking. */
  datatype Standing = Standing(userId: string, username: string, profileImageUrl: Option<string>,
                               totalScore: int, problemsSolved: nat)

  datatype LeaderboardEntry = LeaderboardEntry(userId: string, username: string, profileImageUrl: Option<string>,
                                               totalScore: int, problemsSolved: nat, rank: nat)

  /** The groups of `GROUP BY user_id, problem_id`, each once, in order of first appearance. */
  function Groups(subs: seq<Submission>): (g: seq<(string, int)>)
    ensures forall i, j :: 0 <= i < j < |g| ==> g[i] != g[j]
    ensures forall k :: k in g <==> exists s :: s in subs && (s.userId, s.problemId) == k
  {
    if subs == [] then []
    else
      var init, last := subs[..|subs| - 1], subs[|subs| - 1];
      assert subs == init + [last];
      var g := Groups(init);
      if (last.userId, last.problemId) in g then g else g + [(last.userId, last.problemId)]
  }

  /** `MAX(score)` over the submissions of one group. */
  function MaxScore(subs: seq<Submission>, userId: string, problemId: int): (m: Option<int>)
    ensures m.None? <==> forall s :: s in subs ==> (s.userId, s.problemId) != (userId, problemId)
    ensures m.Some? ==> exists s :: s in subs && (s.userId, s.problemId) == (userId, problemId) && s.score == m.value
    ensures m.Some? ==> forall s :: s in subs && (s.userId, s.problemId) == (userId, problemId) ==> s.score <= m.value
  {
    if subs == [] then None
    else
      var init, last := subs[..|subs| - 1], subs[|subs| - 1];
      assert subs == init + [last];
      var m := MaxScore(init, userId, problemId);
      if (last.userId, last.problemId) != (userId, problemId) then m
      else if m.Some? && m.value >= last.score then m
      else Some(last.score)
  }

  /** Some submission of `userId` for `problemId` exists. */
  ghost predicate Attempted(subs: seq<Submission>, userId: string, problemId: int) {
    exists s :: s in subs && s.userId == userId && s.problemId == problemId
  }

  ghost predicate HasRow(rows: seq<BestRow>, userId: string, problemId: int) {
    exists r :: r in rows && r.userId == userId && r.problemId == problemId
  }

  /** The `best_submissions` rows: one per group, carrying the group's best score. */
  function BestSubmissions(subs: seq<Submission>): (rows: seq<BestRow>)
    ensures forall i, j :: 0 <= i < j < |rows| ==>
              (rows[i].userId, rows[i].problemId) != (rows[j].userId, rows[j].problemId)
    ensures forall u, p :: HasRow(rows, u, p) <==> Attempted(subs, u, p)
    ensures forall r :: r in rows ==> MaxScore(subs, r.userId, r.problemId) == Some(r.maxScore)
  {
    var g := Groups(subs);
    forall i | 0 <= i < |g| ensures MaxScore(subs, g[i].0, g[i].1).Some? {
      assert g[i] in g;
    }
    var rows := seq(|g|, i requires 0 <= i < |g| => BestRow(g[i].0, g[i].1, MaxScore(subs, g[i].0, g[i].1).value));
    assert forall i :: 0 <= i < |rows| ==> (rows[i].userId, rows[i].problemId) == g[i];
    forall u, p | Attempted(subs, u, p)
      ensures HasRow(rows, u, p)
    {
      assert (u, p) in g;
      var i :| 0 <= i < |g| && g[i] == (u, p);
      assert rows[i] in rows;
    }
    rows
  }

  function SumScores(rows: seq<BestRow>): int {
    if rows == [] then 0 else rows[0].maxScore + SumScores(rows[1..])
  }

  /** With scores that are not negative, a sum is not negative and is at
      least each of its terms. */
  lemma {:induction false} SumBoundsEach(rows: seq<BestRow>)
    requires forall r :: r in rows ==> r.maxScore >= 0
    ensures SumScores(rows) >= 0
    ensures forall r :: r in rows ==> r.maxScore <= SumScores(rows)
  {
    if rows != [] {
      assert forall r :: r in rows[1..] ==> r in rows;
      SumBoundsEach(rows[1..]);
    }
  }

  function OfUser(userId: string): BestRow -> bool { (r: BestRow) => r.userId == userId }

  /** The leaderboard name: the e-mail address, or "Anonymous" when it is missing or empty. */
  function Username(email: Option<string>): (r: string)
    ensures r != ""
    ensures email.Some? && email.value != "" ==> r == email.value
    ensures !(email.Some? && email.value != "") ==> r == "Anonymous"
  {
    if email.Some? && email.value != "" then email.value else "Anonymous"
  }

  /** The `LEFT JOIN ... GROUP BY users.id` row of one user: the sum of the
      user's best scores (0 when there are none) and the number of groups. */
  function StandingOf(u: User, best: seq<BestRow>): (r: Standing)
    ensures r.userId == u.id && r.profileImageUrl == u.profileImageUrl
    ensures r.username == Username(u.email)
    ensures r.totalScore == SumScores(Storage.Filter(best, OfUser(u.id)))
    ensures r.problemsSolved == |Storage.Filter(best, OfUser(u.id))|
  {
    var mine := Storage.Filter(best, OfUser(u.id));
    Standing(u.id, Username(u.email), u.profileImageUrl, SumScores(mine), |mine|)
  }

  function Standings(users: seq<User>, best: seq<BestRow>): (r: seq<Standing>)
    ensures |r| == |users|
    ensures forall i :: 0 <= i < |users| ==> r[i] == StandingOf(users[i], best)
  {
    seq(|users|, i requires 0 <= i < |users| => StandingOf(users[i], best))
  }

  ghost predicate NonIncreasing(ss: seq<Standing>) {
    forall i, j :: 0 <= i < j < |ss| ==> ss[i].totalScore >= ss[j].totalScore
  }

  lemma ConsNonIncreasing(h: Standing, t: seq<Standing>)
    requires NonIncreasing(t)
    requires forall x :: x in t ==> x.totalScore <= h.totalScore
    ensures NonIncreasing([h] + t)
  {
    var r := [h] + t;
    forall i, j | 0 <= i < j < |r| ensures r[i].totalScore >= r[j].totalScore {
      if i == 0 { assert r[j] == t[j - 1]; assert t[j - 1] in t; }
      else { assert r[i] == t[i - 1] && r[j] == t[j - 1]; }
    }
  }

  /** In a list ordered by total, the head has the largest total. */
  lemma HeadIsMax(sorted: seq<Standing>)
    requires NonIncreasing(sorted) && sorted != []
    ensures forall x :: x in sorted ==> x.totalScore <= sorted[0].totalScore
  {
    forall x | x in sorted ensures x.totalScore <= sorted[0].totalScore {
      var k :| 0 <= k < |sorted| && sorted[k] == x;
      if k > 0 { assert sorted[0].totalScore >= sorted[k].totalScore; }
    }
  }

  /** A bound on every element of `t` and on `s` bounds every element of a
      list holding exactly those. */
  lemma BoundedByContents(r: seq<Standing>, t: seq<Standing>, s: Standing, bound: int)
    requires multiset(r) == multiset(t) + multiset{s}
    requires forall x :: x in t ==> x.totalScore <= bound
    requires s.totalScore <= bound
    ensures forall x :: x in r ==> x.totalScore <= bound
  {
    forall x | x in r ensures x.totalScore <= bound {
      assert x in multiset(r);
      if x != s { assert x in multiset(t); }
    }
  }

  function Insert(s: Standing, sorted: seq<Standing>): (r: seq<Standing>)
    requires NonIncreasing(sorted)
    ensures NonIncreasing(r)
    ensures multiset(r) == multiset(sorted) + multiset{s}
  {
    if sorted == [] then [s]
    else if s.totalScore >= sorted[0].totalScore then
      HeadIsMax(sorted);
      ConsNonIncreasing(s, sorted);
      [s] + sorted
    else
      var h, t := sorted[0], sorted[1..];
      assert sorted == [h] + t;
      HeadIsMax(sorted);
      assert NonIncreasing(t);
      var rest := Insert(s, t);
      BoundedByContents(rest, t, s, h.totalScore);
      ConsNonIncreasing(h, rest);
      [h] + rest
  }

  /** `ORDER BY total DESC`. SQL leaves the order among equal totals open;
      this model keeps table order among them. */
  function SortByTotal(ss: seq<Standing>): (r: seq<Standing>)
    ensures NonIncreasing(r)
    ensures multiset(r) == multiset(ss)
  {
    if ss == [] then []
    else
      assert ss == [ss[0]] + ss[1..];
      Insert(ss[0], SortByTotal(ss[1..]))
  }

  function WithoutRank(e: LeaderboardEntry): Standing {
    Standing(e.userId, e.username, e.profileImageUrl, e.totalScore, e.problemsSolved)
  }

  /** The entries with their ranks dropped. */
  function Unranked(r: seq<LeaderboardEntry>): seq<Standing> {
    seq(|r|, i requires 0 <= i < |r| => WithoutRank(r[i]))
  }

  /** Numbering a list from 1 in list order. */
  function Ranked(sorted: seq<Standing>): (r: seq<LeaderboardEntry>)
    ensures |r| == |sorted|
    ensures forall i :: 0 <= i < |r| ==> r[i].rank == i + 1 && r[i].totalScore == sorted[i].totalScore
    ensures Unranked(r) == sorted
  {
    seq(|sorted|, i requires 0 <= i < |sorted| =>
      var s := sorted[i];
      LeaderboardEntry(s.userId, s.username, s.profileImageUrl, s.totalScore, s.problemsSolved, i + 1))
  }

  /** `getLeaderboard()`: one entry per user row, totals from the highest
      down, ranks 1, 2, ... in list order. */
  function GetLeaderboard(users: seq<User>, subs: seq<Submission>): (r: seq<LeaderboardEntry>)
    ensures |r| == |users|
    ensures forall i :: 0 <= i < |r| ==> r[i].rank == i + 1
    ensures forall i, j :: 0 <= i < j < |r| ==> r[i].totalScore >= r[j].totalScore
    ensures multiset(Unranked(r)) == multiset(Standings(users, BestSubmissions(subs)))
  {
    var standings := Standings(users, BestSubmissions(subs));
    var sorted := SortByTotal(standings);
    assert |sorted| == |standings| by {
      assert |multiset(sorted)| == |multiset(standings)|;
    }
    Ranked(sorted)
  }

  /** The problems a user has submitted for, each counted once. */
  function AttemptedProblems(subs: seq<Submission>, userId: string): set<int> {
    set s | s in subs && s.userId == userId :: s.problemId
  }

  /** A user without submissions is still listed, with total 0 and no problem solved. */
  lemma UserWithoutSubmissions(u: User, subs: seq<Submission>)
    requires forall s :: s in subs ==> s.userId != u.id
    ensures StandingOf(u, BestSubmissions(subs)).totalScore == 0
    ensures StandingOf(u, BestSubmissions(subs)).problemsSolved == 0
  {
    var best := BestSubmissions(subs);
    forall r | r in best ensures !OfUser(u.id)(r) {
      assert HasRow(best, r.userId, r.problemId);
    }
    Storage.FilterNone(best, OfUser(u.id));
  }

  ghost predicate NoRepeats(ps: seq<int>) {
    forall i, j :: 0 <= i < j < |ps| ==> ps[i] != ps[j]
  }

  lemma {:induction false} DistinctCardinality(ps: seq<int>)
    requires NoRepeats(ps)
    ensures |set p | p in ps| == |ps|
  {
    if ps != [] {
      var t := ps[1..];
      DistinctCardinality(t);
      assert (set p | p in ps) == (set p | p in t) + {ps[0]};
      assert ps[0] !in t;
    }
  }

  function ProblemIdsOf(rows: seq<BestRow>): (r: seq<int>)
    ensures |r| == |rows| && forall i :: 0 <= i < |rows| ==> r[i] == rows[i].problemId
  {
    seq(|rows|, i requires 0 <= i < |rows| => rows[i].problemId)
  }

  /** Rows with distinct (user, problem) pairs give each of one user's
      problems once. */
  lemma {:induction false} OwnProblemIdsDistinct(best: seq<BestRow>, userId: string)
    requires forall i, j :: 0 <= i < j < |best| ==>
               (best[i].userId, best[i].problemId) != (best[j].userId, best[j].problemId)
    ensures NoRepeats(ProblemIdsOf(Storage.Filter(best, OfUser(userId))))
  {
    if best != [] {
      var rest := best[1..];
      OwnProblemIdsDistinct(rest, userId);
      var t := Storage.Filter(rest, OfUser(userId));
      var ids := ProblemIdsOf(Storage.Filter(best, OfUser(userId)));
      if OfUser(userId)(best[0]) {
        assert Storage.Filter(best, OfUser(userId)) == [best[0]] + t;
        forall k | 0 <= k < |t| ensures t[k].problemId != best[0].problemId {
          assert t[k] in rest;
          var m :| 0 <= m < |rest| && rest[m] == t[k];
          assert best[m + 1] == t[k];
        }
        forall i, j | 0 <= i < j < |ids| ensures ids[i] != ids[j] {
          if i == 0 {
            assert ids[j] == t[j - 1].problemId;
          } else {
            assert ids[i] == ProblemIdsOf(t)[i - 1] && ids[j] == ProblemIdsOf(t)[j - 1];
          }
        }
      } else {
        assert Storage.Filter(best, OfUser(userId)) == t;
      }
    }
  }

  /** The problems of a user's best rows are the problems the user attempted. */
  lemma OwnProblemIdsAreAttempted(subs: seq<Submission>, userId: string)
    ensures (set p | p in ProblemIdsOf(Storage.Filter(BestSubmissions(subs), OfUser(userId)))) ==
            AttemptedProblems(subs, userId)
  {
    var best := BestSubmissions(subs);
    var mine := Storage.Filter(best, OfUser(userId));
    var ids := ProblemIdsOf(mine);
    forall p | p in ids ensures p in AttemptedProblems(subs, userId) {
      var k :| 0 <= k < |ids| && ids[k] == p;
      assert mine[k] in mine;
      assert HasRow(best, userId, p);
      var s :| s in subs && s.userId == userId && s.problemId == p;
    }
    forall p | p in AttemptedProblems(subs, userId) ensures p in ids {
      var s :| s in subs && s.userId == userId && s.problemId == p;
      assert Attempted(subs, userId, p);
      var r :| r in best && r.userId == userId && r.problemId == p;
      assert r in mine;
      var k :| 0 <= k < |mine| && mine[k] == r;
      assert ids[k] == p;
    }
  }

  /** A user's solved count is the number of distinct problems the user has
      submitted for. */
  lemma ProblemsSolvedIsDistinctProblems(u: User, subs: seq<Submission>)
    ensures StandingOf(u, BestSubmissions(subs)).problemsSolved == |AttemptedProblems(subs, u.id)|
  {
    var ids := ProblemIdsOf(Storage.Filter(BestSubmissions(subs), OfUser(u.id)));
    OwnProblemIdsDistinct(BestSubmissions(subs), u.id);
    DistinctCardinality(ids);
    OwnProblemIdsAreAttempted(subs, u.id);
  }
}
