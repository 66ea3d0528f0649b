/**
 * Voting in the Hasker question-and-answer site
 * (W7_Hasker/hasker/core_hasker/views.py, models.py): the vote records with
 * one vote per (user, target), the three transitions of a vote (first vote,
 * repeated vote, opposite vote), the counters of the voted question or
 * answer, and `save`, which recomputes the points from the counters.
 *
 * Users and targets are identified by numbers; the database is the maps and
 * fields below.
 */
module HaskerVotes {
  import opened Wrappers

  type String = seq<char>
  type UserId = nat

  // ---------------------------------------------------------------------
  // One vote
  // ---------------------------------------------------------------------

  /** 1 for a stored up-vote, else 0. */
  function Up(vote: Option<bool>): int { if vote == Some(true) then 1 else 0 }

  /** 1 for a stored down-vote, else 0. */
  function Down(vote: Option<bool>): int { if vote == Some(false) then 1 else 0 }

  /** The effect of one vote: the record left behind and the counter changes. */
  datatype Cast = Cast(vote: Option<bool>, dPositive: int, dNegative: int)

  /** The vote state machine of `post`: a first vote is recorded, the same
    * vote again removes the record, the opposite vote replaces it. The
    * counters move exactly as the number of stored up- and down-votes does. */
  function CastVote(existing: Option<bool>, upvote: bool): (c: Cast)
    ensures c.vote == (if existing == Some(upvote) then None else Some(upvote))
    ensures c.dPositive == Up(c.vote) - Up(existing)
    ensures c.dNegative == Down(c.vote) - Down(existing)
  {
    match existing
    case None =>
      if upvote then Cast(Some(true), 1, 0) else Cast(Some(false), 0, 1)
    case Some(v) =>
      if v == upvote then
        (if upvote then Cast(None, -1, 0) else Cast(None, 0, -1))
      else
        (if upvote then Cast(Some(true), 1, -1) else Cast(Some(false), -1, 1))
  }

  /** Voting twice the same way, from no vote or from that same vote, restores
    * the record and the counters. */
  lemma RepeatRestores(existing: Option<bool>, upvote: bool)
    requires existing == None || existing == Some(upvote)
    ensures var c1 := CastVote(existing, upvote);
            var c2 := CastVote(c1.vote, upvote);
            c2.vote == existing && c1.dPositive + c2.dPositive == 0 && c1.dNegative + c2.dNegative == 0
  {
  }

  /** From the opposite vote, voting twice the same way removes the vote:
    * the first vote flips it, the second deletes it. */
  lemma FlipThenRepeatRemoves(upvote: bool)
    ensures var c1 := CastVote(Some(!upvote), upvote);
            var c2 := CastVote(c1.vote, upvote);
            c2.vote == None && c1.dPositive + c2.dPositive == -Up(Some(!upvote))
            && c1.dNegative + c2.dNegative == -Down(Some(!upvote))
  {
  }

  // ---------------------------------------------------------------------
  // The vote table
  // ---------------------------------------------------------------------

  /** `QuestionVote` or `AnswerVote` rows: the value of the vote of a user on
    * a target. Being a map, it holds at most one vote per (user, target),
    * which is what `unique_together` enforces. */
  class VoteTable {
    var votes: map<(UserId, nat), bool>

    constructor ()
      ensures votes == map[]
    {
      votes := map[];
    }
  }

  /** The vote `user` has on `target`, if any. */
  function Existing(votes: map<(UserId, nat), bool>, user: UserId, target: nat): Option<bool>
  {
    if (user, target) in votes then Some(votes[(user, target)]) else None
  }

  /** The table after storing (or deleting) the vote of `user` on `target`. */
  function Record(votes: map<(UserId, nat), bool>, user: UserId, target: nat, vote: Option<bool>): map<(UserId, nat), bool>
  {
    if vote.Some? then votes[(user, target) := vote.value] else votes - {(user, target)}
  }

  /** The users with a stored up-vote on `target`. */
  function Ups(votes: map<(UserId, nat), bool>, target: nat): set<UserId>
  {
    set k | k in votes && k.1 == target && votes[k] :: k.0
  }

  /** The users with a stored down-vote on `target`. */
  function Downs(votes: map<(UserId, nat), bool>, target: nat): set<UserId>
  {
    set k | k in votes && k.1 == target && !votes[k] :: k.0
  }

  /** The counters of `target` agree with the stored votes. */
  predicate Counted(votes: map<(UserId, nat), bool>, target: nat, positive: int, negative: int)
  {
    positive == |Ups(votes, target)| && negative == |Downs(votes, target)|
  }

  /** A fresh target (no votes yet, counters at their default 0) is counted. */
  lemma FreshTargetCounted(votes: map<(UserId, nat), bool>, target: nat)
    requires forall k :: k in votes ==> k.1 != target
    ensures Counted(votes, target, 0, 0)
  {
    assert Ups(votes, target) == {};
    assert Downs(votes, target) == {};
  }

  /** Counted targets never have negative counters. */
  lemma CountedNonNegative(votes: map<(UserId, nat), bool>, target: nat, positive: int, negative: int)
    requires Counted(votes, target, positive, negative)
    ensures positive >= 0 && negative >= 0
  {
  }

  /** Removing one element from a set that holds it lowers its size by one. */
  lemma CardRemove(s: set<UserId>, x: UserId)
    requires x in s
    ensures |s - {x}| == |s| - 1
  {
    assert s == (s - {x}) + {x};
  }

  /** The up-votes on `target` after recording a vote of `user`. */
  lemma UpsAfterRecord(votes: map<(UserId, nat), bool>, user: UserId, target: nat, vote: Option<bool>)
    ensures Ups(Record(votes, user, target, vote), target) ==
            (Ups(votes, target) - {user}) + (if vote == Some(true) then {user} else {})
    ensures user in Ups(votes, target) <==> Existing(votes, user, target) == Some(true)
  {
    var after := Record(votes, user, target, vote);
    var want := (Ups(votes, target) - {user}) + (if vote == Some(true) then {user} else {});
    forall u ensures u in Ups(after, target) <==> u in want {
      if u in Ups(after, target) {
        var k :| k in after && k.1 == target && after[k] && k.0 == u;
      }
      if u in Ups(votes, target) && u != user {
        var k :| k in votes && k.1 == target && votes[k] && k.0 == u;
        assert k in after && after[k];
      }
    }
    if user in Ups(votes, target) {
      var k :| k in votes && k.1 == target && votes[k] && k.0 == user;
    }
  }

  /** The down-votes on `target` after recording a vote of `user`. */
  lemma DownsAfterRecord(votes: map<(UserId, nat), bool>, user: UserId, target: nat, vote: Option<bool>)
    ensures Downs(Record(votes, user, target, vote), target) ==
            (Downs(votes, target) - {user}) + (if vote == Some(false) then {user} else {})
    ensures user in Downs(votes, target) <==> Existing(votes, user, target) == Some(false)
  {
    var after := Record(votes, user, target, vote);
    var want := (Downs(votes, target) - {user}) + (if vote == Some(false) then {user} else {});
    forall u ensures u in Downs(after, target) <==> u in want {
      if u in Downs(after, target) {
        var k :| k in after && k.1 == target && !after[k] && k.0 == u;
      }
      if u in Downs(votes, target) && u != user {
        var k :| k in votes && k.1 == target && !votes[k] && k.0 == u;
        assert k in after && !after[k];
      }
    }
    if user in Downs(votes, target) {
      var k :| k in votes && k.1 == target && !votes[k] && k.0 == user;
    }
  }

  /** The size of a set after taking one element out and maybe putting it back. */
  lemma CardReplace(s: set<UserId>, x: UserId, back: bool)
    ensures |(s - {x}) + (if back then {x} else {})| == |s| - (if x in s then 1 else 0) + (if back then 1 else 0)
  {
    if x in s {
      CardRemove(s, x);
    } else {
      assert s - {x} == s;
    }
  }

  /** The counting invariant: a vote keeps the counters of its target equal
    * to the number of stored up- and down-votes. */
  lemma CastKeepsCount(votes: map<(UserId, nat), bool>, user: UserId, target: nat, upvote: bool, positive: int, negative: int)
    requires Counted(votes, target, positive, negative)
    ensures var c := CastVote(Existing(votes, user, target), upvote);
            Counted(Record(votes, user, target, c.vote), target, positive + c.dPositive, negative + c.dNegative)
  {
    var c := CastVote(Existing(votes, user, target), upvote);
    UpsAfterRecord(votes, user, target, c.vote);
    DownsAfterRecord(votes, user, target, c.vote);
    CardReplace(Ups(votes, target), user, c.vote == Some(true));
    CardReplace(Downs(votes, target), user, c.vote == Some(false));
  }

  /** A vote on one target leaves the votes on every other target as they were. */
  lemma RecordKeepsOthers(votes: map<(UserId, nat), bool>, user: UserId, target: nat, vote: Option<bool>, other: nat)
    requires other != target
    ensures Ups(Record(votes, user, target, vote), other) == Ups(votes, other)
    ensures Downs(Record(votes, user, target, vote), other) == Downs(votes, other)
  {
    var after := Record(votes, user, target, vote);
    forall u | u in Ups(votes, other) ensures u in Ups(after, other) {
      var k :| k in votes && k.1 == other && votes[k] && k.0 == u;
      assert k in after;
    }
    forall u | u in Downs(votes, other) ensures u in Downs(after, other) {
      var k :| k in votes && k.1 == other && !votes[k] && k.0 == u;
      assert k in after;
    }
  }

  // ---------------------------------------------------------------------
  // Questions, answers and the vote views
  // ---------------------------------------------------------------------

  class Question {
    const id: nat
    const author: UserId
    const slug: String
    var title: String
    var questionTags: String
    var questionText: String
    var createdAt: int
    var positiveVotes: int
    var negativeVotes: int
    var totalPoints: int

    /** A new question: every counter at its default 0. */
    constructor (id: nat, author: UserId, slug: String, title: String, questionTags: String, questionText: String, createdAt: int)
      ensures this.id == id && this.author == author && this.slug == slug
      ensures this.title == title && this.questionTags == questionTags && this.questionText == questionText
      ensures this.createdAt == createdAt
      ensures positiveVotes == 0 && negativeVotes == 0 && totalPoints == 0
    {
      this.id := id;
      this.author := author;
      this.slug := slug;
      this.title := title;
      this.questionTags := questionTags;
      this.questionText := questionText;
      this.createdAt := createdAt;
      positiveVotes := 0;
      negativeVotes := 0;
      totalPoints := 0;
    }

    /** `save`: the points become up-votes minus down-votes. */
    method Save()
      modifies this
      ensures totalPoints == positiveVotes - negativeVotes
      ensures positiveVotes == old(positiveVotes) && negativeVotes == old(negativeVotes)
      ensures title == old(title) && questionTags == old(questionTags) && questionText == old(questionText)
      ensures createdAt == old(createdAt)
    {
      totalPoints := positiveVotes - negativeVotes;
    }
  }

  class Answer {
    const id: nat
    const question: Question
    const author: UserId
    var answerText: String
    var createdAt: int
    var isCorrect: bool
    var positiveVotes: int
    var negativeVotes: int
    var totalPoints: int

    /** A new answer: not marked correct, every counter at its default 0. */
    constructor (id: nat, question: Question, author: UserId, answerText: String, createdAt: int)
      ensures this.id == id && this.question == question && this.author == author
      ensures this.answerText == answerText && this.createdAt == createdAt
      ensures !isCorrect && positiveVotes == 0 && negativeVotes == 0 && totalPoints == 0
    {
      this.id := id;
      this.question := question;
      this.author := author;
      this.answerText := answerText;
      this.createdAt := createdAt;
      isCorrect := false;
      positiveVotes := 0;
      negativeVotes := 0;
      totalPoints := 0;
    }

    /** `save`: the points become up-votes minus down-votes. */
    method Save()
      modifies this
      ensures totalPoints == positiveVotes - negativeVotes
      ensures positiveVotes == old(positiveVotes) && negativeVotes == old(negativeVotes)
      ensures answerText == old(answerText) && createdAt == old(createdAt) && isCorrect == old(isCorrect)
    {
      totalPoints := positiveVotes - negativeVotes;
    }
  }

  /** Where a vote view sends the browser, or the error it raises. */
  datatype PostOutcome = OwnVoteRejected | RedirectTo(url: String) | RedirectToQuestion(slug: String)

  /** The vote is an up-vote when the form carries an `upvote` field at all. */
  predicate IsUpvote(post: map<String, String>) { "upvote" in post }

  /** `next` from the form, `''` when absent. */
  function NextUrl(post: map<String, String>): String
  {
    if "next" in post then post["next"] else ""
  }

  /** After a vote: to `next` when it is given, else to the question's page. */
  function AfterVote(post: map<String, String>, questionSlug: String): (r: PostOutcome)
    ensures r.RedirectTo? <==> NextUrl(post) != ""
    ensures r.RedirectTo? ==> r.url == post["next"]
    ensures r.RedirectToQuestion? ==> r.slug == questionSlug
  {
    if NextUrl(post) != "" then RedirectTo(NextUrl(post)) else RedirectToQuestion(questionSlug)
  }

  /** `QuestionVoteView.post`. */
  method QuestionVotePost(q: Question, table: VoteTable, user: UserId, post: map<String, String>) returns (r: PostOutcome)
    modifies q, table
    ensures user == q.author ==> r == OwnVoteRejected && unchanged(q) && unchanged(table)
    ensures user != q.author ==>
              var c := CastVote(Existing(old(table.votes), user, q.id), IsUpvote(post));
              && table.votes == Record(old(table.votes), user, q.id, c.vote)
              && q.positiveVotes == old(q.positiveVotes) + c.dPositive
              && q.negativeVotes == old(q.negativeVotes) + c.dNegative
              && q.totalPoints == q.positiveVotes - q.negativeVotes
              && r == AfterVote(post, q.slug)
    ensures q.title == old(q.title) && q.questionTags == old(q.questionTags)
    ensures q.questionText == old(q.questionText) && q.createdAt == old(q.createdAt)
    ensures Counted(old(table.votes), q.id, old(q.positiveVotes), old(q.negativeVotes)) ==>
              Counted(table.votes, q.id, q.positiveVotes, q.negativeVotes)
  {
    if q.author == user {
      return OwnVoteRejected;
    }
    var upvote := IsUpvote(post);
    var c := CastVote(Existing(table.votes, user, q.id), upvote);
    if Counted(table.votes, q.id, q.positiveVotes, q.negativeVotes) {
      CastKeepsCount(table.votes, user, q.id, upvote, q.positiveVotes, q.negativeVotes);
    }
    table.votes := Record(table.votes, user, q.id, c.vote);
    q.positiveVotes := q.positiveVotes + c.dPositive;
    q.negativeVotes := q.negativeVotes + c.dNegative;
    q.Save();
    r := AfterVote(post, q.slug);
  }

  /** `AnswerVoteView.post`: the same transitions on the answer, then back to
    * the page of the answer's question. */
  method AnswerVotePost(a: Answer, table: VoteTable, user: UserId, post: map<String, String>) returns (r: PostOutcome)
    modifies a, table
    ensures user == a.author ==> r == OwnVoteRejected && unchanged(a) && unchanged(table)
    ensures user != a.author ==>
              var c := CastVote(Existing(old(table.votes), user, a.id), IsUpvote(post));
              && table.votes == Record(old(table.votes), user, a.id, c.vote)
              && a.positiveVotes == old(a.positiveVotes) + c.dPositive
              && a.negativeVotes == old(a.negativeVotes) + c.dNegative
              && a.totalPoints == a.positiveVotes - a.negativeVotes
              && r == AfterVote(post, a.question.slug)
    ensures a.answerText == old(a.answerText) && a.createdAt == old(a.createdAt) && a.isCorrect == old(a.isCorrect)
    ensures Counted(old(table.votes), a.id, old(a.positiveVotes), old(a.negativeVotes)) ==>
              Counted(table.votes, a.id, a.positiveVotes, a.negativeVotes)
  {
    if a.author == user {
      return OwnVoteRejected;
    }
    var upvote := IsUpvote(post);
    var c := CastVote(Existing(table.votes, user, a.id), upvote);
    if Counted(table.votes, a.id, a.positiveVotes, a.negativeVotes) {
      CastKeepsCount(table.votes, user, a.id, upvote, a.positiveVotes, a.negativeVotes);
    }
    table.votes := Record(table.votes, user, a.id, c.vote);
    a.positiveVotes := a.positiveVotes + c.dPositive;
    a.negativeVotes := a.negativeVotes + c.dNegative;
    a.Save();
    r := AfterVote(post, a.question.slug);
  }
}
