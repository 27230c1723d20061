/** The vote widget of src/components/molecules/VoteControls.jsx: the score it shows, the
    request each arrow sends, and the colour of the score. */
module VoteWidget {
  import opened Posts

  /** `upvotes - downvotes`, the number shown between the arrows. */
  function VoteScore(upvotes: int, downvotes: int): int {
    upvotes - downvotes
  }

  /** The request the up arrow sends: clear an active upvote, otherwise upvote. */
  function UpClick(userVote: Vote): (requested: Vote)
    ensures requested == NoVote <==> userVote == Up
    ensures requested != NoVote ==> requested == Up
  {
    if userVote == Up then NoVote else Up
  }

  /** The request the down arrow sends: clear an active downvote, otherwise downvote. */
  function DownClick(userVote: Vote): (requested: Vote)
    ensures requested == NoVote <==> userVote == Down
    ensures requested != NoVote ==> requested == Down
  {
    if userVote == Down then NoVote else Down
  }

  /** Sending the arrow's request has the same effect as sending "up" or "down": an active
      vote of the same kind is withdrawn, anything else becomes that vote. */
  lemma ClicksAgreeWithVoteRule(p: Post)
    ensures Voted(p, UpClick(p.userVote)) == Voted(p, Up)
    ensures Voted(p, DownClick(p.userVote)) == Voted(p, Down)
  {
  }

  /** On a post whose counters include the user's vote, the up arrow moves the score by
      +1 from no vote, by +2 from a downvote, and by -1 when it withdraws an upvote; the
      down arrow mirrors it. */
  lemma ClickMovesScore(p: Post)
    requires Consistent(p)
    ensures var q := Voted(p, UpClick(p.userVote));
      VoteScore(q.upvotes, q.downvotes) - VoteScore(p.upvotes, p.downvotes)
        == (match p.userVote case NoVote => 1 case Down => 2 case Up => -1)
    ensures var q := Voted(p, DownClick(p.userVote));
      VoteScore(q.upvotes, q.downvotes) - VoteScore(p.upvotes, p.downvotes)
        == (match p.userVote case NoVote => -1 case Up => -2 case Down => 1)
  {
  }

  /** The class names `ScoreColor` chooses between are pairwise different strings. */
  lemma ColorsDistinct()
    ensures "text-gray-700" != "text-downvote" && "text-gray-500" != "text-downvote"
    ensures "text-gray-600" != "text-downvote"
    ensures "text-gray-700" != "text-gray-500" && "text-gray-700" != "text-gray-600"
    ensures "text-gray-500" != "text-gray-600"
  {
    assert "text-gray-700"[5] != "text-downvote"[5] && "text-gray-500"[5] != "text-downvote"[5];
    assert "text-gray-600"[5] != "text-downvote"[5];
    assert "text-gray-700"[10] != "text-gray-500"[10] && "text-gray-700"[10] != "text-gray-600"[10];
    assert "text-gray-500"[10] != "text-gray-600"[10];
  }

  /** The colour class of the score: the user's own vote first, then the score's sign. */
  function ScoreColor(userVote: Vote, upvotes: int, downvotes: int): (c: string)
    ensures c == "text-upvote" <==> userVote.Up?
    ensures c == "text-downvote" <==> userVote.Down?
    ensures c == "text-gray-700" <==> userVote.NoVote? && VoteScore(upvotes, downvotes) > 0
    ensures c == "text-gray-500" <==> userVote.NoVote? && VoteScore(upvotes, downvotes) < 0
    ensures c == "text-gray-600" <==> userVote.NoVote? && VoteScore(upvotes, downvotes) == 0
  {
    var voteScore := VoteScore(upvotes, downvotes);
    ColorsDistinct();
    if userVote == Up then "text-upvote"
    else if userVote == Down then "text-downvote"
    else if voteScore > 0 then "text-gray-700"
    else if voteScore < 0 then "text-gray-500"
    else "text-gray-600"
  }
}
