/**
 * The community feedback board: suggestions are added to the end of a list
 * and voted up or down.
 */
module CommunityFeedback {
  import opened Text

  /** One suggestion on the board. */
  datatype Item = Item(id: int, text: string, date: string, status: string, votes: int)

  /** The item a fresh suggestion becomes: the text as typed, pending, no votes. */
  function NewItem(id: int, text: string, date: string): Item {
    Item(id, text, date, "Pending", 0)
  }

  /** `handleVote`'s list: every item with the id gets `delta` more votes, the rest stay as they are. */
  function Voted(list: seq<Item>, id: int, delta: int): (r: seq<Item>)
    ensures |r| == |list|
    ensures forall i :: 0 <= i < |list| ==>
      r[i] == (if list[i].id == id then list[i].(votes := list[i].votes + delta) else list[i])
  {
    seq(|list|, i requires 0 <= i < |list| =>
      if list[i].id == id then list[i].(votes := list[i].votes + delta) else list[i])
  }

  /** A vote and its opposite cancel out: an upvote then a downvote restores the list. */
  lemma VoteUndo(list: seq<Item>, id: int, delta: int)
    ensures Voted(Voted(list, id, delta), id, -delta) == list
  {
  }

  /** A vote for an id no item has changes nothing. */
  lemma VoteUnknown(list: seq<Item>, id: int, delta: int)
    requires forall i :: 0 <= i < |list| ==> list[i].id != id
    ensures Voted(list, id, delta) == list
  {
  }

  /** Votes on any two ids give the same list in either order. */
  lemma VotesCommute(list: seq<Item>, a: int, da: int, b: int, db: int)
    ensures Voted(Voted(list, a, da), b, db) == Voted(Voted(list, b, db), a, da)
  {
  }

  /** Sum of all votes on the board. */
  function TotalVotes(list: seq<Item>): int {
    if list == [] then 0 else list[0].votes + TotalVotes(list[1..])
  }

  /** How many items carry the id. */
  function CountId(list: seq<Item>, id: int): (r: nat)
    ensures r <= |list|
  {
    if list == [] then 0 else (if list[0].id == id then 1 else 0) + CountId(list[1..], id)
  }

  /** A vote moves the total by `delta` for each item with the id. */
  lemma {:induction false} VoteTotal(list: seq<Item>, id: int, delta: int)
    ensures TotalVotes(Voted(list, id, delta)) == TotalVotes(list) + delta * CountId(list, id)
  {
    if list != [] {
      VoteTotal(list[1..], id, delta);
      assert Voted(list, id, delta)[1..] == Voted(list[1..], id, delta);
    }
  }

  /** Votes have no floor: a downvote on a fresh item takes it below zero. */
  lemma VotesCanGoNegative(id: int, text: string, date: string)
    ensures Voted([NewItem(id, text, date)], id, -1)[0].votes == -1
  {
  }

  /** No two items share an id. */
  predicate UniqueIds(list: seq<Item>) {
    forall i, j :: 0 <= i < j < |list| ==> list[i].id != list[j].id
  }

  /** With unique ids a vote changes the votes of one item at most, and nothing else. */
  lemma VoteTouchesOne(list: seq<Item>, id: int, delta: int)
    requires UniqueIds(list)
    ensures forall i, j :: 0 <= i < j < |list| ==> Voted(list, id, delta)[i] == list[i] || Voted(list, id, delta)[j] == list[j]
    ensures UniqueIds(Voted(list, id, delta))
  {
  }

  /** The board's state. */
  class FeedbackBoard {
    var feedback: string
    var list: seq<Item>
    var isSubmitting: bool

    constructor()
      ensures feedback == "" && list == [] && !isSubmitting
    {
      feedback := "";
      list := [];
      isSubmitting := false;
    }

    /** Typing in the input. */
    method SetFeedback(text: string)
      modifies this
      ensures feedback == text && list == old(list) && isSubmitting == old(isSubmitting)
    {
      feedback := text;
    }

    /**
     * `handleAdd` with its delayed update taken as one step: blank text does
     * nothing; otherwise the untrimmed text is appended as a new pending item
     * with the given id and date, and the input is cleared.
     */
    method HandleAdd(id: int, date: string)
      modifies this
      ensures IsBlank(old(feedback)) ==>
        feedback == old(feedback) && list == old(list) && isSubmitting == old(isSubmitting)
      ensures !IsBlank(old(feedback)) ==>
        list == old(list) + [NewItem(id, old(feedback), date)] && feedback == "" && !isSubmitting
    {
      if IsBlank(feedback) {
        return;
      }
      list := list + [NewItem(id, feedback, date)];
      feedback := "";
      isSubmitting := false;
    }

    /** `handleVote`: only the items with the id change, and only in their votes. */
    method HandleVote(id: int, delta: int)
      modifies this
      ensures list == Voted(old(list), id, delta)
      ensures feedback == old(feedback) && isSubmitting == old(isSubmitting)
    {
      list := Voted(list, id, delta);
    }
  }
}
