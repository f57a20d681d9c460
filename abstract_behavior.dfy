/**
 * base::ubf::AbstractBehavior: a behaviour of the Unified Behavior
 * Framework, whose default vote (weight) for the actions it generates is
 * set from the `vote` slot. Only votes from 1 to 65535 are accepted.
 */
module UbfAbstractBehavior {
  import opened Common

  /** The largest vote the slot accepts. */
  const MaxVote: int := 65535

  predicate ValidVote(v: int) {
    0 < v <= MaxVote
  }

  class AbstractBehavior {
    var vote: uint32

    /** The vote starts at the value the header gives it, a parameter here. */
    constructor (vote0: uint32)
      ensures vote == vote0
    {
      vote := vote0;
    }

    /** setVote(). */
    method SetVote(x: uint32)
      modifies this
      ensures vote == x
    {
      vote := x;
    }

    /**
     * setSlotVote(num): num->getInt() is read without a null check, so the
     * number is always present here; it is stored only when it lies in
     * 1 .. 65535.
     */
    method SetSlotVote(num: int32) returns (ok: bool)
      modifies this
      ensures (vote as int, ok) == SlotVote(old(vote) as int, num)
    {
      ok := false;
      var v := num;
      if v > 0 && v <= MaxVote {
        SetVote(v);
        ok := true;
      }
    }
  }

  /** setSlotVote(num) on a behaviour whose vote is `vote`: the new vote and the result. */
  function SlotVote(vote: int, num: int): (r: (int, bool))
    ensures r.1 <==> ValidVote(num)
    ensures r.1 ==> r.0 == num
    ensures !r.1 ==> r.0 == vote
  {
    if 0 < num <= MaxVote then (num, true) else (vote, false)
  }

  /** The vote after setSlotVote() was called with each of `nums`, in order. */
  function SlotVotes(vote: int, nums: seq<int>): int
    decreases |nums|
  {
    if nums == [] then vote
    else SlotVote(SlotVotes(vote, nums[..|nums| - 1]), nums[|nums| - 1]).0
  }

  /** A vote in 1 .. 65535 stays in that range whatever numbers the slot is given. */
  lemma {:induction false} VotesStayValid(vote: int, nums: seq<int>)
    requires ValidVote(vote)
    ensures ValidVote(SlotVotes(vote, nums))
    decreases |nums|
  {
    if nums != [] {
      VotesStayValid(vote, nums[..|nums| - 1]);
    }
  }

  /** When the slot accepts none of the numbers, the vote stays as it was. */
  lemma {:induction false} NoAcceptedVoteKeepsVote(vote: int, nums: seq<int>)
    requires forall i :: 0 <= i < |nums| ==> !ValidVote(nums[i])
    ensures SlotVotes(vote, nums) == vote
    decreases |nums|
  {
    if nums != [] {
      NoAcceptedVoteKeepsVote(vote, nums[..|nums| - 1]);
    }
  }

  /** The vote is the last number the slot accepted. */
  lemma {:induction false} LastAcceptedVoteWins(vote: int, nums: seq<int>, i: nat)
    requires i < |nums| && ValidVote(nums[i])
    requires forall j :: i < j < |nums| ==> !ValidVote(nums[j])
    ensures SlotVotes(vote, nums) == nums[i]
    decreases |nums|
  {
    if i < |nums| - 1 {
      var front := nums[..|nums| - 1];
      LastAcceptedVoteWins(vote, front, i);
    }
  }
}
