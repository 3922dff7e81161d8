/** The entities of the chit-fund administrator: participants, the bids they
    place, and one fund (`ChitFundSystem`) with its auction-style payout.
    Monetary amounts are exact integers. */
module Domain {

  datatype Option<T> = None | Some(value: T)

  /** An offer by a participant to take the pool; immutable once made. */
  datatype Bid = Bid(participant: Participant, bidAmount: int)

  /** What one payout round reports: that there were no bids, or who was
      credited and with how much. */
  datatype Distribution = NoBids | Distributed(winner: Participant, amount: int)

  /** Index of the bid that a stream maximum by bid amount selects. The
      stream reduces left to right and keeps the accumulated bid unless the
      next one is strictly larger, so among equal maxima the earliest wins. */
  function HighestBidIndex(bids: seq<Bid>): (k: nat)
    requires bids != []
    ensures k < |bids|
    ensures forall j :: 0 <= j < |bids| ==> bids[j].bidAmount <= bids[k].bidAmount
    ensures forall j :: 0 <= j < k ==> bids[j].bidAmount < bids[k].bidAmount
    decreases |bids|
  {
    if |bids| == 1 then 0
    else
      var k := HighestBidIndex(bids[..|bids| - 1]);
      if bids[k].bidAmount >= bids[|bids| - 1].bidAmount then k else |bids| - 1
  }

  /** A bid placed after the others takes over the payout only when it is
      strictly larger than the current winner; an equal bid never does. */
  lemma HighestBidAfterAppend(bids: seq<Bid>, bid: Bid)
    requires bids != []
    ensures var k := HighestBidIndex(bids);
            HighestBidIndex(bids + [bid]) == if bid.bidAmount > bids[k].bidAmount then |bids| else k
  {
  }

  /** The tie-break on three bids of 100, 150 and 150: the first 150 wins. */
  lemma TieBreakKeepsFirstMaximum(p1: Participant, p2: Participant, p3: Participant)
    ensures HighestBidIndex([Bid(p1, 100), Bid(p2, 150), Bid(p3, 150)]) == 1
  {
  }

  /** Position of the first element whose key is `id`, or `|s|` when none
      has it: the for-each scan with an early break that every lookup by id uses. */
  function FirstIndexOf<T>(s: seq<T>, key: T -> string, id: string): (i: nat)
    ensures i <= |s|
    ensures forall j :: 0 <= j < i ==> key(s[j]) != id
    ensures i < |s| ==> key(s[i]) == id
  {
    if s == [] then 0
    else if key(s[0]) == id then 0
    else 1 + FirstIndexOf(s[1..], key, id)
  }

  function ParticipantIdOf(participant: Participant): string {
    participant.participantId
  }

  /** Position of the first participant carrying `participantId`, or
      `|participants|` when none does. */
  function FirstParticipantIndex(participants: seq<Participant>, participantId: string): nat {
    FirstIndexOf(participants, ParticipantIdOf, participantId)
  }

  class Participant {
    const participantId: string
    const name: string
    var amountReceived: int

    constructor (participantId: string, name: string)
      ensures this.participantId == participantId && this.name == name
      ensures amountReceived == 0
    {
      this.participantId := participantId;
      this.name := name;
      amountReceived := 0;
    }

    /** Credits `amount` to the running balance. */
    method ReceiveAmount(amount: int)
      modifies this
      ensures amountReceived == old(amountReceived) + amount
    {
      amountReceived := amountReceived + amount;
    }

    /** Records a bid of this participant in `chitFund`; membership is not checked here. */
    method MakeBid(chitFund: ChitFundSystem, bidAmount: int)
      modifies chitFund
      ensures chitFund.bids == old(chitFund.bids) + [Bid(this, bidAmount)]
      ensures chitFund.participants == old(chitFund.participants)
    {
      chitFund.AddBid(Bid(this, bidAmount));
    }
  }

  /** One fund: its fixed terms, its members and its bids, both in insertion order. */
  class ChitFundSystem {
    const chitFundId: string
    const totalAmount: int
    const numberOfMonths: int
    var participants: seq<Participant>
    var bids: seq<Bid>

    constructor (chitFundId: string, totalAmount: int, numberOfMonths: int)
      ensures this.chitFundId == chitFundId
      ensures this.totalAmount == totalAmount && this.numberOfMonths == numberOfMonths
      ensures participants == [] && bids == []
    {
      this.chitFundId := chitFundId;
      this.totalAmount := totalAmount;
      this.numberOfMonths := numberOfMonths;
      participants := [];
      bids := [];
    }

    method AddParticipant(participant: Participant)
      modifies this
      ensures participants == old(participants) + [participant]
      ensures bids == old(bids)
    {
      participants := participants + [participant];
    }

    method AddBid(bid: Bid)
      modifies this
      ensures bids == old(bids) + [bid]
      ensures participants == old(participants)
    {
      bids := bids + [bid];
    }

    /** The payout the current bids call for: none without bids, otherwise
        the first bid of the largest amount, paid to its bidder. */
    function Payout(): (d: Distribution)
      reads this
      ensures d.NoBids? <==> bids == []
      ensures d.Distributed? ==>
                var k := HighestBidIndex(bids);
                && Bid(d.winner, d.amount) == bids[k]
                && (forall j :: 0 <= j < |bids| ==> bids[j].bidAmount <= d.amount)
                && (forall j :: 0 <= j < k ==> bids[j].bidAmount < d.amount)
    {
      if bids == [] then NoBids
      else
        var top := bids[HighestBidIndex(bids)];
        Distributed(top.participant, top.bidAmount)
    }

    /** The participants a payout may credit: the winner, if there is one. */
    function Payees(): set<Participant>
      reads this
    {
      match Payout()
      case NoBids => {}
      case Distributed(winner, _) => {winner}
    }

    /** Pays the pool out on the highest bid. Only the winner's balance
        changes, and only by the winning amount; without bids nothing changes. */
    method DistributeAmount() returns (outcome: Distribution)
      modifies Payees()
      ensures outcome == Payout()
      ensures outcome.Distributed? ==>
                outcome.winner.amountReceived == old(outcome.winner.amountReceived) + outcome.amount
    {
      if bids != [] {
        var highestBid := bids[HighestBidIndex(bids)];
        var winner := highestBid.participant;
        winner.ReceiveAmount(highestBid.bidAmount);
        outcome := Distributed(winner, highestBid.bidAmount);
      } else {
        outcome := NoBids;
      }
    }

    /** The membership search of bid entry: the first member with `participantId`. */
    method FindParticipant(participantId: string) returns (participant: Option<Participant>)
      ensures var i := FirstParticipantIndex(participants, participantId);
              participant == if i < |participants| then Some(participants[i]) else None
    {
      participant := None;
      var i := 0;
      while i < |participants|
        invariant i <= |participants|
        invariant forall j :: 0 <= j < i ==> participants[j].participantId != participantId
      {
        if participants[i].participantId == participantId {
          participant := Some(participants[i]);
          break;
        }
        i := i + 1;
      }
    }
  }
}
