/** The registry of funds (`ChitFundManagementSystem`) and the bid entry it
    serves. Funds are kept in insertion order and found by the first id
    match; ids are not required to be unique. */
module Registry {
  import opened Domain

  function ChitFundIdOf(chitFund: ChitFundSystem): string {
    chitFund.chitFundId
  }

  /** Position of the first fund carrying `chitFundId`, or `|chitFunds|`
      when none does. */
  function FirstChitFundIndex(chitFunds: seq<ChitFundSystem>, chitFundId: string): nat {
    FirstIndexOf(chitFunds, ChitFundIdOf, chitFundId)
  }

  /** Registering a fund never changes which fund an id already resolves
      to: a fund whose id is taken is unreachable by id, and a new fund is
      found by its id exactly when no earlier fund has that id. */
  lemma {:induction false} LaterDuplicateIsShadowed(chitFunds: seq<ChitFundSystem>, chitFund: ChitFundSystem, chitFundId: string)
    ensures var i := FirstChitFundIndex(chitFunds, chitFundId);
            i < |chitFunds| ==> FirstChitFundIndex(chitFunds + [chitFund], chitFundId) == i
    ensures var i := FirstChitFundIndex(chitFunds, chitFundId);
            i == |chitFunds| ==>
              (FirstChitFundIndex(chitFunds + [chitFund], chitFundId) == |chitFunds| <==> chitFund.chitFundId == chitFundId)
  {
    if chitFunds != [] && chitFunds[0].chitFundId != chitFundId {
      LaterDuplicateIsShadowed(chitFunds[1..], chitFund, chitFundId);
      assert (chitFunds + [chitFund])[1..] == chitFunds[1..] + [chitFund];
    }
  }

  /** What bid entry reports back. */
  datatype BidResult = NoChitFunds | ChitFundNotFound | ParticipantNotFound | Placed(bid: Bid)

  class ChitFundManagementSystem {
    var chitFunds: seq<ChitFundSystem>

    constructor ()
      ensures chitFunds == []
    {
      chitFunds := [];
    }

    method AddChitFund(chitFund: ChitFundSystem)
      modifies this
      ensures chitFunds == old(chitFunds) + [chitFund]
    {
      chitFunds := chitFunds + [chitFund];
    }

    /** The funds an operation on `chitFundId` may change: the first one with that id, if any. */
    function Target(chitFundId: string): set<ChitFundSystem>
      reads this
    {
      var i := FirstChitFundIndex(chitFunds, chitFundId);
      if i < |chitFunds| then {chitFunds[i]} else {}
    }

    /** The participants a bidding round on `chitFundId` may credit. */
    function BiddingPayees(chitFundId: string): set<Participant>
      reads this, set f | f in chitFunds
    {
      var i := FirstChitFundIndex(chitFunds, chitFundId);
      if i < |chitFunds| then chitFunds[i].Payees() else {}
    }

    /** The search loop the registry operations share: scan in order, stop at the first match. */
    method LocateChitFund(chitFundId: string) returns (i: nat)
      ensures i == FirstChitFundIndex(chitFunds, chitFundId)
    {
      i := 0;
      while i < |chitFunds|
        invariant i <= |chitFunds|
        invariant forall j :: 0 <= j < i ==> chitFunds[j].chitFundId != chitFundId
      {
        if chitFunds[i].chitFundId == chitFundId {
          return;
        }
        i := i + 1;
      }
    }

    /** Appends `participant` to the first fund with id `chitFundId`; an
        unknown id changes nothing. */
    method AddParticipantToChitFund(chitFundId: string, participant: Participant)
      modifies Target(chitFundId)
      ensures var i := FirstChitFundIndex(chitFunds, chitFundId);
              i < |chitFunds| ==>
                && chitFunds[i].participants == old(chitFunds[i].participants) + [participant]
                && chitFunds[i].bids == old(chitFunds[i].bids)
      ensures FirstChitFundIndex(chitFunds, chitFundId) == |chitFunds| ==>
                forall f :: f in chitFunds ==> f.participants == old(f.participants) && f.bids == old(f.bids)
    {
      var i := LocateChitFund(chitFundId);
      if i < |chitFunds| {
        chitFunds[i].AddParticipant(participant);
      }
    }

    /** Runs one payout round on the first fund with id `chitFundId`;
        `None` (and no change) for an unknown id. */
    method ConductBidding(chitFundId: string) returns (outcome: Option<Distribution>)
      modifies BiddingPayees(chitFundId)
      ensures var i := FirstChitFundIndex(chitFunds, chitFundId);
              outcome == if i < |chitFunds| then Some(chitFunds[i].Payout()) else None
      ensures outcome.Some? && outcome.value.Distributed? ==>
                var d := outcome.value;
                d.winner.amountReceived == old(d.winner.amountReceived) + d.amount
    {
      var i := LocateChitFund(chitFundId);
      if i < |chitFunds| {
        var d := chitFunds[i].DistributeAmount();
        outcome := Some(d);
      } else {
        outcome := None;
      }
    }

    /** Bid entry: find the fund by id, find the bidder among that fund's
        members by id, and record the bid only when both are found. */
    method MakeBid(chitFundId: string, participantId: string, bidAmount: int) returns (result: BidResult)
      modifies Target(chitFundId)
      ensures result.NoChitFunds? <==> chitFunds == []
      ensures result.ChitFundNotFound? <==>
                chitFunds != [] && FirstChitFundIndex(chitFunds, chitFundId) == |chitFunds|
      ensures result.ParticipantNotFound? <==>
                var i := FirstChitFundIndex(chitFunds, chitFundId);
                i < |chitFunds| &&
                FirstParticipantIndex(chitFunds[i].participants, participantId) == |chitFunds[i].participants|
      ensures result.Placed? ==>
                var f := chitFunds[FirstChitFundIndex(chitFunds, chitFundId)];
                && result.bid == Bid(f.participants[FirstParticipantIndex(f.participants, participantId)], bidAmount)
                && f.bids == old(f.bids) + [result.bid]
      ensures !result.Placed? ==> forall f :: f in chitFunds ==> f.bids == old(f.bids)
      ensures forall f :: f in chitFunds ==> f.participants == old(f.participants)
    {
      if chitFunds == [] {
        return NoChitFunds;
      }
      var i := LocateChitFund(chitFundId);
      if i == |chitFunds| {
        return ChitFundNotFound;
      }
      var cf := chitFunds[i];
      var participant := cf.FindParticipant(participantId);
      if participant.Some? {
        participant.value.MakeBid(cf, bidAmount);
        result := Placed(Bid(participant.value, bidAmount));
      } else {
        result := ParticipantNotFound;
      }
    }
  }
}
