/** A client of the registry driving the administrator's commands in the
    order an operator would: create a fund, enrol two members, take a bid
    from each and run the payout round twice. */
module Scenario {
  import opened Domain
  import opened Registry

  /** Fund F1 (1200 over 12 months) with members Alice (P1) and Bob (P2),
      who bid 300 and 500 through the registry's bid entry. */
  method SetUp() returns (system: ChitFundManagementSystem, fund: ChitFundSystem, alice: Participant, bob: Participant)
    ensures fresh(system) && fresh(fund) && fresh(alice) && fresh(bob) && alice != bob
    ensures system.chitFunds == [fund] && fund.chitFundId == "F1"
    ensures fund.participants == [alice, bob]
    ensures fund.bids == [Bid(alice, 300), Bid(bob, 500)]
    ensures alice.amountReceived == 0 && bob.amountReceived == 0
  {
    system := new ChitFundManagementSystem();
    fund := new ChitFundSystem("F1", 1200, 12);
    system.AddChitFund(fund);
    assert FirstChitFundIndex(system.chitFunds, "F1") == 0;

    alice := new Participant("P1", "Alice");
    bob := new Participant("P2", "Bob");
    system.AddParticipantToChitFund("F1", alice);
    system.AddParticipantToChitFund("F1", bob);
    assert fund.participants == [alice, bob];

    var first := system.MakeBid("F1", "P1", 300);
    assert FirstParticipantIndex(fund.participants, "P1") == 0;
    assert first == Placed(Bid(alice, 300));
    assert "P1" != "P2" by { assert "P1"[1] != "P2"[1]; }
    var second := system.MakeBid("F1", "P2", 500);
    assert ParticipantIdOf(fund.participants[0]) != "P2" && ParticipantIdOf(fund.participants[1]) == "P2";
    assert FirstParticipantIndex(fund.participants, "P2") == 1;
  }

  /** The round pays Bob 500 and Alice nothing; since bids are not consumed,
      a second round pays Bob again. */
  method EndToEnd() returns (alice: int, bob: int, bobAfterSecondRound: int)
    ensures alice == 0 && bob == 500
    ensures bobAfterSecondRound == 1000
  {
    var system, fund, a, b := SetUp();
    assert HighestBidIndex(fund.bids) == 1 by {
      assert fund.bids[..1] == [Bid(a, 300)];
    }

    var round := system.ConductBidding("F1");
    assert round == Some(Distributed(b, 500));
    alice, bob := a.amountReceived, b.amountReceived;

    round := system.ConductBidding("F1");
    assert round == Some(Distributed(b, 500));
    bobAfterSecondRound := b.amountReceived;
  }
}
