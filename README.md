# Chit-fund administrator: verified model of the domain layer

This project models the in-memory domain layer of a desktop administrator for
rotating-savings ("chit fund") groups. A **fund** (`ChitFundSystem`) has an
id, a total pool, a number of months, a member list and a bid list. A
**participant** has an id, a name and a running balance `amountReceived`. A
**bid** is an immutable pair of a participant and an amount. The **registry**
(`ChitFundManagementSystem`) keeps the funds in insertion order and finds a
fund by the first id match.

A payout round (`distributeAmount`) picks the highest bid and credits its
bidder with the bid amount. The stream maximum it uses keeps the earlier bid
on ties, so the winner is the first bid of maximal amount. Bid entry (the
logic inside the UI's `makeBid` handler) first finds the fund by id. It then
looks for the bidder among that fund's members and records the bid only when
the bidder is found.

Layout:

- `domain.dfy` (module `Domain`): `Bid`, `Participant`, `ChitFundSystem`, the
  highest-bid reduction `HighestBidIndex`, and `FirstIndexOf`, the first-match
  lookup by id that the member search (`FirstParticipantIndex`) and the fund
  search (`Registry.FirstChitFundIndex`) both use.
- `registry.dfy` (module `Registry`): `ChitFundManagementSystem` and bid entry.
- `scenario.dfy` (module `Scenario`): a client that creates a fund, enrols two
  members, takes their bids and runs the payout round twice.

The Java classes mutate objects in place, so the model uses Dafny classes.
Lists that only grow are `seq` fields that the methods reassign. Participants
are shared objects: the same participant can be in several funds and in many
bids, and a payout credits that one object. Frames are exact.
`DistributeAmount` may modify only the winning participant. The registry
operations may modify only the first fund whose id matches (`Target`), or that
fund's winner (`BiddingPayees`). So "nothing else changes" is checked by the
verifier and also spelled out in the `ensures` clauses.

Differences from the source and design decisions:

- Amounts are exact integers, not `double`.
- Ids, names, the total and the month count are `const`. The source never
  reassigns them after construction; `name` is a public non-final field that
  nothing writes.
- The Java getters are plain field reads. The model reads the fields directly.
- The registry does not check fund ids for uniqueness, and a fund does not
  check its members for duplicates (raw.java:138-149, raw.java:59-61); the
  model follows that. Rejecting duplicates in the registry would be a
  hardening. The program as a whole gets uniqueness from the store instead:
  the fund and participant tables key on the id (raw.java:212-221), and the
  UI handlers insert the row before they touch the registry
  (raw.java:440-449, raw.java:469-478). A taken id therefore makes the insert
  fail, and the in-memory change is skipped. The store is not part of this
  model. The lemma `LaterDuplicateIsShadowed` shows what the registry alone
  would do: a later fund with a taken id can never be reached by id.
- Bids are not checked for positivity, and they are not consumed by a payout.
  A second round pays the same winner again; `Scenario.EndToEnd` shows this.
- The three copies of the "scan the funds, stop at the first match" loop in
  the modelled code (raw.java:143-148, raw.java:152-157, raw.java:508-518)
  are written once, as `LocateChitFund`. The startup load has a fourth copy
  (raw.java:293-298), which is part of the persistence left out below.
- The Java class `Bid` (raw.java:113-129) becomes the datatype `Domain.Bid`.
  It has the same two fields, and its getters are field reads.
- The dialogs are replaced by return values. The datatype
  `Domain.Distribution` stands for the two messages of `distributeAmount`
  (raw.java:72-75). The datatype `Registry.BidResult` stands for the outcomes
  of bid entry: `NoChitFunds` is the early return at raw.java:487-490,
  `ChitFundNotFound` is the silent end of the scan at raw.java:508-526,
  `ParticipantNotFound` is the dialog at raw.java:522, and `Placed` is the
  recorded bid at raw.java:519. Datatypes carry no contract, so they have no
  row in the table below.

## Model

| member | source | states |
|---|---|---|
| Domain.HighestBidIndex | raw.java:69 | the selected bid has an amount at least every bid's amount, and every earlier bid is strictly smaller, so the first maximal bid wins |
| Domain.HighestBidAfterAppend | raw.java:63-69 | a bid added later displaces the current winner exactly when it is strictly larger; an equal later bid never does |
| Domain.TieBreakKeepsFirstMaximum | raw.java:69 | on bids of 100, 150, 150 the second bid (the first 150) wins |
| Domain.FirstIndexOf | raw.java:143-148 | the index is that of the first element whose id matches, or the list length when no id matches; it is the scan used for funds (raw.java:143-148, 152-157, 508-510) and for members (raw.java:511-517) |
| Domain.Participant.constructor | raw.java:85-89 | a new participant has the given id and name and a balance of 0 |
| Domain.Participant.ReceiveAmount | raw.java:103-105 | the balance becomes its old value plus the amount; nothing else changes |
| Domain.Participant.MakeBid | raw.java:107-110 | the fund's bid list gains exactly the bid (this participant, amount) at its end; its members are unchanged |
| Domain.ChitFundSystem.constructor | raw.java:31-37 | a new fund has the given id, total and months, and empty member and bid lists |
| Domain.ChitFundSystem.AddParticipant | raw.java:59-61 | the member list gains exactly the participant at its end; the bids are unchanged |
| Domain.ChitFundSystem.AddBid | raw.java:63-65 | the bid list gains exactly the bid at its end; the members are unchanged |
| Domain.ChitFundSystem.Payout | raw.java:67-71 | no payout exactly when there are no bids; otherwise the payout is the first bid of maximal amount |
| Domain.ChitFundSystem.DistributeAmount | raw.java:67-77 | reports the payout; the winner's balance rises by exactly the winning amount; only the winner may change, and without bids nothing changes |
| Domain.ChitFundSystem.FindParticipant | raw.java:511-517 | returns the first member with the given id, or none when no member has it |
| Registry.LaterDuplicateIsShadowed | raw.java:138-148 | adding a fund never changes the fund an id already resolves to; the new fund is found by its id only when no earlier fund has that id |
| Registry.ChitFundManagementSystem.constructor | raw.java:134-136 | a new registry has no funds |
| Registry.ChitFundManagementSystem.AddChitFund | raw.java:138-140 | the fund list gains exactly the fund at its end |
| Registry.ChitFundManagementSystem.LocateChitFund | raw.java:143-148 | the scan stops at the first fund with the id, or runs to the end when there is none |
| Registry.ChitFundManagementSystem.AddParticipantToChitFund | raw.java:142-149 | only the first fund with the id gains the participant at the end of its members; with no match no fund changes |
| Registry.ChitFundManagementSystem.ConductBidding | raw.java:151-158 | runs the payout of the first fund with the id and reports it, crediting only that fund's winner; an unknown id changes nothing and reports none |
| Registry.ChitFundManagementSystem.MakeBid | raw.java:486-526 | reports an empty registry, an unknown fund or a non-member bidder as distinct outcomes, and then no bid list changes; otherwise the first matching fund gains the bid of its first member with that id |
| Scenario.SetUp | raw.java:430-531 | creating fund F1, enrolling Alice and Bob and taking their bids of 300 and 500 gives exactly those members and bids, with zero balances |
| Scenario.EndToEnd | raw.java:533-541 | the first round pays Bob 500 and Alice nothing; a second round pays Bob another 500 |

## Left out

- Swing/AWT presentation is not modelled: layout, painting, button styling, the output text area and the `JOptionPane` dialogs. The dialogs' information is kept as return values.
- JDBC/SQLite persistence is not modelled: table creation, the write-through inserts in the UI handlers, the startup load and the table views. It is I/O against an external store. Three consequences are lost with it. `makeBid` stores the bid row before it checks membership. `loadDataFromDatabase` attaches every stored participant to every fund and does not restore balances. Every handler inserts first, so a failed insert skips the in-memory change; an insert fails on a taken key, or when `dbConnection` is null because the driver was not found (raw.java:189-201).
- Ids are never null in the model: `participantId` and `chitFundId` are Dafny strings. In the program, a cancelled input dialog yields a null id (raw.java:431, raw.java:464), and the store accepts it in a text primary key, so a fund or participant with a null id can be created (raw.java:448-449, raw.java:477-478). After that, a scan that reaches such an entry before a match throws `NullPointerException` (raw.java:144, raw.java:153, raw.java:509, raw.java:512). In bid entry the exception is caught at raw.java:527, after the bid row is stored; the `conductBidding` handler (raw.java:533-541) does not catch it. `LocateChitFund` and `FindParticipant` always finish. A null search key needs nothing extra, because `equals(null)` is false, which is how the model treats an id that matches nothing.
- Number parsing (`Double.parseDouble`, `Integer.parseInt`) and the exception-driven error dialogs around it are not modelled. Amounts arrive already parsed.
- IEEE-754 `double` arithmetic is not modelled. Amounts are exact integers, so rounding, NaN and infinities are outside the model.
- The UI handlers for fund creation, participant enrolment and bidding rounds are not modelled. Apart from dialogs and inserts, they consist of the registry calls that are modelled. `Scenario` uses them in that order.
- `main` and the event-thread launch are not modelled.
