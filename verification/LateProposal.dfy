/** A request that inserts its pledge, is overtaken, and proposes only after the owner
    raised the price. */
module LateProposal {
  import opened Prelude
  import opened Reservations
  import opened Cobuying
  import opened ItemLedger
  import opened LedgerRuns

  function Priced(price: int, rows: map<Id, Contribution>, matches: map<Id, Match>, minted: nat): Ledger {
    Ledger(Some(price), 1, None, map[], Cobuy(rows, matches), minted)
  }

  // The ledger after each step: the pledge of 40, whose proposal is late; the pledge
  // of 60, which forms the first match; the price raised from 100 to 300; two more
  // pledges; and the late proposal against the price of 100.
  function NewItem(): Ledger { Priced(100, map[], map[], 0) }
  function OnePledged(): Ledger { Priced(100, map[0 := NewPledge(40, "", Sha(1))], map[], 2) }
  function FirstMatched(): Ledger {
    var funded := Pledge(OnePledged(), 60, "");
    funded.(cobuy := Propose(funded.cobuy, 4, 0, None, EarlyTokens()), minted := 7)
  }
  function PriceRaised(): Ledger { FirstMatched().(price := Some(300)) }
  function ThirdPledged(): Ledger { Pledge(PriceRaised(), 50, "") }
  function FourthPledged(): Ledger { Pledge(ThirdPledged(), 60, "") }
  function SecondMatched(): Ledger {
    FourthPledged().(cobuy := Propose(FourthPledged().cobuy, 11, 0, None, LateTokens()), minted := 14)
  }

  function EarlyTokens(): map<Id, Token>
    ensures PendingIds(Pledge(OnePledged(), 60, "").cobuy) <= EarlyTokens().Keys
  {
    map[0 := 5, 2 := 6]
  }
  function LateTokens(): map<Id, Token>
    ensures PendingIds(FourthPledged().cobuy) <= LateTokens().Keys
  {
    map[7 := 12, 9 := 13]
  }

  function Early(): History { History({100}, {1}, {}) }
  function Late(): History { History({100, 300}, {1}, {}) }

  lemma PledgeAllowed(l: Ledger, pledged: int, price: int)
    requires LiveReservations(l) == {} && 0 <= Funded(l.cobuy) && 0 < pledged
    requires Funded(l.cobuy) + pledged <= price <= MAX_INT64
    ensures CanPledge(l, pledged, price)
  {
  }

  /** What is funded after each step. */
  lemma FundedSoFar()
    ensures Funded(NewItem().cobuy) == 0 && Funded(OnePledged().cobuy) == 40
    ensures Funded(Pledge(OnePledged(), 60, "").cobuy) == Funded(PriceRaised().cobuy) == 100
    ensures Funded(ThirdPledged().cobuy) == 150
  {
    assert Pledges(NewItem().cobuy, LiveIds(NewItem().cobuy)) == map[];
    var first, second, third := NewPledge(40, "", Sha(1)), NewPledge(60, "", Sha(3)), NewPledge(50, "", Sha(8));
    InsertFunds(NewItem().cobuy, 0, first);
    assert OnePledged().cobuy == Insert(NewItem().cobuy, 0, first);
    InsertFunds(OnePledged().cobuy, 2, second);
    ProposeKeepsFunding(Pledge(OnePledged(), 60, "").cobuy, 4, 0, None, EarlyTokens());
    InsertFunds(PriceRaised().cobuy, 7, third);
  }

  lemma PledgeStepTo(l: Ledger, past: History, pledged: int, price: int)
    requires CanPledge(l, pledged, price) && 0 < pledged <= MAX_INT64 && price in past.prices
    requires l.price.Some? && l.price.value in past.prices && l.quantityWanted in past.quantities
    ensures var w, step := World(l, past), PledgeStep(pledged, "", price);
            Enabled(w, step) && Next(w, step) == World(Pledge(l, pledged, ""), past)
  {
  }

  lemma PledgeFirst()
    ensures var step := PledgeStep(40, "", 100);
            Enabled(World(NewItem(), Early()), step) &&
            Next(World(NewItem(), Early()), step) == World(OnePledged(), Early())
  {
    FundedSoFar();
    PledgeAllowed(NewItem(), 40, 100);
    PledgeStepTo(NewItem(), Early(), 40, 100);
  }

  /** Two pending pledges cover a price no higher than their sum. */
  lemma TwoCover(s: Cobuy, a: Id, v: int, b: Id, w: int, price: int)
    requires a != b && PendingIds(s) == {a, b}
    requires s.contributions[a].pledged == v && s.contributions[b].pledged == w
    requires 0 < v <= 1000 && 0 < w <= 1000 && price <= v + w
    ensures |PendingIds(s)| == 2 && Covered(s, price)
  {
    TotalInsert(map[], a, v);
    TotalInsert(map[a := v], b, w);
    assert Pledges(s, {a, b}) == map[][a := v][b := w];
    assert map[][a := v] == map[a := v];
    assert |{a, b}| == 2;
  }

  /** A proposal over exactly two pending pledges that cover the price. */
  lemma TwoPropose(l: Ledger, a: Id, b: Id, price: int, tokens: map<Id, Token>)
    requires a != b && PendingIds(l.cobuy) == {a, b} && |PendingIds(l.cobuy)| == 2 && Covered(l.cobuy, price)
    requires tokens == map[a := l.minted + 1, b := l.minted + 2]
    ensures FreshTokens(l, tokens)
    ensures ProposeIfCovered(l, price, 0, None, tokens) ==
              l.(cobuy := Propose(l.cobuy, l.minted, 0, None, tokens), minted := l.minted + 3)
  {
  }

  lemma SecondAllowed()
    ensures CanPledge(OnePledged(), 60, 100)
  {
    FundedSoFar();
    PledgeAllowed(OnePledged(), 60, 100);
  }

  lemma FirstFunded()
    ensures FreshTokens(Pledge(OnePledged(), 60, ""), EarlyTokens())
    ensures ProposeIfCovered(Pledge(OnePledged(), 60, ""), 100, 0, None, EarlyTokens()) == FirstMatched()
  {
    TwoCover(Pledge(OnePledged(), 60, "").cobuy, 0, 40, 2, 60, 100);
    TwoPropose(Pledge(OnePledged(), 60, ""), 0, 2, 100, EarlyTokens());
  }

  lemma ContributeStepTo(l: Ledger, past: History, pledged: int, price: int, tokens: map<Id, Token>, l': Ledger)
    requires CanPledge(l, pledged, price) && 0 < pledged <= MAX_INT64 && price in past.prices
    requires FreshTokens(Pledge(l, pledged, ""), tokens)
    requires ProposeIfCovered(Pledge(l, pledged, ""), price, 0, None, tokens) == l'
    requires l.price.Some? && l.price.value in past.prices && l.quantityWanted in past.quantities
    requires l'.price == l.price && l'.quantityWanted == l.quantityWanted
    ensures var w, step := World(l, past), ContributeStep(pledged, "", price, 0, None, tokens);
            Enabled(w, step) && Next(w, step) == World(l', past)
  {
  }

  lemma MatchFirst()
    ensures var step := ContributeStep(60, "", 100, 0, None, EarlyTokens());
            Enabled(World(OnePledged(), Early()), step) &&
            Next(World(OnePledged(), Early()), step) == World(FirstMatched(), Early())
  {
    SecondAllowed();
    FirstFunded();
    ContributeStepTo(OnePledged(), Early(), 60, 100, EarlyTokens(), FirstMatched());
  }

  lemma RaisePrice()
    ensures var step := EditStep(Some(300), 1);
            Enabled(World(FirstMatched(), Early()), step) &&
            Next(World(FirstMatched(), Early()), step) == World(PriceRaised(), Late())
  {
    assert Early().prices + {300} == Late().prices;
  }

  lemma PledgeThird()
    ensures var step := PledgeStep(50, "", 300);
            Enabled(World(PriceRaised(), Late()), step) &&
            Next(World(PriceRaised(), Late()), step) == World(ThirdPledged(), Late())
  {
    FundedSoFar();
    PledgeAllowed(PriceRaised(), 50, 300);
    PledgeStepTo(PriceRaised(), Late(), 50, 300);
  }

  lemma PledgeFourth()
    ensures var step := PledgeStep(60, "", 300);
            Enabled(World(ThirdPledged(), Late()), step) &&
            Next(World(ThirdPledged(), Late()), step) == World(FourthPledged(), Late())
  {
    FundedSoFar();
    PledgeAllowed(ThirdPledged(), 60, 300);
    PledgeStepTo(ThirdPledged(), Late(), 60, 300);
  }

  lemma LateStepTo(l: Ledger, past: History, price: int, tokens: map<Id, Token>, l': Ledger)
    requires FreshTokens(l, tokens) && price in past.prices
    requires ProposeIfCovered(l, price, 0, None, tokens) == l'
    requires l.price.Some? && l.price.value in past.prices && l.quantityWanted in past.quantities
    requires l'.price == l.price && l'.quantityWanted == l.quantityWanted
    ensures var w, step := World(l, past), LateProposeStep(price, 0, None, tokens);
            Enabled(w, step) && Next(w, step) == World(l', past)
  {
  }

  lemma MatchLate()
    ensures var step := LateProposeStep(100, 0, None, LateTokens());
            Enabled(World(FourthPledged(), Late()), step) &&
            Next(World(FourthPledged(), Late()), step) == World(SecondMatched(), Late())
  {
    TwoCover(FourthPledged().cobuy, 7, 50, 9, 60, 100);
    TwoPropose(FourthPledged(), 7, 9, 100, LateTokens());
    LateStepTo(FourthPledged(), Late(), 100, LateTokens(), SecondMatched());
  }

  lemma TwoMatchesLive()
    ensures !AtMostOneLiveMatch(SecondMatched())
  {
    assert FourthPledged().cobuy.matches[4].state == Proposed;
    assert SecondMatched().cobuy.matches[11].state == Proposed;
    assert SecondMatched().cobuy.matches[4].state == Proposed;
  }

  lemma Extend(ws: seq<World>, steps: seq<Step>, step: Step, w': World)
    requires Run(ws, steps) && Enabled(ws[|steps|], step) && w' == Next(ws[|steps|], step)
    ensures Run(ws + [w'], steps + [step])
  {
    var ws', steps' := ws + [w'], steps + [step];
    forall i | 0 <= i < |steps'| ensures Enabled(ws'[i], steps'[i]) && ws'[i + 1] == Next(ws'[i], steps'[i]) {
      if i < |steps| {
        assert ws'[i] == ws[i] && steps'[i] == steps[i] && ws'[i + 1] == ws[i + 1];
      }
    }
  }

  lemma UntilPriceRaised() returns (ws: seq<World>, steps: seq<Step>)
    ensures Run(ws, steps) && |steps| == 3 && ws[3] == World(PriceRaised(), Late())
  {
    ws, steps := [World(NewItem(), Early())], [];
    PledgeFirst();
    Extend(ws, steps, PledgeStep(40, "", 100), World(OnePledged(), Early()));
    ws, steps := ws + [World(OnePledged(), Early())], steps + [PledgeStep(40, "", 100)];
    MatchFirst();
    Extend(ws, steps, ContributeStep(60, "", 100, 0, None, EarlyTokens()), World(FirstMatched(), Early()));
    ws, steps := ws + [World(FirstMatched(), Early())], steps + [ContributeStep(60, "", 100, 0, None, EarlyTokens())];
    RaisePrice();
    Extend(ws, steps, EditStep(Some(300), 1), World(PriceRaised(), Late()));
    ws, steps := ws + [World(PriceRaised(), Late())], steps + [EditStep(Some(300), 1)];
  }

  /** With the proposal split from its pledge a reachable item has two proposed
      matches: late proposing breaks exact funding when the price was raised. */
  lemma LateProposalBreaksSingleMatch() returns (ws: seq<World>, steps: seq<Step>)
    ensures Run(ws, steps) && |steps| == 6 && !AtMostOneLiveMatch(ws[6].ledger)
  {
    ws, steps := UntilPriceRaised();
    PledgeThird();
    Extend(ws, steps, PledgeStep(50, "", 300), World(ThirdPledged(), Late()));
    ws, steps := ws + [World(ThirdPledged(), Late())], steps + [PledgeStep(50, "", 300)];
    PledgeFourth();
    Extend(ws, steps, PledgeStep(60, "", 300), World(FourthPledged(), Late()));
    ws, steps := ws + [World(FourthPledged(), Late())], steps + [PledgeStep(60, "", 300)];
    MatchLate();
    Extend(ws, steps, LateProposeStep(100, 0, None, LateTokens()), World(SecondMatched(), Late()));
    ws, steps := ws + [World(SecondMatched(), Late())], steps + [LateProposeStep(100, 0, None, LateTokens())];
    TwoMatchesLive();
  }
}
