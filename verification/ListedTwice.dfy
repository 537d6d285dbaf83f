/** Two requests that both list the pending pledges before either creates its match. */
module ListedTwice {
  import opened Prelude
  import opened Reservations
  import opened Cobuying
  import opened ItemLedger
  import opened LedgerRuns
  import opened LateProposal
  import opened ProposalRace

  // Pledges of 40 and 60 at the price of 100; both requests list them; the first
  // creates its match, and then the second.
  function TwoPledged(): Ledger { Pledge(OnePledged(), 60, "") }
  function Both(): Listing { Listing(100, map[0 := 40, 2 := 60]) }
  function FirstCreated(): Ledger {
    TwoPledged().(
      cobuy := CreateMatch(TwoPledged().cobuy, 4, {0, 2}, 0, None, map[0 := 5, 2 := 6]), minted := 7)
  }
  function SecondCreated(): Ledger {
    FirstCreated().(
      cobuy := CreateMatch(FirstCreated().cobuy, 7, {0, 2}, 0, None, map[0 := 8, 2 := 9]), minted := 10)
  }

  function At(l: Ledger, listed: map<nat, Listing>): Race { Race(World(l, Early()), listed) }

  lemma PledgeSecond()
    ensures var r, step := At(OnePledged(), map[]), Plain(PledgeStep(60, "", 100));
            CanStep(r, step) && RaceNext(r, step) == At(TwoPledged(), map[])
  {
    SecondAllowed();
    PledgeStepTo(OnePledged(), Early(), 60, 100);
  }

  lemma ListBoth(listed: map<nat, Listing>, call: nat)
    requires call !in listed
    ensures var r, step := At(TwoPledged(), listed), ListStep(call, 100);
            CanStep(r, step) && RaceNext(r, step) == At(TwoPledged(), listed[call := Both()])
  {
    var s := TwoPledged().cobuy;
    TwoCover(s, 0, 40, 2, 60, 100);
    assert Pledges(s, PendingIds(s)) == Both().amounts;
  }

  lemma CreateBoth(l: Ledger, listed: map<nat, Listing>, call: nat, tokens: map<Id, Token>, l': Ledger)
    requires call in listed && listed[call] == Both() && tokens.Keys == {0, 2}
    requires l' == l.(cobuy := CreateMatch(l.cobuy, l.minted, {0, 2}, 0, None, tokens), minted := l.minted + 3)
    ensures var r, step := At(l, listed), CreateStep(call, 0, None, tokens);
            CanStep(r, step) && RaceNext(r, step) == At(l', listed - {call})
  {
    assert Both().amounts.Keys == {0, 2};
    assert |{0, 2}| == 2;
  }

  lemma FundsHundred(s: Cobuy)
    requires s.contributions.Keys == {0, 2} && Live(s.contributions[0]) && Live(s.contributions[2])
    requires s.contributions[0].pledged == 40 && s.contributions[2].pledged == 60
    ensures Funded(s) == 100
  {
    TotalInsert(map[], 0, 40);
    TotalInsert(map[0 := 40], 2, 60);
    assert Pledges(s, LiveIds(s)) == map[][0 := 40][2 := 60];
    assert map[][0 := 40] == map[0 := 40];
  }

  ghost predicate WithinHundred(l: Ledger) {
    l.price == Some(100) && Funded(l.cobuy) <= 100
  }

  lemma PledgesWithin()
    ensures WithinHundred(NewItem()) && WithinHundred(OnePledged()) && WithinHundred(TwoPledged())
  {
    FundedSoFar();
  }

  lemma FirstWithin()
    ensures WithinHundred(FirstCreated())
  {
    FundsHundred(FirstCreated().cobuy);
  }

  lemma SecondWithin()
    ensures WithinHundred(SecondCreated())
  {
    FundsHundred(SecondCreated().cobuy);
  }

  lemma TwiceMatched()
    ensures !AtMostOneLiveMatch(SecondCreated()) && !Consistent(SecondCreated().cobuy)
  {
    var s := SecondCreated().cobuy;
    assert s.matches[4].state == Proposed && s.matches[7].state == Proposed;
    assert 0 in s.matches[4].members && s.contributions[0].matchId == Some(7);
    assert !MatchOk(s, 4);
  }

  lemma ExtendRace(rs: seq<Race>, steps: seq<RaceStep>, step: RaceStep, r': Race)
    requires RaceRun(rs, steps) && CanStep(rs[|steps|], step) && r' == RaceNext(rs[|steps|], step)
    ensures RaceRun(rs + [r'], steps + [step])
  {
    var rs', steps' := rs + [r'], steps + [step];
    forall i | 0 <= i < |steps'| ensures CanStep(rs'[i], steps'[i]) && rs'[i + 1] == RaceNext(rs'[i], steps'[i]) {
      if i < |steps| {
        assert rs'[i] == rs[i] && steps'[i] == steps[i] && rs'[i + 1] == rs[i + 1];
      }
    }
  }

  /** A run in which the item is never funded past its price. */
  ghost predicate RunWithin(rs: seq<Race>, steps: seq<RaceStep>, last: Race) {
    RaceRun(rs, steps) && rs[|steps|] == last && forall n :: 0 <= n < |rs| ==> WithinHundred(rs[n].world.ledger)
  }

  lemma ExtendWithin(rs: seq<Race>, steps: seq<RaceStep>, r: Race, step: RaceStep, r': Race)
    returns (rs': seq<Race>, steps': seq<RaceStep>)
    requires RunWithin(rs, steps, r) && CanStep(r, step) && r' == RaceNext(r, step) && WithinHundred(r'.world.ledger)
    ensures RunWithin(rs', steps', r') && |steps'| == |steps| + 1
  {
    ExtendRace(rs, steps, step, r');
    rs', steps' := rs + [r'], steps + [step];
  }

  lemma UntilBothPledged() returns (rs: seq<Race>, steps: seq<RaceStep>)
    ensures RunWithin(rs, steps, At(TwoPledged(), map[])) && |steps| == 2
  {
    PledgesWithin();
    rs, steps := [At(NewItem(), map[])], [];
    PledgeFirst();
    rs, steps := ExtendWithin(
      rs, steps, At(NewItem(), map[]), Plain(PledgeStep(40, "", 100)), At(OnePledged(), map[]));
    PledgeSecond();
    rs, steps := ExtendWithin(
      rs, steps, At(OnePledged(), map[]), Plain(PledgeStep(60, "", 100)), At(TwoPledged(), map[]));
  }

  lemma UntilBothListed() returns (rs: seq<Race>, steps: seq<RaceStep>)
    ensures RunWithin(rs, steps, At(TwoPledged(), map[0 := Both()][1 := Both()])) && |steps| == 4
  {
    rs, steps := UntilBothPledged();
    PledgesWithin();
    ListBoth(map[], 0);
    var first := map[][0 := Both()];
    rs, steps := ExtendWithin(rs, steps, At(TwoPledged(), map[]), ListStep(0, 100), At(TwoPledged(), first));
    ListBoth(first, 1);
    rs, steps := ExtendWithin(
      rs, steps, At(TwoPledged(), first), ListStep(1, 100), At(TwoPledged(), first[1 := Both()]));
    assert first == map[0 := Both()];
  }

  lemma UntilFirstCreated() returns (rs: seq<Race>, steps: seq<RaceStep>)
    ensures RunWithin(rs, steps, At(FirstCreated(), map[0 := Both()][1 := Both()] - {0})) && |steps| == 5
  {
    rs, steps := UntilBothListed();
    var both := map[0 := Both()][1 := Both()];
    FirstWithin();
    CreateBoth(TwoPledged(), both, 0, map[0 := 5, 2 := 6], FirstCreated());
    rs, steps := ExtendWithin(
      rs, steps, At(TwoPledged(), both), CreateStep(0, 0, None, map[0 := 5, 2 := 6]), At(FirstCreated(), both - {0}));
  }

  lemma UntilBothCreated() returns (rs: seq<Race>, steps: seq<RaceStep>)
    ensures RunWithin(rs, steps, At(SecondCreated(), map[0 := Both()][1 := Both()] - {0} - {1})) && |steps| == 6
  {
    rs, steps := UntilFirstCreated();
    var second := map[0 := Both()][1 := Both()] - {0};
    SecondWithin();
    CreateBoth(FirstCreated(), second, 1, map[0 := 8, 2 := 9], SecondCreated());
    rs, steps := ExtendWithin(
      rs, steps, At(FirstCreated(), second), CreateStep(1, 0, None, map[0 := 8, 2 := 9]),
      At(SecondCreated(), second - {1}));
  }

  /** Although the item is never funded past its price, a reachable state has two
      proposed matches over the same pledges, and match and pledge rows that disagree. */
  lemma TwoMatchesOverSamePledges() returns (rs: seq<Race>, steps: seq<RaceStep>)
    ensures RaceRun(rs, steps) && |steps| == 6
    ensures forall n :: 0 <= n < |rs| ==> WithinHundred(rs[n].world.ledger)
    ensures !AtMostOneLiveMatch(rs[6].world.ledger) && !Consistent(rs[6].world.ledger.cobuy)
  {
    rs, steps := UntilBothCreated();
    TwiceMatched();
  }
}
