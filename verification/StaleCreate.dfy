/** A create that comes after one of the pledges it listed was withdrawn and the other
    was matched again: it takes the second out of its match. */
module StaleCreate {
  import opened Prelude
  import opened Reservations
  import opened Cobuying
  import opened ItemLedger
  import opened LedgerRuns
  import opened LateProposal
  import opened ProposalRace
  import opened ListedTwice
  import opened Consent
  import opened RaceConsent

  // Pledges 0 and 2 are listed; 2 is withdrawn and 4 made; 0 and 4 are matched in match
  // 6; the stale create puts 0 in match 9; 4 confirms match 6, which completes it.
  function OneLeft(): Ledger {
    TwoPledged().(cobuy := Cobuy(map[0 := NewPledge(40, "", Sha(1))], map[]))
  }
  function Replaced(): Ledger { Pledge(OneLeft(), 60, "") }
  function Rematched(): Ledger {
    Replaced().(cobuy := Propose(Replaced().cobuy, 6, 0, None, RematchTokens()), minted := 9)
  }
  function Taken(): Ledger {
    Rematched().(cobuy := CreateMatch(Rematched().cobuy, 9, {0, 2}, 0, None, map[]), minted := 12)
  }
  function Completed(): Ledger { Taken().(cobuy := Confirm(Taken().cobuy, 4, 6)) }

  function RematchTokens(): map<Id, Token>
    ensures PendingIds(Replaced().cobuy) <= RematchTokens().Keys
  {
    map[0 := 7, 4 := 8]
  }

  function Asked(): History { History({100}, {1}, {(4, 5, 6)}) }

  lemma WithdrawSecond(listed: map<nat, Listing>)
    ensures var r, step := At(TwoPledged(), listed), Plain(WithdrawStep(2, 3));
            CanStep(r, step) && RaceNext(r, step) == At(OneLeft(), listed)
  {
    var s := TwoPledged().cobuy;
    assert HoldsCapability(s, 2, 3) && s.contributions[2].matchId.None?;
    assert s.contributions - {2} == OneLeft().cobuy.contributions;
    assert Withdraw(s, 2) == OneLeft().cobuy;
  }

  lemma PledgeAnother(listed: map<nat, Listing>)
    ensures var r, step := At(OneLeft(), listed), Plain(PledgeStep(60, "", 100));
            CanStep(r, step) && RaceNext(r, step) == At(Replaced(), listed)
  {
    FundedSoFar();
    assert OneLeft().cobuy == OnePledged().cobuy;
    PledgeAllowed(OneLeft(), 60, 100);
    PledgeStepTo(OneLeft(), Early(), 60, 100);
  }

  lemma MatchAgain(listed: map<nat, Listing>)
    ensures var r, step := At(Replaced(), listed), Plain(LateProposeStep(100, 0, None, RematchTokens()));
            CanStep(r, step) && RaceNext(r, step) == At(Rematched(), listed)
  {
    TwoCover(Replaced().cobuy, 0, 40, 4, 60, 100);
    TwoPropose(Replaced(), 0, 4, 100, RematchTokens());
    LateStepTo(Replaced(), Early(), 100, RematchTokens(), Rematched());
  }

  lemma TakeFirst()
    ensures var r, step := At(Rematched(), map[0 := Both()]), CreateStep(0, 0, None, map[]);
            CanStep(r, step) && RaceNext(r, step) == At(Taken(), map[])
  {
    assert Both().amounts.Keys == {0, 2};
    assert |{0, 2}| == 2;
    assert map[0 := Both()] - {0} == map[];
  }

  lemma LinksAfterTaken()
    ensures Linked(Taken().cobuy, 6) == {4} && Taken().cobuy.matches[6] == Match(Proposed, {0, 4}, 0)
    ensures HoldsCapability(Taken().cobuy, 4, 5)
    ensures forall id :: HoldsCapability(Taken().cobuy, id, 5) ==> id == 4
  {
    assert PendingIds(Replaced().cobuy) == {0, 4};
  }

  lemma Ask()
    ensures var r, step := At(Taken(), map[]), Plain(AuthenticateStep(4, 5, 6, 0));
            CanStep(r, step) && RaceNext(r, step) == Race(World(Taken(), Asked()), map[])
  {
    LinksAfterTaken();
    assert Early().authenticated + {(4, 5, 6)} == Asked().authenticated;
  }

  lemma ConfirmAlone()
    ensures var r, step := Race(World(Taken(), Asked()), map[]), Plain(ConfirmStep(4, 5, 6));
            CanStep(r, step) && RaceNext(r, step) == Race(World(Completed(), Asked()), map[])
    ensures Completes(Taken().cobuy, 4, 6)
  {
    LinksAfterTaken();
  }

  lemma Shown()
    ensures var r, step := Race(World(Completed(), Asked()), map[]), Plain(ViewMatchStep(4, 5, 6));
            CanStep(r, step) && Discloses(r.world, step.step, 6)
    ensures 0 in Completed().cobuy.matches[6].members
  {
    LinksAfterTaken();
    ConfirmAlone();
  }

  // ---------------------------------------------------------------------- the run

  /** A run to this state in which pledge 0 never confirms match 6. */
  ghost predicate Unasked(rs: seq<Race>, steps: seq<RaceStep>, last: Race) {
    RaceRun(rs, steps) && rs[|steps|] == last && forall k :: 0 <= k < |steps| ==> !IsConfirm(steps[k], 0, 6)
  }

  lemma Onward(rs: seq<Race>, steps: seq<RaceStep>, r: Race, step: RaceStep, r': Race)
    returns (rs': seq<Race>, steps': seq<RaceStep>)
    requires Unasked(rs, steps, r) && CanStep(r, step) && r' == RaceNext(r, step) && !IsConfirm(step, 0, 6)
    ensures Unasked(rs', steps', r') && |steps'| == |steps| + 1
    ensures rs'[|steps|] == r && steps'[|steps|] == step
  {
    ExtendRace(rs, steps, step, r');
    rs', steps' := rs + [r'], steps + [step];
  }

  lemma UntilListed() returns (rs: seq<Race>, steps: seq<RaceStep>)
    ensures Unasked(rs, steps, At(TwoPledged(), map[0 := Both()])) && |steps| == 3
  {
    rs, steps := [At(NewItem(), map[])], [];
    PledgeFirst();
    rs, steps := Onward(rs, steps, At(NewItem(), map[]), Plain(PledgeStep(40, "", 100)), At(OnePledged(), map[]));
    PledgeSecond();
    rs, steps := Onward(rs, steps, At(OnePledged(), map[]), Plain(PledgeStep(60, "", 100)), At(TwoPledged(), map[]));
    ListBoth(map[], 0);
    rs, steps := Onward(rs, steps, At(TwoPledged(), map[]), ListStep(0, 100), At(TwoPledged(), map[][0 := Both()]));
    assert map[][0 := Both()] == map[0 := Both()];
  }

  lemma UntilRematched() returns (rs: seq<Race>, steps: seq<RaceStep>)
    ensures Unasked(rs, steps, At(Rematched(), map[0 := Both()])) && |steps| == 6
  {
    rs, steps := UntilListed();
    var listed := map[0 := Both()];
    WithdrawSecond(listed);
    rs, steps := Onward(rs, steps, At(TwoPledged(), listed), Plain(WithdrawStep(2, 3)), At(OneLeft(), listed));
    PledgeAnother(listed);
    rs, steps := Onward(rs, steps, At(OneLeft(), listed), Plain(PledgeStep(60, "", 100)), At(Replaced(), listed));
    MatchAgain(listed);
    rs, steps := Onward(
      rs, steps, At(Replaced(), listed), Plain(LateProposeStep(100, 0, None, RematchTokens())),
      At(Rematched(), listed));
  }

  lemma UntilCompleted() returns (rs: seq<Race>, steps: seq<RaceStep>)
    ensures Unasked(rs, steps, Race(World(Completed(), Asked()), map[])) && |steps| == 9
  {
    rs, steps := UntilRematched();
    TakeFirst();
    rs, steps := Onward(
      rs, steps, At(Rematched(), map[0 := Both()]), CreateStep(0, 0, None, map[]), At(Taken(), map[]));
    var asked := Race(World(Taken(), Asked()), map[]);
    Ask();
    rs, steps := Onward(rs, steps, At(Taken(), map[]), Plain(AuthenticateStep(4, 5, 6, 0)), asked);
    ConfirmAlone();
    rs, steps := Onward(rs, steps, asked, Plain(ConfirmStep(4, 5, 6)), Race(World(Completed(), Asked()), map[]));
  }

  /** Without the condition a completed match can be read out to a member although
      another of its members never confirmed it. */
  lemma MemberNeverAsked() returns (rs: seq<Race>, steps: seq<RaceStep>)
    ensures RaceRun(rs, steps) && |steps| == 10
    ensures steps[9].Plain? && Discloses(rs[9].world, steps[9].step, 6)
    ensures 6 in rs[9].world.ledger.cobuy.matches && 0 in rs[9].world.ledger.cobuy.matches[6].members
    ensures forall k :: 0 <= k < |steps| ==> !IsConfirm(steps[k], 0, 6)
  {
    rs, steps := UntilCompleted();
    var r, view := Race(World(Completed(), Asked()), map[]), Plain(ViewMatchStep(4, 5, 6));
    Shown();
    rs, steps := Onward(rs, steps, r, view, RaceNext(r, view));
  }
}
