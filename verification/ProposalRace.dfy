/** The proposal as two storage calls: a request lists the pending pledges, and later
    creates the match over those it listed, whatever has become of them since. */
module ProposalRace {
  import opened Prelude
  import opened Reservations
  import opened Cobuying
  import opened ItemLedger
  import opened LedgerRuns

  /** Storing a match stamps the members it is given without looking at their status.
      The requests that give them their tokens may fail, so any of them may have one. */
  function CreateMatch(
    s: Cobuy, mid: Id, members: set<Id>, at: Time, expiry: Option<Time>, tokens: map<Id, Token>): Cobuy
  {
    Cobuy(
      map id | id in s.contributions ::
        if id in members then Stamped(s.contributions[id], mid, id, expiry, tokens) else s.contributions[id],
      s.matches[mid := Match(Proposed, members, at)])
  }

  function Stamped(c: Contribution, mid: Id, id: Id, expiry: Option<Time>, tokens: map<Id, Token>): Contribution {
    var linked := c.(status := Matched, matchId := Some(mid));
    if id in tokens then linked.(actionHash := Sha(tokens[id]), actionExpiry := expiry) else linked
  }

  /** With nothing in between, listing and creating is the proposal of `Cobuying`. */
  lemma CreateIsPropose(s: Cobuy, mid: Id, at: Time, expiry: Option<Time>, tokens: map<Id, Token>)
    requires tokens.Keys == PendingIds(s)
    ensures CreateMatch(s, mid, PendingIds(s), at, expiry, tokens) == Propose(s, mid, at, expiry, tokens)
  {
    var a, b := CreateMatch(s, mid, PendingIds(s), at, expiry, tokens), Propose(s, mid, at, expiry, tokens);
    assert a.contributions == b.contributions;
  }

  // ------------------------------------------------------------------- machine

  /** The pending pledges a request listed, with their amounts, against the price it
      had read. */
  datatype Listing = Listing(price: int, amounts: map<Id, int>)

  /** The item's world, and the listings of the requests that are about to create. */
  datatype Race = Race(world: World, listed: map<nat, Listing>)

  datatype RaceStep =
    | Plain(step: Step)
    | ListStep(call: nat, price: int)
    | CreateStep(call: nat, at: Time, expiry: Option<Time>, tokens: map<Id, Token>)

  /** A request goes on to create a match only if what it listed covers the price. */
  ghost predicate CanStep(r: Race, step: RaceStep) {
    match step
    case Plain(s) => Enabled(r.world, s)
    case ListStep(call, price) =>
      call !in r.listed && price in r.world.past.prices && Covered(r.world.ledger.cobuy, price)
    case CreateStep(call, _, _, tokens) => call in r.listed && tokens.Keys <= r.listed[call].amounts.Keys
  }

  ghost function Created(r: Race, step: RaceStep): Ledger
    requires step.CreateStep? && CanStep(r, step)
  {
    var l, members := r.world.ledger, r.listed[step.call].amounts.Keys;
    l.(cobuy := CreateMatch(l.cobuy, l.minted, members, step.at, step.expiry, step.tokens),
       minted := l.minted + 1 + |members|)
  }

  ghost function RaceNext(r: Race, step: RaceStep): Race
    requires CanStep(r, step)
  {
    match step
    case Plain(s) => Race(Next(r.world, s), r.listed)
    case ListStep(call, price) =>
      var s := r.world.ledger.cobuy;
      r.(listed := r.listed[call := Listing(price, Pledges(s, PendingIds(s)))])
    case CreateStep(call, _, _, _) => Race(World(Created(r, step), r.world.past), r.listed - {call})
  }

  ghost predicate RaceRun(rs: seq<Race>, steps: seq<RaceStep>) {
    && |rs| == |steps| + 1
    && Initial(rs[0].world) && rs[0].listed == map[]
    && forall i :: 0 <= i < |steps| ==> CanStep(rs[i], steps[i]) && rs[i + 1] == RaceNext(rs[i], steps[i])
  }

  // --------------------------------------------------------------- consistency

  /** The pledges a create was given are still pending. */
  ghost predicate FindsPending(r: Race, step: RaceStep)
    requires CanStep(r, step)
  {
    step.CreateStep? ==> r.listed[step.call].amounts.Keys <= PendingIds(r.world.ledger.cobuy)
  }

  /** Creating a match leaves pledge and match rows consistent and revives no pledge
      if and only if every member is pending. */
  lemma CreateKeepsIff(
    s: Cobuy, mid: Id, members: set<Id>, at: Time, expiry: Option<Time>, tokens: map<Id, Token>)
    requires Consistent(s) && mid !in s.matches && |members| >= MIN_MATCH_CONTRIBUTIONS && tokens.Keys <= members
    ensures var s' := CreateMatch(s, mid, members, at, expiry, tokens);
            Consistent(s') && NoRevival(s, s') <==> members <= PendingIds(s)
  {
    if members <= PendingIds(s) {
      CreateKeeps(s, mid, members, at, expiry, tokens);
    } else {
      var id :| id in members && id !in PendingIds(s);
      StaleMember(s, mid, members, at, expiry, tokens, id);
    }
  }

  lemma CreateKeeps(
    s: Cobuy, mid: Id, members: set<Id>, at: Time, expiry: Option<Time>, tokens: map<Id, Token>)
    requires Consistent(s) && mid !in s.matches && |members| >= MIN_MATCH_CONTRIBUTIONS && members <= PendingIds(s)
    ensures var s' := CreateMatch(s, mid, members, at, expiry, tokens);
            Consistent(s') && NoRevival(s, s') && MatchesAdvance(s, s') && LiveIds(s') == LiveIds(s)
  {
    var s' := CreateMatch(s, mid, members, at, expiry, tokens);
    forall id | id in s'.contributions ensures PledgeOk(s', id) {
      CreatedPledge(s, mid, members, at, expiry, tokens, id);
    }
    forall m | m in s'.matches ensures MatchOk(s', m) {
      CreatedMatch(s, mid, members, at, expiry, tokens, m);
    }
    CreatedLive(s, mid, members, at, expiry, tokens);
  }

  lemma CreatedLive(
    s: Cobuy, mid: Id, members: set<Id>, at: Time, expiry: Option<Time>, tokens: map<Id, Token>)
    requires mid !in s.matches && members <= PendingIds(s)
    ensures var s' := CreateMatch(s, mid, members, at, expiry, tokens);
            NoRevival(s, s') && MatchesAdvance(s, s') && LiveIds(s') == LiveIds(s)
  {
  }

  lemma CreatedPledge(
    s: Cobuy, mid: Id, members: set<Id>, at: Time, expiry: Option<Time>, tokens: map<Id, Token>, id: Id)
    requires mid !in s.matches && members <= PendingIds(s) && id in s.contributions && PledgeOk(s, id)
    ensures PledgeOk(CreateMatch(s, mid, members, at, expiry, tokens), id)
  {
  }

  lemma CreatedMatch(
    s: Cobuy, mid: Id, members: set<Id>, at: Time, expiry: Option<Time>, tokens: map<Id, Token>, m: Id)
    requires Consistent(s) && mid !in s.matches && |members| >= MIN_MATCH_CONTRIBUTIONS && members <= PendingIds(s)
    requires m == mid || m in s.matches
    ensures MatchOk(CreateMatch(s, mid, members, at, expiry, tokens), m)
  {
    var s' := CreateMatch(s, mid, members, at, expiry, tokens);
    if m == mid {
      var first :| first in members;
      assert s'.contributions[first].status == Matched;
    } else {
      forall id | id in s.contributions && s.contributions[id].matchId == Some(m)
        ensures s'.contributions[id] == s.contributions[id]
      {
        assert PledgeOk(s, id);
      }
      assert MatchOk(s, m);
      MatchUntouched(s, s', m);
    }
  }

  /** A member that is gone leaves the match without it; one that has ended is brought
      back; one that another match holds is taken from it. */
  lemma StaleMember(
    s: Cobuy, mid: Id, members: set<Id>, at: Time, expiry: Option<Time>, tokens: map<Id, Token>, id: Id)
    requires Consistent(s) && mid !in s.matches && id in members && id !in PendingIds(s)
    ensures var s' := CreateMatch(s, mid, members, at, expiry, tokens);
            Consistent(s') ==> id in s.contributions && !Live(s.contributions[id]) && Live(s'.contributions[id])
  {
    var s' := CreateMatch(s, mid, members, at, expiry, tokens);
    if id !in s.contributions {
      assert !MatchOk(s', mid);
    } else if Live(s.contributions[id]) {
      assert PledgeOk(s, id);
      var other := s.contributions[id].matchId.value;
      assert s'.contributions[id].matchId == Some(mid);
      assert !MatchOk(s', other);
    } else {
      assert s'.contributions[id].status == Matched;
    }
  }

  /** A listing in flight: it covered its price, and those of its pledges that are
      still stored have the amounts it listed. */
  ghost predicate ListingOk(w: World, listing: Listing) {
    && |listing.amounts.Keys| >= MIN_MATCH_CONTRIBUTIONS
    && listing.price in w.past.prices && Wrap64(Total(listing.amounts)) >= listing.price
    && (forall id :: id in listing.amounts ==> id < w.ledger.minted)
    && (forall id :: id in listing.amounts && id in w.ledger.cobuy.contributions ==>
          w.ledger.cobuy.contributions[id].pledged == listing.amounts[id])
  }

  /** What every reachable state keeps as long as the creates find their members
      pending. */
  ghost predicate RaceOk(r: Race) {
    LedgerOk(r.world.ledger) && forall call :: call in r.listed ==> ListingOk(r.world, r.listed[call])
  }

  /** The pledge rows after a step are those before it, with the same amounts, and rows
      with new ids. */
  ghost predicate AmountsKept(l: Ledger, l': Ledger) {
    l.minted <= l'.minted &&
    forall id :: id in l'.cobuy.contributions && id < l.minted ==>
      id in l.cobuy.contributions && l'.cobuy.contributions[id].pledged == l.cobuy.contributions[id].pledged
  }

  lemma StepKeepsAmounts(w: World, step: Step)
    requires LedgerOk(w.ledger) && Enabled(w, step)
    ensures AmountsKept(w.ledger, NextLedger(w, step))
  {
    StepKeepsLedger(w, step);
    if step.ContributeStep? && CanPledge(w.ledger, step.pledged, step.price) {
      PledgeKeeps(w.ledger, step.pledged, step.contact);
      var funded := Pledge(w.ledger, step.pledged, step.contact);
      ProposalKeeps(funded, step.price, step.at, step.expiry, step.tokens);
      assert AmountsKept(w.ledger, funded);
    } else if !step.ContributeStep? && !step.PledgeStep? {
      CobuyOnlyShrinks(w, step);
    }
  }

  lemma ListingsKept(w: World, w': World, listing: Listing)
    requires ListingOk(w, listing) && AmountsKept(w.ledger, w'.ledger) && w.past.prices <= w'.past.prices
    ensures ListingOk(w', listing)
  {
  }

  lemma PlainKeeps(r: Race, step: Step)
    requires RaceOk(r) && Enabled(r.world, step)
    ensures RaceOk(RaceNext(r, Plain(step))) && Aged(r.world.ledger, NextLedger(r.world, step))
  {
    StepKeepsLedger(r.world, step);
    StepKeepsAmounts(r.world, step);
    PastGrows(r.world, step);
    forall call | call in r.listed ensures ListingOk(Next(r.world, step), r.listed[call]) {
      ListingsKept(r.world, Next(r.world, step), r.listed[call]);
    }
  }

  /** A step keeps the ledger sound and revives nothing if and only if, when it creates
      a match, the members it is given are still pending. */
  lemma RaceStepKeepsIff(r: Race, step: RaceStep)
    requires RaceOk(r) && CanStep(r, step)
    ensures LedgerOk(RaceNext(r, step).world.ledger) && Aged(r.world.ledger, RaceNext(r, step).world.ledger) <==>
              FindsPending(r, step)
    ensures FindsPending(r, step) ==> RaceOk(RaceNext(r, step))
  {
    match step
    case Plain(s) => PlainKeeps(r, s);
    case ListStep(_, _) => ListKeeps(r, step);
    case CreateStep(call, at, expiry, tokens) => CreateStepKeeps(r, step);
  }

  lemma ListKeeps(r: Race, step: RaceStep)
    requires RaceOk(r) && CanStep(r, step) && step.ListStep?
    ensures RaceOk(RaceNext(r, step))
  {
    var s := r.world.ledger.cobuy;
    assert Pledges(s, PendingIds(s)).Keys == PendingIds(s);
  }

  lemma CreateStepKeeps(r: Race, step: RaceStep)
    requires RaceOk(r) && CanStep(r, step) && step.CreateStep?
    ensures LedgerOk(Created(r, step)) && Aged(r.world.ledger, Created(r, step)) <==> FindsPending(r, step)
    ensures FindsPending(r, step) ==> RaceOk(RaceNext(r, step))
  {
    CreatedLedgerIff(r, step);
    CreateKeepsListings(r, step);
  }

  lemma CreateKeepsListings(r: Race, step: RaceStep)
    requires CanStep(r, step) && step.CreateStep?
    requires forall call :: call in r.listed ==> ListingOk(r.world, r.listed[call])
    ensures var r' := RaceNext(r, step);
            forall call :: call in r'.listed ==> ListingOk(r'.world, r'.listed[call])
  {
    var r' := RaceNext(r, step);
    forall call | call in r'.listed ensures ListingOk(r'.world, r'.listed[call]) {
      ListingsKept(r.world, r'.world, r.listed[call]);
    }
  }

  lemma CreatedLedgerIff(r: Race, step: RaceStep)
    requires RaceOk(r) && step.CreateStep? && CanStep(r, step)
    ensures LedgerOk(Created(r, step)) && Aged(r.world.ledger, Created(r, step)) <==> FindsPending(r, step)
  {
    var l, members := r.world.ledger, r.listed[step.call].amounts.Keys;
    MintedIsNew(l);
    if FindsPending(r, step) {
      CreateKeeps(l.cobuy, l.minted, members, step.at, step.expiry, step.tokens);
      CreateMints(l, members, Created(r, step));
    } else {
      var id :| id in members && id !in PendingIds(l.cobuy);
      StaleMember(l.cobuy, l.minted, members, step.at, step.expiry, step.tokens, id);
    }
  }

  lemma CreateMints(l: Ledger, members: set<Id>, l': Ledger)
    requires LedgerOk(l) && members <= PendingIds(l.cobuy)
    requires l'.reservations == l.reservations && l'.minted == l.minted + 1 + |members|
    requires Consistent(l'.cobuy) && NoRevival(l.cobuy, l'.cobuy) && MatchesAdvance(l.cobuy, l'.cobuy)
    requires LiveIds(l'.cobuy) == LiveIds(l.cobuy)
    requires l'.cobuy.matches.Keys == l.cobuy.matches.Keys + {l.minted} && l'.cobuy.matches[l.minted].members == members
    ensures LedgerOk(l') && Aged(l, l')
  {
  }

  ghost predicate AlwaysFindsPending(rs: seq<Race>, steps: seq<RaceStep>)
    requires RaceRun(rs, steps)
  {
    forall i :: 0 <= i < |steps| ==> FindsPending(rs[i], steps[i])
  }

  lemma {:induction false} RaceOkUpTo(rs: seq<Race>, steps: seq<RaceStep>, n: nat)
    requires RaceRun(rs, steps) && n < |rs|
    requires forall i :: 0 <= i < n ==> FindsPending(rs[i], steps[i])
    ensures RaceOk(rs[n])
  {
    if n > 0 {
      RaceOkUpTo(rs, steps, n - 1);
      RaceStepKeepsIff(rs[n - 1], steps[n - 1]);
    }
  }

  /** The first create that does not find its members pending spoils what comes after. */
  lemma {:induction false} KeptUpTo(rs: seq<Race>, steps: seq<RaceStep>, n: nat)
    requires RaceRun(rs, steps) && n < |rs|
    requires forall i :: 0 <= i < |rs| ==> LedgerOk(rs[i].world.ledger)
    requires forall i :: 0 <= i < |steps| ==> Aged(rs[i].world.ledger, rs[i + 1].world.ledger)
    ensures forall i :: 0 <= i < n ==> FindsPending(rs[i], steps[i])
  {
    if n > 0 {
      KeptUpTo(rs, steps, n - 1);
      RaceOkUpTo(rs, steps, n - 1);
      RaceStepKeepsIff(rs[n - 1], steps[n - 1]);
      assert rs[n - 1 + 1] == RaceNext(rs[n - 1], steps[n - 1]);
      assert LedgerOk(rs[n].world.ledger) && Aged(rs[n - 1].world.ledger, rs[n - 1 + 1].world.ledger);
    }
  }

  /** Whatever requests interleave between the list and the create of a proposal: every
      state keeps both tracks exclusive with match and pledge rows agreeing, and nothing
      is ever revived, if and only if every create finds what it listed still pending. */
  lemma RaceSoundIff(rs: seq<Race>, steps: seq<RaceStep>)
    requires RaceRun(rs, steps)
    ensures (forall n :: 0 <= n < |rs| ==> LedgerOk(rs[n].world.ledger)) &&
            (forall i :: 0 <= i < |steps| ==> Aged(rs[i].world.ledger, rs[i + 1].world.ledger)) <==>
              AlwaysFindsPending(rs, steps)
  {
    if AlwaysFindsPending(rs, steps) {
      forall n | 0 <= n < |rs| ensures LedgerOk(rs[n].world.ledger) {
        RaceOkUpTo(rs, steps, n);
      }
      forall i | 0 <= i < |steps| ensures Aged(rs[i].world.ledger, rs[i + 1].world.ledger) {
        RaceOkUpTo(rs, steps, i);
        RaceStepKeepsIff(rs[i], steps[i]);
      }
    } else if (forall n :: 0 <= n < |rs| ==> LedgerOk(rs[n].world.ledger)) &&
              (forall i :: 0 <= i < |steps| ==> Aged(rs[i].world.ledger, rs[i + 1].world.ledger)) {
      KeptUpTo(rs, steps, |steps|);
      assert false;
    }
  }

  // ------------------------------------------------- exact funding, single match

  ghost predicate RaceNeverOverflows(rs: seq<Race>, steps: seq<RaceStep>)
    requires RaceRun(rs, steps)
  {
    forall i :: 0 <= i < |steps| && steps[i].Plain? ==> NoOverflow(rs[i].world, steps[i].step)
  }

  lemma CreateKeepsFunding(r: Race, step: RaceStep)
    requires RaceOk(r) && CanStep(r, step) && step.CreateStep? && FindsPending(r, step)
    ensures var s, s' := r.world.ledger.cobuy, Created(r, step).cobuy;
            LiveIds(s') == LiveIds(s) && Funded(s') == Funded(s)
  {
    var l, members := r.world.ledger, r.listed[step.call].amounts.Keys;
    MintedIsNew(l);
    var s, s' := l.cobuy, Created(r, step).cobuy;
    CreatedLive(s, l.minted, members, step.at, step.expiry, step.tokens);
    assert Pledges(s', LiveIds(s')) == Pledges(s, LiveIds(s));
  }

  lemma RaceStepKeepsBounded(r: Race, step: RaceStep)
    requires RaceOk(r) && CanStep(r, step) && FindsPending(r, step) && Bounded(r.world)
    requires step.Plain? ==> NoOverflow(r.world, step.step)
    ensures Bounded(RaceNext(r, step).world)
  {
    match step
    case Plain(s) => StepKeepsBounded(r.world, s);
    case ListStep(_, _) =>
    case CreateStep(_, _, _, _) =>
      CreateKeepsFunding(r, step);
      assert UnitsColumn(Created(r, step)) == UnitsColumn(r.world.ledger);
  }

  lemma {:induction false} RaceBoundedUpTo(rs: seq<Race>, steps: seq<RaceStep>, n: nat)
    requires RaceRun(rs, steps) && n < |rs| && AlwaysFindsPending(rs, steps) && RaceNeverOverflows(rs, steps)
    ensures Bounded(rs[n].world)
  {
    if n == 0 {
      BoundedUpTo([rs[0].world], [], 0);
    } else {
      RaceBoundedUpTo(rs, steps, n - 1);
      RaceOkUpTo(rs, steps, n - 1);
      RaceStepKeepsBounded(rs[n - 1], steps[n - 1]);
    }
  }

  /** A create whose members are still pending takes in all the live pledges, at exactly
      the price its request read and with no other live match, if and only if the item
      is then not funded past that price. */
  lemma CreatesExactly(r: Race, step: RaceStep)
    requires RaceOk(r) && CanStep(r, step) && step.CreateStep? && FindsPending(r, step) && Bounded(r.world)
    ensures var l, price := r.world.ledger, r.listed[step.call].price;
            ProposedExactly(l.cobuy, Created(r, step).cobuy, price) <==> Funded(l.cobuy) <= price
  {
    var l, listing := r.world.ledger, r.listed[step.call];
    CreateKeepsFunding(r, step);
    OneNewMatch(r, step);
    if Funded(l.cobuy) <= listing.price {
      ListedExactly(l.cobuy, Created(r, step).cobuy, l.minted, listing, step.at);
    }
  }

  lemma ListedExactly(s: Cobuy, s': Cobuy, mid: Id, listing: Listing, at: Time)
    requires Consistent(s) && listing.amounts.Keys <= PendingIds(s) && FitsInt64(listing.price)
    requires forall id :: id in listing.amounts ==> s.contributions[id].pledged == listing.amounts[id]
    requires Wrap64(Total(listing.amounts)) >= listing.price && Funded(s) <= listing.price
    requires mid !in s.matches && s'.matches == s.matches[mid := Match(Proposed, listing.amounts.Keys, at)]
    requires LiveIds(s') == LiveIds(s) && Funded(s') == Funded(s)
    ensures ProposedExactly(s, s', listing.price)
  {
    ListedAreAllLive(s, listing);
    assert NewExactMatch(s, s', listing.price, mid);
  }

  lemma OneNewMatch(r: Race, step: RaceStep)
    requires IdsMinted(r.world.ledger) && CanStep(r, step) && step.CreateStep?
    ensures var s, s', mid := r.world.ledger.cobuy, Created(r, step).cobuy, r.world.ledger.minted;
            && mid !in s.matches
            && s'.matches == s.matches[mid := Match(Proposed, r.listed[step.call].amounts.Keys, step.at)]
  {
  }

  lemma ListedAreAllLive(s: Cobuy, listing: Listing)
    requires Consistent(s) && listing.amounts.Keys <= PendingIds(s) && FitsInt64(listing.price)
    requires forall id :: id in listing.amounts ==> s.contributions[id].pledged == listing.amounts[id]
    requires Wrap64(Total(listing.amounts)) >= listing.price && Funded(s) <= listing.price
    ensures listing.amounts.Keys == LiveIds(s) && Funded(s) == listing.price
    ensures forall mid :: mid in s.matches ==> !LiveMatch(s.matches[mid])
  {
    var live := Pledges(s, LiveIds(s));
    forall id | id in s.contributions ensures s.contributions[id].pledged > 0 {
      assert PledgeOk(s, id);
    }
    TotalOfPart(listing.amounts, live);
    assert listing.amounts == live && live.Keys == LiveIds(s);
    forall mid | mid in s.matches ensures !LiveMatch(s.matches[mid]) {
      LiveMatchHasLivePledge(s, mid);
    }
  }

  /** Exact funding in every such run. */
  lemma RaceExactFunding(rs: seq<Race>, steps: seq<RaceStep>, i: nat)
    requires RaceRun(rs, steps) && AlwaysFindsPending(rs, steps) && RaceNeverOverflows(rs, steps)
    requires i < |steps| && steps[i].CreateStep?
    ensures var s, price := rs[i].world.ledger.cobuy, rs[i].listed[steps[i].call].price;
            ProposedExactly(s, rs[i + 1].world.ledger.cobuy, price) <==> Funded(s) <= price
  {
    RaceOkUpTo(rs, steps, i);
    RaceBoundedUpTo(rs, steps, i);
    CreatesExactly(rs[i], steps[i]);
  }

  /** A step that creates a match without its own pledge. */
  ghost predicate CreatesLate(r: Race, step: RaceStep) {
    step.CreateStep? || (step.Plain? && ProposesLate(r.world, step.step))
  }

  lemma RaceStepSingleIff(r: Race, step: RaceStep)
    requires RaceOk(r) && CanStep(r, step) && FindsPending(r, step) && Bounded(r.world)
    requires step.Plain? ==> NoOverflow(r.world, step.step)
    requires AtMostOneLiveMatch(r.world.ledger)
    ensures AtMostOneLiveMatch(RaceNext(r, step).world.ledger) <==>
              (CreatesLate(r, step) ==> NoLiveMatch(r.world.ledger))
  {
    match step
    case Plain(s) => StepSingleMatchIff(r.world, s);
    case ListStep(_, _) =>
    case CreateStep(_, _, _, _) =>
      MintedIsNew(r.world.ledger);
      NewMatchSingleIff(r.world.ledger, Created(r, step), r.world.ledger.minted);
  }

  lemma {:induction false} RaceSingleUpTo(rs: seq<Race>, steps: seq<RaceStep>, n: nat)
    requires RaceRun(rs, steps) && n < |rs| && AlwaysFindsPending(rs, steps) && RaceNeverOverflows(rs, steps)
    requires forall i :: 0 <= i < |steps| && CreatesLate(rs[i], steps[i]) ==> NoLiveMatch(rs[i].world.ledger)
    ensures AtMostOneLiveMatch(rs[n].world.ledger)
  {
    if n > 0 {
      RaceSingleUpTo(rs, steps, n - 1);
      RaceOkUpTo(rs, steps, n - 1);
      RaceBoundedUpTo(rs, steps, n - 1);
      RaceStepSingleIff(rs[n - 1], steps[n - 1]);
    }
  }

  /** At most one match is live throughout such a run if and only if every create finds
      none live. */
  lemma RaceSingleMatchIff(rs: seq<Race>, steps: seq<RaceStep>)
    requires RaceRun(rs, steps) && AlwaysFindsPending(rs, steps) && RaceNeverOverflows(rs, steps)
    ensures (forall n :: 0 <= n < |rs| ==> AtMostOneLiveMatch(rs[n].world.ledger)) <==>
              forall i :: 0 <= i < |steps| && CreatesLate(rs[i], steps[i]) ==> NoLiveMatch(rs[i].world.ledger)
  {
    if forall n :: 0 <= n < |rs| ==> AtMostOneLiveMatch(rs[n].world.ledger) {
      forall i | 0 <= i < |steps| && CreatesLate(rs[i], steps[i]) ensures NoLiveMatch(rs[i].world.ledger) {
        RaceOkUpTo(rs, steps, i);
        RaceBoundedUpTo(rs, steps, i);
        assert AtMostOneLiveMatch(rs[i].world.ledger) && AtMostOneLiveMatch(rs[i + 1].world.ledger);
        RaceStepSingleIff(rs[i], steps[i]);
      }
    }
    if forall i :: 0 <= i < |steps| && CreatesLate(rs[i], steps[i]) ==> NoLiveMatch(rs[i].world.ledger) {
      forall n | 0 <= n < |rs| ensures AtMostOneLiveMatch(rs[n].world.ledger) {
        RaceSingleUpTo(rs, steps, n);
      }
    }
  }
}
