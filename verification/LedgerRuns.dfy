/** Every run of one item: any interleaving of the requests and sweeps that touch
    it. A request reads the item before it takes the lock, so the price or quantity
    it checks against is any value the item has had; authenticating a match action
    and acting on it are separate steps. */
module LedgerRuns {
  import opened Prelude
  import opened Reservations
  import opened Cobuying
  import opened ItemLedger

  /** What earlier requests read: the prices and quantities the item has had, and
      the match actions (pledge, token, match) that were authenticated. */
  datatype History = History(prices: set<int>, quantities: set<int>, authenticated: set<(Id, Token, Id)>)

  datatype World = World(ledger: Ledger, past: History)

  datatype Step =
    | ReserveStep(kind: ReserveKind, quantity: int, email: Option<string>, wanted: int, at: Time)
    | TransitionStep(res: Id, transition: Transition, at: Time)
    | ReleaseStep(res: Id)
    | ArchiveStep(at: Time)
    | UnarchiveStep(at: Time)
    | EditStep(newPrice: Option<int>, newQuantity: int)
    | ContributeStep(pledged: int, contact: string, price: int, at: Time, expiry: Option<Time>, tokens: map<Id, Token>)
    | PledgeStep(pledged: int, contact: string, price: int)
    | LateProposeStep(price: int, at: Time, expiry: Option<Time>, tokens: map<Id, Token>)
    | AuthenticateStep(cid: Id, raw: Token, mid: Id, at: Time)
    | ConfirmStep(cid: Id, raw: Token, mid: Id)
    | DeclineStep(cid: Id, raw: Token, mid: Id, at: Time)
    | ViewMatchStep(cid: Id, raw: Token, mid: Id)
    | WithdrawStep(cid: Id, raw: Token)
    | ExpireMatchStep(mid: Id)

  /** What the source demands before a step can happen. */
  ghost predicate Enabled(w: World, step: Step) {
    var l := w.ledger;
    match step
    case ReserveStep(_, quantity, _, wanted, _) =>
      1 <= quantity <= MAX_INT64 && wanted in w.past.quantities
    case EditStep(price, quantity) =>
      (price.Some? ==> FitsInt64(price.value)) && FitsInt64(quantity)
    case ContributeStep(pledged, contact, price, _, _, tokens) =>
      0 < pledged <= MAX_INT64 && price in w.past.prices && FreshTokens(Pledge(l, pledged, contact), tokens)
    case PledgeStep(pledged, contact, price) =>
      0 < pledged <= MAX_INT64 && price in w.past.prices
    case LateProposeStep(price, _, _, tokens) =>
      price in w.past.prices && FreshTokens(l, tokens)
    case AuthenticateStep(cid, raw, mid, at) => Authenticates(l.cobuy, raw, mid, at, Actor(cid))
    case ConfirmStep(cid, raw, mid) => (cid, raw, mid) in w.past.authenticated
    case DeclineStep(cid, raw, mid, at) =>
      Authenticates(l.cobuy, raw, mid, at, Actor(cid)) && mid in l.cobuy.matches &&
      l.cobuy.matches[mid].state == Proposed
    case ViewMatchStep(cid, raw, mid) => (cid, raw, mid) in w.past.authenticated
    case WithdrawStep(cid, raw) => HoldsCapability(l.cobuy, cid, raw)
    case _ => true
  }

  ghost function NextLedger(w: World, step: Step): Ledger
    requires Enabled(w, step)
  {
    var l := w.ledger;
    match step
    case ReserveStep(kind, quantity, email, wanted, at) =>
      if CanReserve(l, quantity, wanted) then Reserve(l, kind, quantity, email, at) else l
    case TransitionStep(res, t, at) => l.(reservations := TransitionIn(l.reservations, res, t, at))
    case ReleaseStep(res) => l.(reservations := l.reservations - {res})
    case ArchiveStep(at) => Archive(l, at)
    case UnarchiveStep(at) => Unarchive(l, at)
    case EditStep(price, quantity) => EditItem(l, price, quantity)
    case ContributeStep(pledged, contact, price, at, expiry, tokens) =>
      Contribute(l, pledged, contact, price, at, expiry, tokens)
    case PledgeStep(pledged, contact, price) => if CanPledge(l, pledged, price) then Pledge(l, pledged, contact) else l
    case LateProposeStep(price, at, expiry, tokens) => ProposeIfCovered(l, price, at, expiry, tokens)
    case AuthenticateStep(_, _, _, _) => l
    case ConfirmStep(cid, _, mid) => l.(cobuy := Confirm(l.cobuy, cid, mid))
    case DeclineStep(cid, _, mid, at) =>
      ActorLinked(l.cobuy, cid, step.raw, mid, at); l.(cobuy := Decline(l.cobuy, cid, mid))
    case ViewMatchStep(_, _, _) => l
    case WithdrawStep(cid, _) => l.(cobuy := Withdraw(l.cobuy, cid))
    case ExpireMatchStep(mid) => l.(cobuy := ExpireIfProposed(l.cobuy, mid))
  }

  lemma ActorLinked(s: Cobuy, cid: Id, raw: Token, mid: Id, at: Time)
    requires Authenticates(s, raw, mid, at, Actor(cid))
    ensures cid in Linked(s, mid)
    ensures Admits(s.contributions[cid], raw, mid, at)
  {
  }

  /** Contacts leave the system when a confirm completes a match (the reveal emails
      and the response) and when a completed match is read. */
  ghost predicate Discloses(w: World, step: Step, mid: Id) {
    match step
    case ConfirmStep(cid, _, m) => m == mid && Completes(w.ledger.cobuy, cid, mid)
    case ViewMatchStep(_, _, m) =>
      m == mid && mid in w.ledger.cobuy.matches && w.ledger.cobuy.matches[mid].state == BothConfirmed
    case _ => false
  }

  ghost function NextPast(w: World, step: Step): History
    requires Enabled(w, step)
  {
    var l' := NextLedger(w, step);
    History(
      if l'.price.Some? then w.past.prices + {l'.price.value} else w.past.prices,
      w.past.quantities + {l'.quantityWanted},
      if step.AuthenticateStep? then w.past.authenticated + {(step.cid, step.raw, step.mid)} else w.past.authenticated)
  }

  ghost function Next(w: World, step: Step): World
    requires Enabled(w, step)
  {
    World(NextLedger(w, step), NextPast(w, step))
  }

  ghost predicate Initial(w: World) {
    var l := w.ledger;
    && l.reservations == map[] && l.cobuy == Cobuy(map[], map[]) && l.archivedAt.None?
    && FitsInt64(l.quantityWanted) && (l.price.Some? ==> FitsInt64(l.price.value))
    && w.past == History(if l.price.Some? then {l.price.value} else {}, {l.quantityWanted}, {})
  }

  ghost predicate Run(ws: seq<World>, steps: seq<Step>) {
    && |ws| == |steps| + 1
    && Initial(ws[0])
    && forall i :: 0 <= i < |steps| ==> Enabled(ws[i], steps[i]) && ws[i + 1] == Next(ws[i], steps[i])
  }

  // --------------------------------------------- exclusivity and consistency

  /** Each step keeps the ledger well-formed and revives nothing. */
  lemma StepKeepsLedger(w: World, step: Step)
    requires LedgerOk(w.ledger) && Enabled(w, step)
    ensures LedgerOk(NextLedger(w, step))
    ensures Aged(w.ledger, NextLedger(w, step))
  {
    var l := w.ledger;
    match step
    case ReserveStep(kind, quantity, email, wanted, at) =>
      if CanReserve(l, quantity, wanted) {
        ReserveKeeps(l, kind, quantity, email, at);
      }
    case TransitionStep(res, t, at) => ReservationStepKeeps(l, TransitionIn(l.reservations, res, t, at));
    case ReleaseStep(res) => ReservationStepKeeps(l, l.reservations - {res});
    case ArchiveStep(at) => OwnerStepKeeps(l, None, 1, at);
    case UnarchiveStep(at) => OwnerStepKeeps(l, None, 1, at);
    case EditStep(price, quantity) => OwnerStepKeeps(l, price, quantity, 0);
    case ContributeStep(pledged, contact, price, at, expiry, tokens) =>
      ContributeKeeps(l, pledged, contact, price, at, expiry, tokens);
    case PledgeStep(pledged, contact, price) =>
      if CanPledge(l, pledged, price) {
        PledgeKeeps(l, pledged, contact);
      }
    case LateProposeStep(price, at, expiry, tokens) => ProposalKeeps(l, price, at, expiry, tokens);
    case ConfirmStep(_, _, _) => CobuyActionKeeps(w, step);
    case DeclineStep(_, _, _, _) => CobuyActionKeeps(w, step);
    case WithdrawStep(_, _) => CobuyActionKeeps(w, step);
    case ExpireMatchStep(_) => CobuyActionKeeps(w, step);
    case _ =>
  }

  lemma CobuyActionKeeps(w: World, step: Step)
    requires LedgerOk(w.ledger) && Enabled(w, step)
    requires step.ConfirmStep? || step.DeclineStep? || step.WithdrawStep? || step.ExpireMatchStep?
    ensures LedgerOk(NextLedger(w, step))
    ensures Aged(w.ledger, NextLedger(w, step))
  {
    var l := w.ledger;
    match step
    case ConfirmStep(cid, _, mid) => ConfirmKeepsLedger(l, cid, mid);
    case DeclineStep(cid, raw, mid, at) =>
      ActorLinked(l.cobuy, cid, raw, mid, at);
      DeclineKeepsLedger(l, cid, mid);
    case WithdrawStep(cid, _) => WithdrawKeepsLedger(l, cid);
    case ExpireMatchStep(mid) => ExpireKeepsLedger(l, mid);
  }

  lemma {:induction false} RunKeepsLedger(ws: seq<World>, steps: seq<Step>, n: nat)
    requires Run(ws, steps) && n < |ws|
    ensures LedgerOk(ws[n].ledger)
  {
    if n > 0 {
      RunKeepsLedger(ws, steps, n - 1);
      StepKeepsLedger(ws[n - 1], steps[n - 1]);
    }
  }

  /** In every reachable state an item never has both a live reservation and a live
      pledge, and its match and pledge rows agree. */
  lemma ReachableExclusive(ws: seq<World>, steps: seq<Step>, n: nat)
    requires Run(ws, steps) && n < |ws|
    ensures LiveReservations(ws[n].ledger) == {} || LiveIds(ws[n].ledger.cobuy) == {}
    ensures Consistent(ws[n].ledger.cobuy)
  {
    RunKeepsLedger(ws, steps, n);
  }

  /** Over any stretch of a run nothing is revived. */
  lemma {:induction false} NothingRevived(ws: seq<World>, steps: seq<Step>, i: nat, j: nat)
    requires Run(ws, steps) && i <= j < |ws|
    ensures Aged(ws[i].ledger, ws[j].ledger)
    decreases j - i
  {
    RunKeepsLedger(ws, steps, i);
    if i < j {
      NothingRevived(ws, steps, i, j - 1);
      RunKeepsLedger(ws, steps, j - 1);
      StepKeepsLedger(ws[j - 1], steps[j - 1]);
      AgedTransitive(ws[i].ledger, ws[j - 1].ledger, ws[j].ledger);
    }
  }

  // ---------------------------------------------------- no oversell, no overfund

  /** A quantity or pledge that is let in fits 64 bits together with what is held. */
  ghost predicate NoOverflow(w: World, step: Step) {
    match step
    case ReserveStep(_, quantity, _, wanted, _) =>
      CanReserve(w.ledger, quantity, wanted) ==> FitsInt64(Units(w.ledger) + quantity)
    case ContributeStep(pledged, _, price, _, _, _) =>
      CanPledge(w.ledger, pledged, price) ==> FitsInt64(Funded(w.ledger.cobuy) + pledged)
    case PledgeStep(pledged, _, price) =>
      CanPledge(w.ledger, pledged, price) ==> FitsInt64(Funded(w.ledger.cobuy) + pledged)
    case _ => true
  }

  ghost predicate NeverOverflows(ws: seq<World>, steps: seq<Step>)
    requires Run(ws, steps)
  {
    forall i :: 0 <= i < |steps| ==> NoOverflow(ws[i], steps[i])
  }

  /** Reserved units are within some quantity the item wanted, and live pledges
      within some price it had. */
  ghost predicate Bounded(w: World) {
    && (Units(w.ledger) == 0 || exists q :: q in w.past.quantities && Units(w.ledger) <= q)
    && (Funded(w.ledger.cobuy) == 0 || exists p :: p in w.past.prices && Funded(w.ledger.cobuy) <= p)
    && (forall q :: q in w.past.quantities ==> FitsInt64(q))
    && (forall p :: p in w.past.prices ==> FitsInt64(p))
    && FitsInt64(w.ledger.quantityWanted) && (w.ledger.price.Some? ==> FitsInt64(w.ledger.price.value))
  }

  /** Steps other than a reserve do not raise the units, and steps other than a pledge
      do not raise the funding. */
  lemma StepEffects(w: World, step: Step)
    requires LedgerOk(w.ledger) && Enabled(w, step)
    ensures !step.ReserveStep? ==> 0 <= Units(NextLedger(w, step)) <= Units(w.ledger)
    ensures !step.ContributeStep? && !step.PledgeStep? ==>
              0 <= Funded(NextLedger(w, step).cobuy) <= Funded(w.ledger.cobuy)
  {
    var l, l' := w.ledger, NextLedger(w, step);
    if !step.ReserveStep? {
      UnitsShrink(l, l');
    }
    if !step.ContributeStep? && !step.PledgeStep? {
      CobuyOnlyShrinks(w, step);
      FundedShrinks(l.cobuy, l'.cobuy);
    }
  }

  lemma CobuyOnlyShrinks(w: World, step: Step)
    requires LedgerOk(w.ledger) && Enabled(w, step) && !step.ContributeStep? && !step.PledgeStep?
    ensures NoRevival(w.ledger.cobuy, NextLedger(w, step).cobuy)
  {
    var s := w.ledger.cobuy;
    match step
    case LateProposeStep(price, at, expiry, tokens) => ProposalKeeps(w.ledger, price, at, expiry, tokens);
    case ConfirmStep(cid, _, mid) => ConfirmEffect(s, cid, mid);
    case DeclineStep(cid, raw, mid, at) =>
      ActorLinked(s, cid, raw, mid, at);
      DeclineKeeps(s, cid, mid);
    case WithdrawStep(cid, _) => WithdrawKeeps(s, cid);
    case ExpireMatchStep(mid) => ExpireKeeps(s, mid);
    case _ =>
  }

  lemma PastGrows(w: World, step: Step)
    requires Enabled(w, step)
    ensures var past' := NextPast(w, step);
            && w.past.prices <= past'.prices
            && w.past.quantities <= past'.quantities
            && (forall p :: p in past'.prices - w.past.prices ==> NextLedger(w, step).price == Some(p))
            && past'.quantities == w.past.quantities + {NextLedger(w, step).quantityWanted}
  {
  }

  lemma TermsStayInt64(w: World, step: Step)
    requires Enabled(w, step)
    requires FitsInt64(w.ledger.quantityWanted) && (w.ledger.price.Some? ==> FitsInt64(w.ledger.price.value))
    ensures var l' := NextLedger(w, step);
            FitsInt64(l'.quantityWanted) && (l'.price.Some? ==> FitsInt64(l'.price.value))
  {
  }

  lemma StepKeepsUnitBound(w: World, step: Step)
    requires LedgerOk(w.ledger) && Enabled(w, step) && Bounded(w) && NoOverflow(w, step)
    ensures Units(NextLedger(w, step)) == 0 || exists q :: q in w.past.quantities && Units(NextLedger(w, step)) <= q
  {
    StepEffects(w, step);
    if step.ReserveStep? && CanReserve(w.ledger, step.quantity, step.wanted) {
      ReserveKeeps(w.ledger, step.kind, step.quantity, step.email, step.at);
      assert Units(NextLedger(w, step)) <= step.wanted;
    }
  }

  lemma StepKeepsFundingBound(w: World, step: Step)
    requires LedgerOk(w.ledger) && Enabled(w, step) && Bounded(w) && NoOverflow(w, step)
    ensures var f := Funded(NextLedger(w, step).cobuy);
            f == 0 || exists p :: p in w.past.prices && f <= p
  {
    var l, l' := w.ledger, NextLedger(w, step);
    StepEffects(w, step);
    if (step.ContributeStep? || step.PledgeStep?) && CanPledge(l, step.pledged, step.price) {
      PledgeKeeps(l, step.pledged, step.contact);
      var funded := Pledge(l, step.pledged, step.contact);
      if step.ContributeStep? {
        ProposalKeeps(funded, step.price, step.at, step.expiry, step.tokens);
        FundedShrinks(funded.cobuy, l'.cobuy);
      }
      assert Funded(l'.cobuy) <= step.price;
    }
  }

  lemma StepKeepsBounded(w: World, step: Step)
    requires LedgerOk(w.ledger) && Enabled(w, step) && Bounded(w) && NoOverflow(w, step)
    ensures Bounded(Next(w, step))
  {
    StepKeepsUnitBound(w, step);
    StepKeepsFundingBound(w, step);
    PastGrows(w, step);
    TermsStayInt64(w, step);
  }

  lemma {:induction false} BoundedUpTo(ws: seq<World>, steps: seq<Step>, n: nat)
    requires Run(ws, steps) && n < |ws|
    requires forall i :: 0 <= i < n ==> NoOverflow(ws[i], steps[i])
    ensures Bounded(ws[n])
  {
    if n == 0 {
      assert UnitsColumn(ws[0].ledger) == map[];
      assert Pledges(ws[0].ledger.cobuy, LiveIds(ws[0].ledger.cobuy)) == map[];
    } else {
      BoundedUpTo(ws, steps, n - 1);
      RunKeepsLedger(ws, steps, n - 1);
      StepKeepsBounded(ws[n - 1], steps[n - 1]);
    }
  }

  lemma ProposalFunding(l: Ledger, price: int, at: Time, expiry: Option<Time>, tokens: map<Id, Token>)
    requires LedgerOk(l) && FreshTokens(l, tokens)
    ensures Funded(ProposeIfCovered(l, price, at, expiry, tokens).cobuy) == Funded(l.cobuy)
  {
    if Covered(l.cobuy, price) {
      ProposeKeepsFunding(l.cobuy, l.minted, at, expiry, tokens);
    }
  }

  /** A sum that is let in although it leaves 64 bits is above every quantity, or
      every price, that the item ever had. */
  lemma OverflowUnbounded(w: World, step: Step)
    requires LedgerOk(w.ledger) && Enabled(w, step) && !NoOverflow(w, step)
    ensures !Bounded(Next(w, step))
  {
    var l, l' := w.ledger, NextLedger(w, step);
    if step.ReserveStep? {
      UnitsShrink(l, l);
      ReserveKeeps(l, step.kind, step.quantity, step.email, step.at);
      assert Units(l') > MAX_INT64;
    } else {
      FundedShrinks(l.cobuy, l.cobuy);
      PledgeKeeps(l, step.pledged, step.contact);
      if step.ContributeStep? {
        ProposalFunding(Pledge(l, step.pledged, step.contact), step.price, step.at, step.expiry, step.tokens);
      }
      assert Funded(l'.cobuy) > MAX_INT64;
    }
  }

  /** No oversell and no overfund: although every request checks against what it read
      before taking the lock, live units never exceed the largest quantity the item
      ever wanted, nor live pledges its largest price -- if and only if no sum that is
      let in leaves 64 bits. */
  lemma ReachableBounded(ws: seq<World>, steps: seq<Step>)
    requires Run(ws, steps)
    ensures (forall n :: 0 <= n < |ws| ==> Bounded(ws[n])) <==> NeverOverflows(ws, steps)
  {
    if NeverOverflows(ws, steps) {
      forall n | 0 <= n < |ws| ensures Bounded(ws[n]) {
        BoundedUpTo(ws, steps, n);
      }
    } else {
      var i :| 0 <= i < |steps| && !NoOverflow(ws[i], steps[i]);
      RunKeepsLedger(ws, steps, i);
      OverflowUnbounded(ws[i], steps[i]);
      assert !Bounded(ws[i + 1]);
    }
  }

  // -------------------------------------------------------------- exact funding

  /** A step that proposes a match. */
  ghost predicate Proposes(w: World, step: Step)
    requires Enabled(w, step)
  {
    NextLedger(w, step).cobuy.matches.Keys != w.ledger.cobuy.matches.Keys
  }

  /** The item is not funded past the price a proposal is checked against. The
      contribute handler as one step makes sure of it by its own capacity check; a
      proposal that comes later has to look. */
  ghost predicate WithinPrice(w: World, step: Step) {
    step.LateProposeStep? ==> Funded(w.ledger.cobuy) <= step.price
  }

  lemma OnlyContributesPropose(w: World, step: Step)
    requires LedgerOk(w.ledger) && Enabled(w, step) && Proposes(w, step)
    ensures step.ContributeStep? || ProposesLate(w, step)
  {
  }

  /** A proposal that comes later than its pledge and finds the item covered. */
  ghost predicate ProposesLate(w: World, step: Step) {
    step.LateProposeStep? && Covered(w.ledger.cobuy, step.price)
  }

  /** A proposing step takes in all the item's live pledges, at exactly the price its
      request read and with no other match proposed or completed, if and only if the
      item is not funded past that price. */
  lemma ProposesExactly(w: World, step: Step)
    requires LedgerOk(w.ledger) && Enabled(w, step) && Bounded(w) && NoOverflow(w, step) && Proposes(w, step)
    ensures step.ContributeStep? || step.LateProposeStep?
    ensures ProposedExactly(w.ledger.cobuy, NextLedger(w, step).cobuy, step.price) <==> WithinPrice(w, step)
  {
    OnlyContributesPropose(w, step);
    if step.ContributeStep? {
      ContributionExact(w.ledger, step.pledged, step.contact, step.price, step.at, step.expiry, step.tokens);
    } else {
      ProposalFunding(w.ledger, step.price, step.at, step.expiry, step.tokens);
      if WithinPrice(w, step) {
        ProposalExact(w.ledger, step.price, step.at, step.expiry, step.tokens);
      }
    }
  }

  /** Exact funding over whole runs: every match that is proposed takes in all the
      item's live pledges, at exactly the price its request read, unless the proposal
      came later than its pledge and found the item funded past that price. */
  lemma ReachableExactFunding(ws: seq<World>, steps: seq<Step>, i: nat)
    requires Run(ws, steps) && NeverOverflows(ws, steps) && i < |steps| && Proposes(ws[i], steps[i])
    ensures steps[i].ContributeStep? || steps[i].LateProposeStep?
    ensures ProposedExactly(ws[i].ledger.cobuy, ws[i + 1].ledger.cobuy, steps[i].price) <==>
              WithinPrice(ws[i], steps[i])
  {
    RunKeepsLedger(ws, steps, i);
    BoundedUpTo(ws, steps, i);
    ProposesExactly(ws[i], steps[i]);
  }

  lemma ContributionExact(
    l: Ledger, pledged: int, contact: string, price: int, at: Time, expiry: Option<Time>, tokens: map<Id, Token>)
    requires LedgerOk(l) && pledged > 0 && FreshTokens(Pledge(l, pledged, contact), tokens)
    requires FitsInt64(price) && (CanPledge(l, pledged, price) ==> FitsInt64(Funded(l.cobuy) + pledged))
    requires Contribute(l, pledged, contact, price, at, expiry, tokens).cobuy.matches.Keys != l.cobuy.matches.Keys
    ensures ProposedExactly(l.cobuy, Contribute(l, pledged, contact, price, at, expiry, tokens).cobuy, price)
  {
    ContributionCovers(l, pledged, contact, price, at, expiry, tokens);
    var funded := Pledge(l, pledged, contact);
    ProposalExact(funded, price, at, expiry, tokens);
    SameMatchesBefore(l.cobuy, funded.cobuy, ProposeIfCovered(funded, price, at, expiry, tokens).cobuy, price);
  }

  lemma ContributionCovers(
    l: Ledger, pledged: int, contact: string, price: int, at: Time, expiry: Option<Time>, tokens: map<Id, Token>)
    requires LedgerOk(l) && pledged > 0 && FreshTokens(Pledge(l, pledged, contact), tokens)
    requires FitsInt64(price) && (CanPledge(l, pledged, price) ==> FitsInt64(Funded(l.cobuy) + pledged))
    requires Contribute(l, pledged, contact, price, at, expiry, tokens).cobuy.matches.Keys != l.cobuy.matches.Keys
    ensures var funded := Pledge(l, pledged, contact);
            && LedgerOk(funded) && Covered(funded.cobuy, price) && Funded(funded.cobuy) <= price
            && Contribute(l, pledged, contact, price, at, expiry, tokens) ==
               ProposeIfCovered(funded, price, at, expiry, tokens)
  {
    PledgeKeeps(l, pledged, contact);
  }

  lemma SameMatchesBefore(s: Cobuy, t: Cobuy, s': Cobuy, price: int)
    requires s.matches == t.matches && ProposedExactly(t, s', price)
    ensures ProposedExactly(s, s', price)
  {
    var mid :| NewExactMatch(t, s', price, mid);
    assert NewExactMatch(s, s', price, mid);
  }

  ghost predicate ProposedExactly(s: Cobuy, s': Cobuy, price: int) {
    exists mid :: NewExactMatch(s, s', price, mid)
  }

  /** One new match, proposed over all the live pledges, which sum to the price; no
      match was proposed or completed before. */
  ghost predicate NewExactMatch(s: Cobuy, s': Cobuy, price: int, mid: Id) {
    && mid !in s.matches
    && s'.matches.Keys == s.matches.Keys + {mid}
    && s'.matches[mid].state == Proposed
    && s'.matches[mid].members == LiveIds(s')
    && Funded(s') == price
    && (forall m :: m in s.matches ==> !LiveMatch(s.matches[m]))
  }

  lemma ProposalExact(l: Ledger, price: int, at: Time, expiry: Option<Time>, tokens: map<Id, Token>)
    requires LedgerOk(l) && FreshTokens(l, tokens) && Covered(l.cobuy, price)
    requires FitsInt64(price) && Funded(l.cobuy) <= price
    ensures ProposedExactly(l.cobuy, ProposeIfCovered(l, price, at, expiry, tokens).cobuy, price)
  {
    ExactWhenNotOverfunded(l.cobuy, price);
    ProposeKeepsFunding(l.cobuy, l.minted, at, expiry, tokens);
    assert NewExactMatch(l.cobuy, ProposeIfCovered(l, price, at, expiry, tokens).cobuy, price, l.minted);
  }

  lemma ProposeKeepsFunding(s: Cobuy, mid: Id, at: Time, expiry: Option<Time>, tokens: map<Id, Token>)
    requires PendingIds(s) <= tokens.Keys && mid !in s.matches
    ensures var s' := Propose(s, mid, at, expiry, tokens);
            LiveIds(s') == LiveIds(s) && Funded(s') == Funded(s)
  {
    var s' := Propose(s, mid, at, expiry, tokens);
    ProposedLive(s, mid, at, expiry, tokens);
    assert Pledges(s', LiveIds(s')) == Pledges(s, LiveIds(s));
  }

  ghost predicate AtMostOneLiveMatch(l: Ledger) {
    forall m, n :: m in l.cobuy.matches && n in l.cobuy.matches ==>
      LiveMatch(l.cobuy.matches[m]) && LiveMatch(l.cobuy.matches[n]) ==> m == n
  }

  ghost predicate NoLiveMatch(l: Ledger) {
    forall m :: m in l.cobuy.matches ==> !LiveMatch(l.cobuy.matches[m])
  }

  lemma StepSingleMatchIff(w: World, step: Step)
    requires LedgerOk(w.ledger) && Enabled(w, step) && NoOverflow(w, step) && Bounded(w)
    requires AtMostOneLiveMatch(w.ledger)
    ensures AtMostOneLiveMatch(NextLedger(w, step)) <==> (ProposesLate(w, step) ==> NoLiveMatch(w.ledger))
  {
    if ProposesLate(w, step) {
      LateSingleMatchIff(w.ledger, step.price, step.at, step.expiry, step.tokens);
    } else if Proposes(w, step) {
      OnlyContributesPropose(w, step);
      ContributionExact(w.ledger, step.pledged, step.contact, step.price, step.at, step.expiry, step.tokens);
      ExactIsSingle(w.ledger, NextLedger(w, step), step.price);
    } else {
      StepKeepsLedger(w, step);
      NoNewMatchLive(w.ledger, NextLedger(w, step));
    }
  }

  lemma LateSingleMatchIff(l: Ledger, price: int, at: Time, expiry: Option<Time>, tokens: map<Id, Token>)
    requires IdsMinted(l) && FreshTokens(l, tokens) && Covered(l.cobuy, price)
    ensures AtMostOneLiveMatch(ProposeIfCovered(l, price, at, expiry, tokens)) <==> NoLiveMatch(l)
  {
    MintedIsNew(l);
    NewMatchSingleIff(l, ProposeIfCovered(l, price, at, expiry, tokens), l.minted);
  }

  /** A match that takes in every live pledge leaves no other match live. */
  lemma ExactIsSingle(l: Ledger, l': Ledger, price: int)
    requires ProposedExactly(l.cobuy, l'.cobuy, price) && MatchesAdvance(l.cobuy, l'.cobuy)
    ensures AtMostOneLiveMatch(l')
  {
  }

  /** One more proposed match is the only live one if and only if none was live. */
  lemma NewMatchSingleIff(l: Ledger, l': Ledger, mid: Id)
    requires mid !in l.cobuy.matches && l'.cobuy.matches.Keys == l.cobuy.matches.Keys + {mid}
    requires LiveMatch(l'.cobuy.matches[mid])
    requires forall m :: m in l.cobuy.matches ==> l'.cobuy.matches[m] == l.cobuy.matches[m]
    ensures AtMostOneLiveMatch(l') <==> NoLiveMatch(l)
  {
    if AtMostOneLiveMatch(l') {
      assert forall m :: m in l.cobuy.matches ==> m != mid && m in l'.cobuy.matches;
    }
  }

  lemma NoNewMatchLive(l: Ledger, l': Ledger)
    requires Aged(l, l') && l'.cobuy.matches.Keys == l.cobuy.matches.Keys && AtMostOneLiveMatch(l)
    ensures AtMostOneLiveMatch(l')
  {
    OldMatchesStayResolved(l, l');
  }

  lemma OldMatchesStayResolved(l: Ledger, l': Ledger)
    requires Aged(l, l')
    ensures forall m :: m in l.cobuy.matches && LiveMatch(l'.cobuy.matches[m]) ==> LiveMatch(l.cobuy.matches[m])
  {
  }

  lemma {:induction false} SingleMatchUpTo(ws: seq<World>, steps: seq<Step>, n: nat)
    requires Run(ws, steps) && NeverOverflows(ws, steps) && n < |ws|
    requires forall i :: 0 <= i < n && ProposesLate(ws[i], steps[i]) ==> NoLiveMatch(ws[i].ledger)
    ensures AtMostOneLiveMatch(ws[n].ledger)
  {
    if n > 0 {
      SingleMatchUpTo(ws, steps, n - 1);
      RunKeepsLedger(ws, steps, n - 1);
      BoundedUpTo(ws, steps, n - 1);
      StepSingleMatchIff(ws[n - 1], steps[n - 1]);
    }
  }

  /** Whatever the owner does to the price, an item has at most one proposed or
      completed match throughout a run, if and only if every late proposal that finds
      the item covered finds no match proposed or completed. */
  lemma ReachableSingleMatch(ws: seq<World>, steps: seq<Step>)
    requires Run(ws, steps) && NeverOverflows(ws, steps)
    ensures (forall n :: 0 <= n < |ws| ==> AtMostOneLiveMatch(ws[n].ledger)) <==>
              forall i :: 0 <= i < |steps| && ProposesLate(ws[i], steps[i]) ==> NoLiveMatch(ws[i].ledger)
  {
    if forall n :: 0 <= n < |ws| ==> AtMostOneLiveMatch(ws[n].ledger) {
      forall i | 0 <= i < |steps| && ProposesLate(ws[i], steps[i]) ensures NoLiveMatch(ws[i].ledger) {
        RunKeepsLedger(ws, steps, i);
        BoundedUpTo(ws, steps, i);
        assert AtMostOneLiveMatch(ws[i].ledger) && AtMostOneLiveMatch(ws[i + 1].ledger);
        StepSingleMatchIff(ws[i], steps[i]);
      }
    }
    if forall i :: 0 <= i < |steps| && ProposesLate(ws[i], steps[i]) ==> NoLiveMatch(ws[i].ledger) {
      forall n | 0 <= n < |ws| ensures AtMostOneLiveMatch(ws[n].ledger) {
        SingleMatchUpTo(ws, steps, n);
      }
    }
  }
}
