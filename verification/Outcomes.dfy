/** What each request on an item must come to, told from the rows alone: when a reserve
    or a pledge is let in, when a match is proposed, and how long a match-action link
    works. */
module Outcomes {
  import opened Prelude
  import opened Reservations
  import opened Cobuying
  import opened ItemLedger
  import opened LedgerRuns
  import opened Consent

  // -------------------------------------------------------------------- reserving

  /** A reserve is let in if and only if no pledge holds the item and as many units are
      left of the quantity read; it then adds one row of that quantity, and otherwise
      changes nothing. */
  lemma ReserveOutcome(w: World, step: Step)
    requires LedgerOk(w.ledger) && Enabled(w, step) && step.ReserveStep?
    requires FitsInt64(Units(w.ledger) + step.quantity)
    ensures var l, l' := w.ledger, NextLedger(w, step);
            if NoPledgeHolds(l) && Units(l) + step.quantity <= step.wanted then
              && l'.reservations.Keys == l.reservations.Keys + {l.minted}
              && l'.reservations[l.minted].quantity == step.quantity
              && l'.reservations[l.minted].giverEmail == step.email
              && Units(l') == Units(l) + step.quantity
            else l' == l
  {
    ReserveFits(w.ledger, step.quantity, step.wanted);
    if CanReserve(w.ledger, step.quantity, step.wanted) {
      ReserveKeeps(w.ledger, step.kind, step.quantity, step.email, step.at);
      MintedIsNew(w.ledger);
    }
  }

  /** The step ends a reservation that holds units: its giver releases it, or it expires
      unconfirmed or unanswered. */
  predicate Ends(l: Ledger, step: Step) {
    && (step.ReleaseStep? || step.TransitionStep?) && step.res in l.reservations
    && var state := l.reservations[step.res].state;
       if step.ReleaseStep? then state != Expired
       else (step.transition.ExpirePending? && state == PendingConfirmation) ||
            (step.transition.ExpireNotified? && state == ReserverNotified)
  }

  lemma UnitsWithout(l: Ledger, l': Ledger, id: Id)
    requires id in LiveReservations(l) && LiveReservations(l') == LiveReservations(l) - {id}
    requires forall k :: k in LiveReservations(l') ==> l'.reservations[k].quantity == l.reservations[k].quantity
    ensures Units(l') == Units(l) - l.reservations[id].quantity
  {
    TotalRemove(UnitsColumn(l), id);
    assert forall k :: k in UnitsColumn(l') <==> k in LiveReservations(l');
    assert UnitsColumn(l') == UnitsColumn(l) - {id};
  }

  /** A reservation holds its units through confirming, reminding and keeping, until it is
      released or expires. */
  lemma UnitsHeld(w: World, step: Step)
    requires LedgerOk(w.ledger) && Enabled(w, step) && (step.TransitionStep? || step.ReleaseStep?)
    ensures Units(NextLedger(w, step)) ==
              Units(w.ledger) - if Ends(w.ledger, step) then w.ledger.reservations[step.res].quantity else 0
  {
    var l, l' := w.ledger, NextLedger(w, step);
    if Ends(l, step) {
      UnitsWithout(l, l', step.res);
    } else {
      assert UnitsColumn(l') == UnitsColumn(l);
    }
  }

  lemma RoomToReserve(w: World, step: Step)
    requires LedgerOk(w.ledger) && Enabled(w, step) && step.ReserveStep?
    requires NoPledgeHolds(w.ledger) && Units(w.ledger) + step.quantity <= step.wanted && FitsInt64(step.wanted)
    ensures w.ledger.minted !in w.ledger.reservations && w.ledger.minted in NextLedger(w, step).reservations
  {
    UnitsShrink(w.ledger, w.ledger);
    MintedIsNew(w.ledger);
    ReserveOutcome(w, step);
  }

  /** The units of a reservation that ended can be reserved again. */
  lemma FreedUnitsTaken(w: World, step: Step, again: Step)
    requires LedgerOk(w.ledger) && Enabled(w, step) && Ends(w.ledger, step)
    requires again.ReserveStep? && Enabled(Next(w, step), again)
    requires again.quantity <= w.ledger.reservations[step.res].quantity && Units(w.ledger) <= again.wanted
    requires FitsInt64(again.wanted)
    ensures var l' := NextLedger(w, step);
            l'.minted !in l'.reservations && l'.minted in NextLedger(Next(w, step), again).reservations
  {
    UnitsHeld(w, step);
    StepKeepsLedger(w, step);
    NoPledgeBeside(w.ledger, step.res);
    assert NextLedger(w, step).cobuy == w.ledger.cobuy;
    RoomToReserve(Next(w, step), again);
  }

  lemma NoPledgeBeside(l: Ledger, res: Id)
    requires Exclusive(l) && res in LiveReservations(l)
    ensures NoPledgeHolds(l)
  {
    forall id | id in l.cobuy.contributions
      ensures l.cobuy.contributions[id].status in {Declined, Withdrawn, PledgeExpired}
    {
      var c := l.cobuy.contributions[id];
      assert id !in LiveIds(l.cobuy);
      assert Live(c) || c.status.Declined? || c.status.Withdrawn? || c.status.PledgeExpired?;
    }
  }

  // --------------------------------------------------------------------- pledging

  /** A pledge by itself is let in if and only if no reservation holds the item and as
      much is left of the price read. */
  lemma PledgeOutcome(w: World, step: Step)
    requires LedgerOk(w.ledger) && Enabled(w, step) && step.PledgeStep?
    requires FitsInt64(Funded(w.ledger.cobuy) + step.pledged)
    ensures var l, l' := w.ledger, NextLedger(w, step);
            if NoReservationHolds(l) && Funded(l.cobuy) + step.pledged <= step.price then
              && l'.cobuy.contributions.Keys == l.cobuy.contributions.Keys + {l.minted}
              && l'.cobuy.contributions[l.minted].pledged == step.pledged
              && l'.cobuy.contributions[l.minted].status == Pending
              && l'.cobuy.contributions[l.minted].contact == step.contact
              && (forall raw :: Holds(l'.cobuy.contributions[l.minted], raw) <==> raw == l.minted + 1)
              && Funded(l'.cobuy) == Funded(l.cobuy) + step.pledged
            else l' == l
  {
    PledgeFits(w.ledger, step.pledged, step.price);
    if CanPledge(w.ledger, step.pledged, step.price) {
      PledgeKeeps(w.ledger, step.pledged, step.contact);
      MintedIsNew(w.ledger);
    }
  }

  lemma FundedWithout(s: Cobuy, s': Cobuy, id: Id)
    requires id in LiveIds(s) && LiveIds(s') == LiveIds(s) - {id}
    requires forall k :: k in LiveIds(s') ==> s'.contributions[k].pledged == s.contributions[k].pledged
    ensures Funded(s') == Funded(s) - s.contributions[id].pledged
  {
    TotalRemove(Pledges(s, LiveIds(s)), id);
    assert forall k :: k in Pledges(s', LiveIds(s')) <==> k in LiveIds(s');
    assert forall k :: k in Pledges(s, LiveIds(s)) <==> k in LiveIds(s);
    assert Pledges(s', LiveIds(s')) == Pledges(s, LiveIds(s)) - {id};
  }

  /** A live pledge that is withdrawn or declines takes exactly its amount out of the
      funding. */
  lemma FundingFreed(w: World, step: Step)
    requires LedgerOk(w.ledger) && Enabled(w, step) && (step.WithdrawStep? || step.DeclineStep?)
    requires step.cid in w.ledger.cobuy.contributions && Live(w.ledger.cobuy.contributions[step.cid])
    requires step.WithdrawStep? ==> step.cid !in NextLedger(w, step).cobuy.contributions
    ensures Funded(NextLedger(w, step).cobuy) ==
              Funded(w.ledger.cobuy) - w.ledger.cobuy.contributions[step.cid].pledged
  {
    var s, s' := w.ledger.cobuy, NextLedger(w, step).cobuy;
    if step.WithdrawStep? {
      WithdrawKeeps(s, step.cid);
    } else {
      ActorLinked(s, step.cid, step.raw, step.mid, step.at);
      DeclineKeeps(s, step.cid, step.mid);
    }
    FundedWithout(s, s', step.cid);
  }

  // -------------------------------------------------------------------- proposing

  function PendingAmounts(s: Cobuy): map<Id, int> {
    map id | id in s.contributions && s.contributions[id].status == Pending :: s.contributions[id].pledged
  }

  ghost function PendingSum(s: Cobuy): int {
    Total(PendingAmounts(s))
  }

  lemma PendingSumIs(s: Cobuy)
    ensures PendingSum(s) == Total(Pledges(s, PendingIds(s)))
  {
    assert Pledges(s, PendingIds(s)) == PendingAmounts(s);
  }

  lemma PendingWithinFunding(s: Cobuy)
    requires Consistent(s)
    ensures 0 <= PendingSum(s) <= Funded(s)
  {
    PendingSumIs(s);
    forall id | id in s.contributions ensures s.contributions[id].pledged > 0 {
      assert PledgeOk(s, id);
    }
    TotalOfPart(Pledges(s, PendingIds(s)), Pledges(s, LiveIds(s)));
  }

  lemma CoveredMeans(s: Cobuy, price: int)
    requires Consistent(s) && FitsInt64(Funded(s))
    ensures Covered(s, price) <==> |PendingIds(s)| >= 2 && PendingSum(s) >= price
  {
    PendingSumIs(s);
    PendingWithinFunding(s);
  }

  /** A match is proposed if and only if at least two pledges are pending and they reach
      the price. */
  lemma ProposalOutcome(l: Ledger, price: int, at: Time, expiry: Option<Time>, tokens: map<Id, Token>)
    requires LedgerOk(l) && FreshTokens(l, tokens) && FitsInt64(Funded(l.cobuy))
    ensures var l' := ProposeIfCovered(l, price, at, expiry, tokens);
            ProposedOver(|PendingIds(l.cobuy)| >= 2 && PendingSum(l.cobuy) >= price,
                         l.cobuy, l'.cobuy, l.minted, at)
  {
    CoveredMeans(l.cobuy, price);
    ProposalRows(l, price, at, expiry, tokens);
  }

  /** A new match over all pending pledges, or nothing. */
  ghost predicate ProposedOver(proposed: bool, s: Cobuy, s': Cobuy, mid: Id, at: Time) {
    if proposed then
      && s'.matches == s.matches[mid := Match(Proposed, PendingIds(s), at)]
      && s'.contributions.Keys == s.contributions.Keys && PendingIds(s') == {}
    else s' == s
  }

  lemma ProposalRows(l: Ledger, price: int, at: Time, expiry: Option<Time>, tokens: map<Id, Token>)
    requires FreshTokens(l, tokens)
    ensures var l' := ProposeIfCovered(l, price, at, expiry, tokens);
            ProposedOver(Covered(l.cobuy, price), l.cobuy, l'.cobuy, l.minted, at)
  {
  }

  lemma LateProposalOutcome(w: World, step: Step)
    requires LedgerOk(w.ledger) && Enabled(w, step) && step.LateProposeStep? && FitsInt64(Funded(w.ledger.cobuy))
    ensures Proposes(w, step) <==> |PendingIds(w.ledger.cobuy)| >= 2 && PendingSum(w.ledger.cobuy) >= step.price
  {
    ProposalOutcome(w.ledger, step.price, step.at, step.expiry, step.tokens);
    MintedIsNew(w.ledger);
  }

  lemma OneMorePending(s: Cobuy, id: Id, c: Contribution)
    requires id !in s.contributions && c.status == Pending
    ensures PendingIds(Insert(s, id, c)) == PendingIds(s) + {id}
    ensures PendingSum(Insert(s, id, c)) == PendingSum(s) + c.pledged
  {
    TotalInsert(PendingAmounts(s), id, c.pledged);
    assert PendingAmounts(Insert(s, id, c)) == PendingAmounts(s)[id := c.pledged];
  }

  lemma PledgePends(l: Ledger, pledged: int, contact: string)
    requires l.minted !in l.cobuy.contributions
    ensures var s' := Pledge(l, pledged, contact).cobuy;
            && PendingIds(s') == PendingIds(l.cobuy) + {l.minted} && l.minted !in PendingIds(l.cobuy)
            && PendingSum(s') == PendingSum(l.cobuy) + pledged
            && s'.contributions.Keys == l.cobuy.contributions.Keys + {l.minted} && s'.matches == l.cobuy.matches
  {
    var c := NewPledge(pledged, contact, Sha(l.minted + 1));
    OneMorePending(l.cobuy, l.minted, c);
    assert Pledge(l, pledged, contact).cobuy == Insert(l.cobuy, l.minted, c);
  }

  /** Two pledges are pending after one more exactly when one was before. */
  lemma AtLeastTwo(pending: set<Id>, id: Id)
    requires id !in pending
    ensures |pending + {id}| >= 2 <==> pending != {}
  {
  }

  lemma ContributionLetIn(w: World, step: Step)
    requires LedgerOk(w.ledger) && Enabled(w, step) && step.ContributeStep? && NoOverflow(w, step) && Bounded(w)
    ensures CanPledge(w.ledger, step.pledged, step.price) <==>
              NoReservationHolds(w.ledger) && Funded(w.ledger.cobuy) + step.pledged <= step.price
    ensures CanPledge(w.ledger, step.pledged, step.price) ==>
              var funded := Pledge(w.ledger, step.pledged, step.contact);
              && LedgerOk(funded) && FitsInt64(Funded(funded.cobuy))
              && NextLedger(w, step) == ProposeIfCovered(funded, step.price, step.at, step.expiry, step.tokens)
  {
    FundedShrinks(w.ledger.cobuy, w.ledger.cobuy);
    PledgeFits(w.ledger, step.pledged, step.price);
    if CanPledge(w.ledger, step.pledged, step.price) {
      PledgeKeeps(w.ledger, step.pledged, step.contact);
    }
  }

  /** One pledge more; a match over all pending pledges exactly when another was pending
      and they reach the price together; and no two pending pledges left that do. */
  ghost predicate ContributionCame(
    s: Cobuy, s': Cobuy, id: Id, mid: Id, pledged: int, price: int, at: Time)
  {
    && s'.contributions.Keys == s.contributions.Keys + {id}
    && s'.matches ==
       (if PendingIds(s) != {} && PendingSum(s) + pledged >= price
        then s.matches[mid := Match(Proposed, PendingIds(s) + {id}, at)] else s.matches)
    && (|PendingIds(s')| >= 2 ==> PendingSum(s') < price)
  }

  /** What a contribute request comes to. The pledge is let in if and only if no
      reservation holds the item and as much is left of the price; a match over all
      pending pledges is then proposed if and only if another pledge was pending and they
      reach the price together with the new one. */
  lemma ContributeOutcome(w: World, step: Step)
    requires LedgerOk(w.ledger) && Enabled(w, step) && step.ContributeStep? && NoOverflow(w, step) && Bounded(w)
    ensures var l, l' := w.ledger, NextLedger(w, step);
            if NoReservationHolds(l) && Funded(l.cobuy) + step.pledged <= step.price
            then exists mid :: mid !in l.cobuy.matches &&
                               ContributionCame(l.cobuy, l'.cobuy, l.minted, mid, step.pledged, step.price, step.at)
            else l' == l
  {
    var l := w.ledger;
    ContributionLetIn(w, step);
    if CanPledge(l, step.pledged, step.price) {
      MintedIsNew(l);
      var funded := Pledge(l, step.pledged, step.contact);
      CoveredMeans(funded.cobuy, step.price);
      MintedIsNew(funded);
      ContributionProposes(
        l, step.pledged, step.contact, funded, step.price, step.at, step.expiry, step.tokens);
    }
  }

  lemma ContributionProposes(l: Ledger, pledged: int, contact: string, funded: Ledger, price: int, at: Time,
                             expiry: Option<Time>, tokens: map<Id, Token>)
    requires l.minted !in l.cobuy.contributions && funded == Pledge(l, pledged, contact) && FreshTokens(funded, tokens)
    requires Covered(funded.cobuy, price) <==>
               |PendingIds(funded.cobuy)| >= 2 && PendingSum(funded.cobuy) >= price
    ensures ContributionCame(l.cobuy, ProposeIfCovered(funded, price, at, expiry, tokens).cobuy,
                             l.minted, funded.minted, pledged, price, at)
  {
    PledgePends(l, pledged, contact);
    ProposalRows(funded, price, at, expiry, tokens);
    var s' := ProposeIfCovered(funded, price, at, expiry, tokens).cobuy;
    AtLeastTwo(PendingIds(l.cobuy), l.minted);
    ContributionCameBy(Covered(funded.cobuy, price), l.cobuy, funded.cobuy, s', l.minted, funded.minted,
                       pledged, price, at);
  }

  lemma ContributionCameBy(
    proposed: bool, s: Cobuy, t: Cobuy, s': Cobuy, id: Id, mid: Id, pledged: int, price: int, at: Time)
    requires ProposedOver(proposed, t, s', mid, at)
    requires proposed <==> |PendingIds(t)| >= 2 && PendingSum(t) >= price
    requires PendingIds(t) == PendingIds(s) + {id} && (|PendingIds(t)| >= 2 <==> PendingIds(s) != {})
    requires PendingSum(t) == PendingSum(s) + pledged
    requires t.contributions.Keys == s.contributions.Keys + {id} && t.matches == s.matches
    ensures ContributionCame(s, s', id, mid, pledged, price, at)
  {
  }

  /** In every run whose sums fit 64 bits, a contribute request leaves no two pending
      pledges that reach its price. */
  lemma ReachableContribution(ws: seq<World>, steps: seq<Step>, i: nat)
    requires Run(ws, steps) && NeverOverflows(ws, steps) && i < |steps| && steps[i].ContributeStep?
    ensures var s, s' := ws[i].ledger.cobuy, ws[i + 1].ledger.cobuy;
            s' != s && |PendingIds(s')| >= 2 ==> PendingSum(s') < steps[i].price
  {
    RunKeepsLedger(ws, steps, i);
    BoundedUpTo(ws, steps, i);
    ContributionSettles(ws[i], steps[i]);
  }

  lemma ContributionSettles(w: World, step: Step)
    requires LedgerOk(w.ledger) && Enabled(w, step) && step.ContributeStep? && NoOverflow(w, step) && Bounded(w)
    ensures var s, s' := w.ledger.cobuy, NextLedger(w, step).cobuy;
            s' != s && |PendingIds(s')| >= 2 ==> PendingSum(s') < step.price
  {
    ContributeOutcome(w, step);
  }

  // -------------------------------------------------------------------- the owner

  /** What the owner's requests do: an edit writes price and quantity, archiving sets the
      mark once, un-archiving clears it and restarts both clocks of every live reservation;
      nothing else changes. */
  lemma OwnerOutcome(w: World, step: Step)
    requires Enabled(w, step) && (step.EditStep? || step.ArchiveStep? || step.UnarchiveStep?)
    ensures var l, l' := w.ledger, NextLedger(w, step);
            && l'.cobuy == l.cobuy && l'.reservations.Keys == l.reservations.Keys && l'.minted == l.minted
            && l'.price == (if step.EditStep? then step.newPrice else l.price)
            && l'.quantityWanted ==
               (if step.EditStep? then if step.newQuantity < 1 then 1 else step.newQuantity else l.quantityWanted)
            && l'.archivedAt == (if step.UnarchiveStep? then None
                                 else if step.ArchiveStep? && l.archivedAt.None? then Some(step.at) else l.archivedAt)
            && forall id :: id in l.reservations ==>
                 var r := l.reservations[id];
                 l'.reservations[id] ==
                   if step.UnarchiveStep? && l.archivedAt.Some? && r.state != Expired
                   then r.(lastActivityAt := step.at, stateAt := step.at) else r
  {
  }

  // ---------------------------------------------------------------- match actions

  /** Where tokens are personal the answer to a token is the one its pledge determines:
      as an actor exactly when the token admits it, which a match-action token does until
      the instant it expires. */
  lemma AnswerDetermined(l: Ledger, raw: Token, mid: Id, now: Time, r: ActorResult)
    requires TokensPersonal(l) && Authenticates(l.cobuy, raw, mid, now, r)
    ensures forall cid :: cid in l.cobuy.contributions && Holds(l.cobuy.contributions[cid], raw) ==>
              r == AnswerTo(l.cobuy.contributions[cid], cid, raw, mid, now)
    ensures (forall cid :: cid in l.cobuy.contributions ==> !Holds(l.cobuy.contributions[cid], raw)) ==>
              r == Unauthorized
  {
    forall cid | cid in l.cobuy.contributions && Holds(l.cobuy.contributions[cid], raw)
      ensures r == AnswerTo(l.cobuy.contributions[cid], cid, raw, mid, now)
    {
      AnswerOfHolder(l, raw, mid, now, r, cid);
    }
  }

  function AnswerTo(c: Contribution, cid: Id, raw: Token, mid: Id, now: Time): ActorResult {
    if c.matchId != Some(mid) then NotInMatch
    else if c.tokenHash != Sha(raw) && c.actionExpiry.Some? && now >= c.actionExpiry.value then ActionTokenExpired
    else Actor(cid)
  }

  lemma AnswerOfHolder(l: Ledger, raw: Token, mid: Id, now: Time, r: ActorResult, cid: Id)
    requires TokensPersonal(l) && Authenticates(l.cobuy, raw, mid, now, r)
    requires cid in l.cobuy.contributions && Holds(l.cobuy.contributions[cid], raw)
    ensures r == AnswerTo(l.cobuy.contributions[cid], cid, raw, mid, now)
  {
    NobodyElseHolds(l, raw, cid);
    OnlyHolderAnswers(l.cobuy, raw, mid, now, r, cid);
  }

  lemma OnlyHolderAnswers(s: Cobuy, raw: Token, mid: Id, now: Time, r: ActorResult, cid: Id)
    requires Authenticates(s, raw, mid, now, r) && cid in s.contributions && Holds(s.contributions[cid], raw)
    requires forall other :: other in s.contributions && other != cid ==> !Holds(s.contributions[other], raw)
    ensures r == AnswerTo(s.contributions[cid], cid, raw, mid, now)
  {
    assert HoldsCapability(s, cid, raw) || HoldsAction(s, cid, raw);
  }

  lemma NobodyElseHolds(l: Ledger, raw: Token, cid: Id)
    requires TokensPersonal(l) && cid in l.cobuy.contributions && Holds(l.cobuy.contributions[cid], raw)
    ensures forall other :: other in l.cobuy.contributions && other != cid ==> !Holds(l.cobuy.contributions[other], raw)
    ensures !HoldsCapability(l.cobuy, cid, raw) || !HoldsAction(l.cobuy, cid, raw)
    ensures HoldsCapability(l.cobuy, cid, raw) || HoldsAction(l.cobuy, cid, raw)
  {
    var rows := l.cobuy.contributions;
    assert TokensOf(rows[cid], l.minted);
    forall other | other in rows && other != cid ensures !Holds(rows[other], raw) {
      assert NoSharedToken(rows[cid], rows[other]);
    }
  }

  /** In every reachable state a token can be authenticated for a match action of a pledge
      if and only if it admits that pledge. */
  lemma AuthenticateEnabledIff(ws: seq<World>, steps: seq<Step>, n: nat, cid: Id, raw: Token, mid: Id, at: Time)
    requires Run(ws, steps) && n < |ws|
    ensures var rows := ws[n].ledger.cobuy.contributions;
            Enabled(ws[n], AuthenticateStep(cid, raw, mid, at)) <==> cid in rows && Admits(rows[cid], raw, mid, at)
  {
    ReachableTokensPersonal(ws, steps, n);
    AdmittedIff(ws[n].ledger, cid, raw, mid, at);
  }

  /** A member can decline with a token that admits it, while the match is proposed. */
  lemma DeclineEnabledIff(ws: seq<World>, steps: seq<Step>, n: nat, cid: Id, raw: Token, mid: Id, at: Time)
    requires Run(ws, steps) && n < |ws|
    ensures var s := ws[n].ledger.cobuy;
            Enabled(ws[n], DeclineStep(cid, raw, mid, at)) <==>
              && cid in s.contributions && Admits(s.contributions[cid], raw, mid, at)
              && mid in s.matches && s.matches[mid].state == Proposed
  {
    AuthenticateEnabledIff(ws, steps, n, cid, raw, mid, at);
  }

  /** It can confirm, or read the match, once a token was authenticated for it. */
  lemma ConfirmEnabledIff(ws: seq<World>, steps: seq<Step>, n: nat, cid: Id, raw: Token, mid: Id)
    requires Run(ws, steps) && n < |ws|
    ensures Enabled(ws[n], ConfirmStep(cid, raw, mid)) <==> Enabled(ws[n], ViewMatchStep(cid, raw, mid))
    ensures Enabled(ws[n], ConfirmStep(cid, raw, mid)) <==>
              exists j :: 0 <= j < n && Authenticated(steps[j], cid, raw, mid)
  {
    if (cid, raw, mid) in ws[n].past.authenticated {
      var j := AuthenticatedEarlier(ws, steps, n, cid, raw, mid);
      assert Authenticated(steps[j], cid, raw, mid);
    }
    if j :| 0 <= j < n && Authenticated(steps[j], cid, raw, mid) {
      assert (cid, raw, mid) in ws[j + 1].past.authenticated;
      AuthenticatedStays(ws, steps, j + 1, n, (cid, raw, mid));
    }
  }

  predicate Authenticated(step: Step, cid: Id, raw: Token, mid: Id) {
    step.AuthenticateStep? && step.cid == cid && step.raw == raw && step.mid == mid
  }

  lemma {:induction false} AuthenticatedStays(
    ws: seq<World>, steps: seq<Step>, i: nat, j: nat, action: (Id, Token, Id))
    requires Run(ws, steps) && i <= j < |ws| && action in ws[i].past.authenticated
    ensures action in ws[j].past.authenticated
    decreases j
  {
    if i < j {
      AuthenticatedStays(ws, steps, i, j - 1, action);
      assert ws[j - 1 + 1] == Next(ws[j - 1], steps[j - 1]);
    }
  }

  lemma AdmittedIff(l: Ledger, cid: Id, raw: Token, mid: Id, at: Time)
    requires TokensPersonal(l)
    ensures Authenticates(l.cobuy, raw, mid, at, Actor(cid)) <==>
              cid in l.cobuy.contributions && Admits(l.cobuy.contributions[cid], raw, mid, at)
  {
    var rows := l.cobuy.contributions;
    if cid in rows && Admits(rows[cid], raw, mid, at) {
      NobodyElseHolds(l, raw, cid);
    }
  }

  /** The links of a proposed match work from the proposal for as long as the confirm
      window, or for ever if there is none, and the expiry sweep takes the match only
      after that. */
  lemma LinksOutlastNoSweep(l: Ledger, at: Time, window: int, tokens: map<Id, Token>, cid: Id, now: Time)
    requires LedgerOk(l) && TokensPersonal(l) && FreshTokens(l, tokens) && cid in PendingIds(l.cobuy)
    ensures var s' := Propose(l.cobuy, l.minted, at, ExpiryOf(window, at), tokens);
            && (Admits(s'.contributions[cid], tokens[cid], l.minted, now) <==> window <= 0 || now < at + window)
            && (l.minted in OverdueMatches(s', now, window) <==> window > 0 && now > at + window)
  {
    assert TokensOf(l.cobuy.contributions[cid], l.minted);
  }

  // -------------------------------------------------------------- a held reservation

  /** The emailed confirm link of a new hold finds that hold and no other, and confirming
      it makes the new capability the only one the reservation answers to. */
  lemma FreshHoldConfirms(l: Ledger, quantity: int, email: Option<string>, at: Time, later: Time, capability: Token)
    requires forall id :: id in l.reservations ==> l.reservations[id].confirmHash != Sha(l.minted + 1)
    ensures var l' := Reserve(l, EmailConfirmed, quantity, email, at);
            var rows := TransitionIn(l'.reservations, l.minted, ConfirmHold(Sha(capability)), later);
            && (forall id :: id in l'.reservations ==>
                  (l'.reservations[id].confirmHash == Sha(l.minted + 1) <==> id == l.minted))
            && (forall raw :: l'.reservations[l.minted].tokenHash != Sha(raw))
            && rows[l.minted].state == Active && rows[l.minted].stateAt == rows[l.minted].lastActivityAt == later
            && (forall raw :: rows[l.minted].tokenHash == Sha(raw) <==> raw == capability)
  {
  }
}
