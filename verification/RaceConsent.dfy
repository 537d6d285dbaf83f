/** Unanimous consent when requests interleave between the list and the create of a
    proposal. */
module RaceConsent {
  import opened Prelude
  import opened Cobuying
  import opened ItemLedger
  import opened LedgerRuns
  import opened ProposalRace
  import opened Consent

  predicate IsConfirm(step: RaceStep, cid: Id, mid: Id) {
    step.Plain? && step.step.ConfirmStep? && step.step.cid == cid && step.step.mid == mid
  }

  predicate IsAuthenticate(step: RaceStep, cid: Id, raw: Token, mid: Id) {
    step.Plain? && step.step.AuthenticateStep? && (step.step.cid, step.step.raw, step.step.mid) == (cid, raw, mid)
  }

  /** Step `k` is a confirm of this very match by this pledge, with a token that was
      authenticated at step `j` and admitted the pledge to the match then. */
  ghost predicate RaceConsented(rs: seq<Race>, steps: seq<RaceStep>, j: nat, k: nat, cid: Id, mid: Id)
    requires RaceRun(rs, steps)
  {
    && j < k < |steps| && IsConfirm(steps[k], cid, mid)
    && Confirmable(rs[k].world.ledger.cobuy, cid, mid)
    && IsAuthenticate(steps[j], cid, steps[k].step.raw, mid)
    && cid in rs[j].world.ledger.cobuy.contributions
    && Admits(rs[j].world.ledger.cobuy.contributions[cid], steps[k].step.raw, mid, steps[j].step.at)
  }

  lemma LastStep(rs: seq<Race>, steps: seq<RaceStep>, n: nat)
    requires RaceRun(rs, steps) && 0 < n < |rs|
    ensures CanStep(rs[n - 1], steps[n - 1]) && rs[n] == RaceNext(rs[n - 1], steps[n - 1])
  {
    assert rs[n - 1 + 1] == RaceNext(rs[n - 1], steps[n - 1]);
  }

  lemma AuthenticatedByStep(r: Race, step: RaceStep, cid: Id, raw: Token, mid: Id)
    requires CanStep(r, step) && (cid, raw, mid) in RaceNext(r, step).world.past.authenticated
    ensures IsAuthenticate(step, cid, raw, mid) || (cid, raw, mid) in r.world.past.authenticated
  {
  }

  lemma RaceAuthenticatedEarlier(
    rs: seq<Race>, steps: seq<RaceStep>, n: nat, cid: Id, raw: Token, mid: Id) returns (j: nat)
    requires RaceRun(rs, steps) && n < |rs| && (cid, raw, mid) in rs[n].world.past.authenticated
    ensures j < n && IsAuthenticate(steps[j], cid, raw, mid)
  {
    var history := seq(n + 1, i requires 0 <= i <= n => (cid, raw, mid) in rs[i].world.past.authenticated);
    j := FirstRise(history);
    LastStep(rs, steps, j + 1);
    AuthenticatedByStep(rs[j], steps[j], cid, raw, mid);
  }

  /** Creating a match confirms no pledge: those it stamps are only matched. */
  lemma RaceConfirmedByConfirmOnly(r: Race, step: RaceStep, cid: Id, mid: Id)
    requires CanStep(r, step) && ConfirmedIn(RaceNext(r, step).world.ledger.cobuy, cid, mid)
    ensures var s := r.world.ledger.cobuy;
            || ConfirmedIn(s, cid, mid)
            || (IsConfirm(step, cid, mid) && Confirmable(s, cid, mid)
                && (cid, step.step.raw, mid) in r.world.past.authenticated)
  {
    if step.Plain? {
      ConfirmedByConfirmOnly(r.world, step.step, cid, mid);
    }
  }

  lemma RaceConsentOf(rs: seq<Race>, steps: seq<RaceStep>, k: nat, cid: Id, mid: Id) returns (j: nat)
    requires RaceRun(rs, steps) && k < |steps| && IsConfirm(steps[k], cid, mid)
    requires Confirmable(rs[k].world.ledger.cobuy, cid, mid)
    requires (cid, steps[k].step.raw, mid) in rs[k].world.past.authenticated
    ensures RaceConsented(rs, steps, j, k, cid, mid)
  {
    j := RaceAuthenticatedEarlier(rs, steps, k, cid, steps[k].step.raw, mid);
    assert CanStep(rs[j], steps[j]);
    ActorLinked(rs[j].world.ledger.cobuy, cid, steps[k].step.raw, mid, steps[j].step.at);
  }

  lemma RaceConfirmedBefore(rs: seq<Race>, steps: seq<RaceStep>, n: nat, cid: Id, mid: Id)
    requires RaceRun(rs, steps) && n < |rs| && ConfirmedIn(rs[n].world.ledger.cobuy, cid, mid)
    ensures n > 0
    ensures var s, step := rs[n - 1].world.ledger.cobuy, steps[n - 1];
            || ConfirmedIn(s, cid, mid)
            || (IsConfirm(step, cid, mid) && Confirmable(s, cid, mid)
                && (cid, step.step.raw, mid) in rs[n - 1].world.past.authenticated)
  {
    LastStep(rs, steps, n);
    RaceConfirmedByConfirmOnly(rs[n - 1], steps[n - 1], cid, mid);
  }

  lemma RaceConfirmedHasConsented(
    rs: seq<Race>, steps: seq<RaceStep>, n: nat, cid: Id, mid: Id) returns (j: nat, k: nat)
    requires RaceRun(rs, steps) && n < |rs| && ConfirmedIn(rs[n].world.ledger.cobuy, cid, mid)
    ensures k < n && RaceConsented(rs, steps, j, k, cid, mid)
  {
    var history := seq(n + 1, i requires 0 <= i <= n => ConfirmedIn(rs[i].world.ledger.cobuy, cid, mid));
    k := FirstRise(history);
    RaceConfirmedBefore(rs, steps, k + 1, cid, mid);
    j := RaceConsentOf(rs, steps, k, cid, mid);
  }

  /** A confirm completes a match when the pledges linked to it are confirmed. These are
      all its members, whose contacts are read out from then on, if and only if each
      member is still linked to it. */
  lemma CompletedByAllIff(s: Cobuy, actor: Id, mid: Id)
    requires Completes(s, actor, mid)
    ensures (forall cid :: cid in s.matches[mid].members ==> ConfirmedIn(Confirm(s, actor, mid), cid, mid)) <==>
              s.matches[mid].members <= Linked(s, mid)
  {
    var s' := Confirm(s, actor, mid);
    assert forall cid :: cid in Linked(s', mid) <==> cid in Linked(s, mid);
    assert forall cid :: cid in Linked(s, mid) ==> ConfirmedIn(s', cid, mid);
  }

  /** Whatever the creates find: the contacts that a completing confirm sends out, those
      of the linked pledges, are of pledges that confirmed that same match. */
  lemma RaceRevealNeedsConsent(rs: seq<Race>, steps: seq<RaceStep>, n: nat, actor: Id, mid: Id, cid: Id)
    returns (j: nat, k: nat)
    requires RaceRun(rs, steps) && n < |steps| && IsConfirm(steps[n], actor, mid)
    requires Completes(rs[n].world.ledger.cobuy, actor, mid) && cid in Linked(rs[n].world.ledger.cobuy, mid)
    ensures k <= n && RaceConsented(rs, steps, j, k, cid, mid)
  {
    assert CanStep(rs[n], steps[n]);
    if cid == actor {
      k := n;
      j := RaceConsentOf(rs, steps, k, cid, mid);
    } else {
      j, k := RaceConfirmedHasConsented(rs, steps, n, cid, mid);
    }
  }

  /** Whenever a contact of a match leaves the system, every member of that match has
      confirmed that same match with its own token, as long as every create until then
      found what it listed still pending. */
  lemma RaceDisclosureNeedsEveryConsent(rs: seq<Race>, steps: seq<RaceStep>, n: nat, mid: Id, cid: Id)
    returns (j: nat, k: nat)
    requires RaceRun(rs, steps) && n < |steps| && steps[n].Plain? && Discloses(rs[n].world, steps[n].step, mid)
    requires forall i :: 0 <= i < n ==> FindsPending(rs[i], steps[i])
    requires mid in rs[n].world.ledger.cobuy.matches && cid in rs[n].world.ledger.cobuy.matches[mid].members
    ensures k <= n && RaceConsented(rs, steps, j, k, cid, mid)
  {
    var s := rs[n].world.ledger.cobuy;
    RaceOkUpTo(rs, steps, n);
    MatchMeaning(s, mid);
    assert CanStep(rs[n], steps[n]);
    if IsConfirm(steps[n], cid, mid) {
      k := n;
      j := RaceConsentOf(rs, steps, k, cid, mid);
    } else {
      assert ConfirmedIn(s, cid, mid);
      j, k := RaceConfirmedHasConsented(rs, steps, n, cid, mid);
    }
  }
}
