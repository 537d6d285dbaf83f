/** What the co-buying handshake promises its parties: a contact leaves the system
    only after everyone in the match agreed to it, and a match completes once. */
module Consent {
  import opened Prelude
  import opened Cobuying
  import opened ItemLedger
  import opened LedgerRuns

  // --------------------------------------------------------- tokens are personal

  ghost predicate TokensOf(c: Contribution, minted: nat) {
    && c.tokenHash.Sha? && c.tokenHash.raw < minted
    && (c.actionHash == NoDigest || (c.actionHash.Sha? && c.actionHash.raw < minted))
    && c.tokenHash != c.actionHash
  }

  ghost predicate NoSharedToken(c: Contribution, d: Contribution) {
    && c.tokenHash != d.tokenHash
    && c.tokenHash != d.actionHash
    && c.actionHash != d.tokenHash
    && (c.actionHash != NoDigest ==> c.actionHash != d.actionHash)
  }

  /** No token opens two pledges. */
  ghost predicate TokensPersonal(l: Ledger) {
    var rows := l.cobuy.contributions;
    && (forall id :: id in rows ==> TokensOf(rows[id], l.minted))
    && (forall a, b :: a in rows && b in rows && a != b ==> NoSharedToken(rows[a], rows[b]))
  }

  lemma PledgeKeepsTokens(l: Ledger, pledged: int, contact: string)
    requires TokensPersonal(l)
    ensures TokensPersonal(Pledge(l, pledged, contact))
  {
  }

  lemma ProposalKeepsTokens(l: Ledger, price: int, at: Time, expiry: Option<Time>, tokens: map<Id, Token>)
    requires TokensPersonal(l) && FreshTokens(l, tokens)
    ensures TokensPersonal(ProposeIfCovered(l, price, at, expiry, tokens))
  {
    if Covered(l.cobuy, price) {
      var l' := ProposeIfCovered(l, price, at, expiry, tokens);
      var rows, rows' := l.cobuy.contributions, l'.cobuy.contributions;
      forall id | id in rows' ensures TokensOf(rows'[id], l'.minted) {
        assert TokensOf(rows[id], l.minted);
        ProposedTokens(l.cobuy, l.minted, at, expiry, tokens, id);
      }
      forall a, b | a in rows' && b in rows' && a != b ensures NoSharedToken(rows'[a], rows'[b]) {
        assert NoSharedToken(rows[a], rows[b]);
        assert TokensOf(rows[a], l.minted) && TokensOf(rows[b], l.minted);
        ProposedTokens(l.cobuy, l.minted, at, expiry, tokens, a);
        ProposedTokens(l.cobuy, l.minted, at, expiry, tokens, b);
      }
    }
  }

  lemma ContributeKeepsTokens(
    l: Ledger, pledged: int, contact: string, price: int, at: Time, expiry: Option<Time>, tokens: map<Id, Token>)
    requires TokensPersonal(l) && FreshTokens(Pledge(l, pledged, contact), tokens)
    ensures TokensPersonal(Contribute(l, pledged, contact, price, at, expiry, tokens))
  {
    PledgeKeepsTokens(l, pledged, contact);
    ProposalKeepsTokens(Pledge(l, pledged, contact), price, at, expiry, tokens);
  }

  lemma ProposedTokens(s: Cobuy, mid: Id, at: Time, expiry: Option<Time>, tokens: map<Id, Token>, id: Id)
    requires PendingIds(s) <= tokens.Keys && id in s.contributions
    ensures var c, c' := s.contributions[id], Propose(s, mid, at, expiry, tokens).contributions[id];
            && c'.tokenHash == c.tokenHash
            && c'.actionHash == if c.status == Pending then Sha(tokens[id]) else c.actionHash
  {
  }

  /** Every other step only clears tokens. */
  ghost predicate TokensOnlyCleared(s: Cobuy, s': Cobuy) {
    forall id :: id in s'.contributions ==>
      && id in s.contributions
      && s'.contributions[id].tokenHash == s.contributions[id].tokenHash
      && s'.contributions[id].actionHash in {NoDigest, s.contributions[id].actionHash}
  }

  lemma ClearingKeepsTokens(l: Ledger, l': Ledger)
    requires TokensPersonal(l) && TokensOnlyCleared(l.cobuy, l'.cobuy) && l.minted <= l'.minted
    ensures TokensPersonal(l')
  {
    var rows, rows' := l.cobuy.contributions, l'.cobuy.contributions;
    forall a, b | a in rows' && b in rows' && a != b ensures NoSharedToken(rows'[a], rows'[b]) {
      assert NoSharedToken(rows[a], rows[b]);
    }
  }

  lemma OtherStepsClearTokens(w: World, step: Step)
    requires Enabled(w, step) && !step.ContributeStep? && !step.PledgeStep? && !step.LateProposeStep?
    ensures TokensOnlyCleared(w.ledger.cobuy, NextLedger(w, step).cobuy)
  {
    var s := w.ledger.cobuy;
    match step
    case ConfirmStep(cid, _, mid) => ConfirmClearsTokens(s, cid, mid);
    case DeclineStep(cid, raw, mid, at) =>
      ActorLinked(s, cid, raw, mid, at);
      DeclineClearsTokens(s, cid, mid);
    case WithdrawStep(cid, _) => WithdrawClearsTokens(s, cid);
    case _ =>
  }

  lemma ConfirmClearsTokens(s: Cobuy, cid: Id, mid: Id)
    ensures TokensOnlyCleared(s, Confirm(s, cid, mid))
  {
  }

  lemma DeclineClearsTokens(s: Cobuy, cid: Id, mid: Id)
    requires cid in s.contributions && mid in s.matches
    ensures TokensOnlyCleared(s, Decline(s, cid, mid))
  {
  }

  lemma WithdrawClearsTokens(s: Cobuy, cid: Id)
    requires cid in s.contributions
    ensures TokensOnlyCleared(s, Withdraw(s, cid))
  {
  }

  lemma StepKeepsTokens(w: World, step: Step)
    requires LedgerOk(w.ledger) && TokensPersonal(w.ledger) && Enabled(w, step)
    ensures TokensPersonal(NextLedger(w, step))
  {
    var l := w.ledger;
    match step
    case ContributeStep(pledged, contact, price, at, expiry, tokens) =>
      ContributeKeepsTokens(l, pledged, contact, price, at, expiry, tokens);
    case PledgeStep(pledged, contact, _) => PledgeKeepsTokens(l, pledged, contact);
    case LateProposeStep(price, at, expiry, tokens) => ProposalKeepsTokens(l, price, at, expiry, tokens);
    case _ => ClearingStepKeepsTokens(w, step);
  }

  lemma ClearingStepKeepsTokens(w: World, step: Step)
    requires LedgerOk(w.ledger) && TokensPersonal(w.ledger) && Enabled(w, step)
    requires !step.ContributeStep? && !step.PledgeStep? && !step.LateProposeStep?
    ensures TokensPersonal(NextLedger(w, step))
  {
    StepKeepsLedger(w, step);
    OtherStepsClearTokens(w, step);
    ClearingKeepsTokens(w.ledger, NextLedger(w, step));
  }

  /** In every reachable state a token opens at most one pledge, as its capability or
      as its match-action token. */
  lemma {:induction false} ReachableTokensPersonal(ws: seq<World>, steps: seq<Step>, n: nat)
    requires Run(ws, steps) && n < |ws|
    ensures TokensPersonal(ws[n].ledger)
  {
    if n > 0 {
      ReachableTokensPersonal(ws, steps, n - 1);
      RunKeepsLedger(ws, steps, n - 1);
      StepKeepsTokens(ws[n - 1], steps[n - 1]);
    }
  }

  // ------------------------------------------------------------------- consent

  /** Step `k` is a confirm of this very match by this pledge, with a token that was
      authenticated at step `j`: the pledge was then linked to the match, and the token its
      capability or its match-action token, not yet expired. */
  ghost predicate Consented(ws: seq<World>, steps: seq<Step>, j: nat, k: nat, cid: Id, mid: Id)
    requires Run(ws, steps)
  {
    && j < k < |steps|
    && steps[k].ConfirmStep? && steps[k].cid == cid && steps[k].mid == mid
    && Confirmable(ws[k].ledger.cobuy, cid, mid)
    && steps[j].AuthenticateStep? && steps[j].cid == cid && steps[j].mid == mid && steps[j].raw == steps[k].raw
    && cid in ws[j].ledger.cobuy.contributions
    && Admits(ws[j].ledger.cobuy.contributions[cid], steps[k].raw, mid, steps[j].at)
  }

  lemma {:induction false} AuthenticatedEarlier(ws: seq<World>, steps: seq<Step>, n: nat, cid: Id, raw: Token, mid: Id)
    returns (j: nat)
    requires Run(ws, steps) && n < |ws| && (cid, raw, mid) in ws[n].past.authenticated
    ensures j < n && steps[j].AuthenticateStep?
    ensures steps[j].cid == cid && steps[j].raw == raw && steps[j].mid == mid
  {
    var step := steps[n - 1];
    if step.AuthenticateStep? && (step.cid, step.raw, step.mid) == (cid, raw, mid) {
      j := n - 1;
    } else {
      assert (cid, raw, mid) in ws[n - 1].past.authenticated;
      j := AuthenticatedEarlier(ws, steps, n - 1, cid, raw, mid);
    }
  }

  /** Only a confirm makes a pledge confirmed. */
  lemma ConfirmedByConfirmOnly(w: World, step: Step, cid: Id, mid: Id)
    requires Enabled(w, step) && ConfirmedIn(NextLedger(w, step).cobuy, cid, mid)
    ensures var s := w.ledger.cobuy;
            || ConfirmedIn(s, cid, mid)
            || (step.ConfirmStep? && step.cid == cid && step.mid == mid && Confirmable(s, cid, mid))
  {
    if step.ConfirmStep? {
      ConfirmConfirmsOne(w.ledger.cobuy, step.cid, step.mid, cid, mid);
    } else {
      OtherStepsConfirmNone(w, step, cid, mid);
    }
  }

  lemma ConfirmConfirmsOne(s: Cobuy, actor: Id, acted: Id, cid: Id, mid: Id)
    requires ConfirmedIn(Confirm(s, actor, acted), cid, mid)
    ensures ConfirmedIn(s, cid, mid) || (actor == cid && acted == mid && Confirmable(s, cid, mid))
  {
  }

  lemma OtherStepsConfirmNone(w: World, step: Step, cid: Id, mid: Id)
    requires Enabled(w, step) && !step.ConfirmStep? && ConfirmedIn(NextLedger(w, step).cobuy, cid, mid)
    ensures ConfirmedIn(w.ledger.cobuy, cid, mid)
  {
    var s := w.ledger.cobuy;
    match step
    case DeclineStep(actor, raw, acted, at) =>
      ActorLinked(s, actor, raw, acted, at);
      DeclineConfirmsNone(s, actor, acted, cid, mid);
    case WithdrawStep(actor, _) => WithdrawConfirmsNone(s, actor, cid, mid);
    case _ =>
  }

  lemma DeclineConfirmsNone(s: Cobuy, actor: Id, acted: Id, cid: Id, mid: Id)
    requires actor in s.contributions && acted in s.matches && ConfirmedIn(Decline(s, actor, acted), cid, mid)
    ensures ConfirmedIn(s, cid, mid)
  {
  }

  lemma WithdrawConfirmsNone(s: Cobuy, actor: Id, cid: Id, mid: Id)
    requires actor in s.contributions && ConfirmedIn(Withdraw(s, actor), cid, mid)
    ensures ConfirmedIn(s, cid, mid)
  {
  }

  predicate ConfirmedIn(s: Cobuy, cid: Id, mid: Id) {
    cid in Linked(s, mid) && s.contributions[cid].status == Confirmed
  }

  predicate CompletedIn(s: Cobuy, mid: Id) {
    mid in s.matches && s.matches[mid].state == BothConfirmed
  }

  /** A fact that holds at the end and not at the start became true at some step. */
  lemma {:induction false} FirstRise(history: seq<bool>) returns (i: nat)
    requires |history| > 0 && history[|history| - 1]
    ensures history[0] || (i + 1 < |history| && !history[i] && history[i + 1])
  {
    i := |history| - 1;
    if i > 0 {
      if history[i - 1] {
        i := FirstRise(history[..i]);
      } else {
        i := i - 1;
      }
    }
  }

  lemma ConfirmedBefore(ws: seq<World>, steps: seq<Step>, n: nat, cid: Id, mid: Id)
    requires Run(ws, steps) && n < |ws|
    requires ConfirmedIn(ws[n].ledger.cobuy, cid, mid)
    ensures n > 0
    ensures var s, step := ws[n - 1].ledger.cobuy, steps[n - 1];
            || ConfirmedIn(s, cid, mid)
            || (step.ConfirmStep? && step.cid == cid && step.mid == mid && Confirmable(s, cid, mid)
                && (cid, step.raw, mid) in ws[n - 1].past.authenticated)
  {
    ConfirmedByConfirmOnly(ws[n - 1], steps[n - 1], cid, mid);
  }

  lemma ConsentOf(ws: seq<World>, steps: seq<Step>, k: nat, cid: Id, mid: Id) returns (j: nat)
    requires Run(ws, steps) && k < |steps|
    requires steps[k].ConfirmStep? && steps[k].cid == cid && steps[k].mid == mid
    requires Confirmable(ws[k].ledger.cobuy, cid, mid)
    requires (cid, steps[k].raw, mid) in ws[k].past.authenticated
    ensures Consented(ws, steps, j, k, cid, mid)
  {
    j := AuthenticatedEarlier(ws, steps, k, cid, steps[k].raw, mid);
    assert Enabled(ws[j], steps[j]);
    ActorLinked(ws[j].ledger.cobuy, cid, steps[k].raw, mid, steps[j].at);
  }

  lemma ConfirmedHasConsented(ws: seq<World>, steps: seq<Step>, n: nat, cid: Id, mid: Id) returns (j: nat, k: nat)
    requires Run(ws, steps) && n < |ws|
    requires ConfirmedIn(ws[n].ledger.cobuy, cid, mid)
    ensures k < n && Consented(ws, steps, j, k, cid, mid)
  {
    var history := seq(n + 1, i requires 0 <= i <= n => ConfirmedIn(ws[i].ledger.cobuy, cid, mid));
    k := FirstRise(history);
    ConfirmedBefore(ws, steps, k + 1, cid, mid);
    j := ConsentOf(ws, steps, k, cid, mid);
  }

  /** Unanimous consent: whenever a contact of a match leaves the system, every member
      of that match has confirmed that same match with its own token. */
  lemma DisclosureNeedsEveryConsent(ws: seq<World>, steps: seq<Step>, n: nat, mid: Id, cid: Id) returns (j: nat, k: nat)
    requires Run(ws, steps) && n < |steps| && Discloses(ws[n], steps[n], mid)
    requires mid in ws[n].ledger.cobuy.matches && cid in ws[n].ledger.cobuy.matches[mid].members
    ensures k <= n && Consented(ws, steps, j, k, cid, mid)
  {
    var s := ws[n].ledger.cobuy;
    RunKeepsLedger(ws, steps, n);
    MatchMeaning(s, mid);
    if steps[n].ConfirmStep? && steps[n].cid == cid {
      k := n;
      j := ConsentOf(ws, steps, k, cid, mid);
    } else {
      assert ConfirmedIn(s, cid, mid);
      j, k := ConfirmedHasConsented(ws, steps, n, cid, mid);
    }
  }

  /** A match completes, and its reveal emails go out, at most once. */
  lemma CompletesOnce(ws: seq<World>, steps: seq<Step>, i: nat, j: nat, mid: Id)
    requires Run(ws, steps) && i < j < |steps|
    requires steps[i].ConfirmStep? && steps[i].mid == mid && Completes(ws[i].ledger.cobuy, steps[i].cid, mid)
    ensures !(steps[j].ConfirmStep? && steps[j].mid == mid && Completes(ws[j].ledger.cobuy, steps[j].cid, mid))
  {
    assert ws[i + 1].ledger.cobuy.matches[mid].state == BothConfirmed;
    NothingRevived(ws, steps, i + 1, j);
  }

  /** A completed match was completed by one confirm. */
  lemma CompletedByAConfirm(ws: seq<World>, steps: seq<Step>, n: nat, mid: Id) returns (i: nat)
    requires Run(ws, steps) && n < |ws| && CompletedIn(ws[n].ledger.cobuy, mid)
    ensures i < n && steps[i].ConfirmStep? && steps[i].mid == mid && Completes(ws[i].ledger.cobuy, steps[i].cid, mid)
  {
    var history := seq(n + 1, k requires 0 <= k <= n => CompletedIn(ws[k].ledger.cobuy, mid));
    i := FirstRise(history);
    CompletedBefore(ws, steps, i + 1, mid);
  }

  lemma CompletedBefore(ws: seq<World>, steps: seq<Step>, n: nat, mid: Id)
    requires Run(ws, steps) && n < |ws| && CompletedIn(ws[n].ledger.cobuy, mid)
    ensures n > 0
    ensures var s, step := ws[n - 1].ledger.cobuy, steps[n - 1];
            CompletedIn(s, mid) || (step.ConfirmStep? && step.mid == mid && Completes(s, step.cid, mid))
  {
    RunKeepsLedger(ws, steps, n - 1);
    if !CompletedIn(ws[n - 1].ledger.cobuy, mid) {
      CompletingStep(ws[n - 1], steps[n - 1], mid);
    }
  }

  lemma CompletingStep(w: World, step: Step, mid: Id)
    requires LedgerOk(w.ledger) && Enabled(w, step)
    requires CompletedIn(NextLedger(w, step).cobuy, mid) && !CompletedIn(w.ledger.cobuy, mid)
    ensures step.ConfirmStep? && step.mid == mid && Completes(w.ledger.cobuy, step.cid, mid)
  {
  }
}
