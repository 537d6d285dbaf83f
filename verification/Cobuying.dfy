/** The co-buying track of one item: pledges, and the matches that group them.
    Each function is one atomic storage operation or handler; the lemmas say what
    every one of them keeps. */
module Cobuying {
  import opened Prelude

  datatype PledgeStatus = Pending | Matched | Confirmed | Declined | Withdrawn | PledgeExpired
  datatype MatchState = Proposed | BothConfirmed | Done | MatchDeclined | MatchExpired

  datatype Contribution = Contribution(
    pledged: int, contact: string, status: PledgeStatus, matchId: Option<Id>,
    tokenHash: Digest, actionHash: Digest, actionExpiry: Option<Time>)

  datatype Match = Match(state: MatchState, members: set<Id>, createdAt: Time)

  datatype Cobuy = Cobuy(contributions: map<Id, Contribution>, matches: map<Id, Match>)

  /** A match needs at least this many parties. */
  const MIN_MATCH_CONTRIBUTIONS := 2

  /** Pending, matched and confirmed pledges hold the item; the rest are terminal. */
  predicate Live(c: Contribution) {
    c.status in {Pending, Matched, Confirmed}
  }

  predicate LiveMatch(m: Match) {
    m.state in {Proposed, BothConfirmed}
  }

  function LiveIds(s: Cobuy): set<Id> {
    set id | id in s.contributions && Live(s.contributions[id])
  }

  function PendingIds(s: Cobuy): set<Id> {
    set id | id in s.contributions && s.contributions[id].status == Pending
  }

  function Linked(s: Cobuy, mid: Id): set<Id> {
    set id | id in s.contributions && s.contributions[id].matchId == Some(mid)
  }

  /** The pledged-amount column restricted to some rows. */
  function Pledges(s: Cobuy, ids: set<Id>): map<Id, int> {
    map id | id in ids && id in s.contributions :: s.contributions[id].pledged
  }

  ghost function Funded(s: Cobuy): int {
    Total(Pledges(s, LiveIds(s)))
  }

  // ---------------------------------------------------------------- operations

  function NewPledge(pledged: int, contact: string, tokenHash: Digest): Contribution {
    Contribution(pledged, contact, Pending, None, tokenHash, NoDigest, None)
  }

  function Insert(s: Cobuy, id: Id, c: Contribution): Cobuy {
    s.(contributions := s.contributions[id := c])
  }

  /** Whether the pending pledges cover the price, as the int64 loop computes it. */
  ghost predicate Covered(s: Cobuy, price: int) {
    |PendingIds(s)| >= MIN_MATCH_CONTRIBUTIONS && Wrap64(Total(Pledges(s, PendingIds(s)))) >= price
  }

  /** Creating a match stamps every pending pledge matched and gives it a
      match-action token. */
  function Propose(s: Cobuy, mid: Id, at: Time, expiry: Option<Time>, tokens: map<Id, Token>): Cobuy
    requires PendingIds(s) <= tokens.Keys
  {
    Cobuy(
      map id | id in s.contributions ::
        if id in PendingIds(s)
        then s.contributions[id].(status := Matched, matchId := Some(mid),
                                  actionHash := Sha(tokens[id]), actionExpiry := expiry)
        else s.contributions[id],
      s.matches[mid := Match(Proposed, PendingIds(s), at)])
  }

  /** The members other than the excepted one go back to pending, unlinked, and
      the match is declined. */
  function Dissolve(s: Cobuy, mid: Id, except: Id): Cobuy
    requires mid in s.matches
  {
    Cobuy(
      map id | id in s.contributions ::
        if id in s.matches[mid].members && id != except
        then s.contributions[id].(status := Pending, matchId := None, actionHash := NoDigest, actionExpiry := None)
        else s.contributions[id],
      s.matches[mid := s.matches[mid].(state := MatchDeclined)])
  }

  function DeclinedRow(c: Contribution): Contribution {
    c.(status := Declined, actionHash := NoDigest, actionExpiry := None)
  }

  function Decline(s: Cobuy, cid: Id, mid: Id): Cobuy
    requires cid in s.contributions && mid in s.matches
  {
    Dissolve(s.(contributions := s.contributions[cid := DeclinedRow(s.contributions[cid])]), mid, cid)
  }

  /** A pledge in a completed match can no longer be withdrawn. */
  predicate WithdrawRefused(s: Cobuy, cid: Id)
    requires cid in s.contributions
  {
    var link := s.contributions[cid].matchId;
    link.Some? && link.value in s.matches && s.matches[link.value].state in {BothConfirmed, Done}
  }

  function Withdraw(s: Cobuy, cid: Id): Cobuy
    requires cid in s.contributions
  {
    if WithdrawRefused(s, cid) then s
    else
      var link := s.contributions[cid].matchId;
      var freed :=
        if link.Some? && link.value in s.matches && s.matches[link.value].state == Proposed
        then Dissolve(s, link.value, cid) else s;
      freed.(contributions := freed.contributions - {cid})
  }

  /** The confirm transition under the item lock: a pledge that is still linked to a
      still-proposed match becomes confirmed. */
  predicate Confirmable(s: Cobuy, cid: Id, mid: Id) {
    mid in s.matches && s.matches[mid].state == Proposed && cid in Linked(s, mid)
  }

  function MarkConfirmed(s: Cobuy, cid: Id): Cobuy
    requires cid in s.contributions
  {
    s.(contributions := s.contributions[cid := s.contributions[cid].(status := Confirmed)])
  }

  predicate Completes(s: Cobuy, cid: Id, mid: Id) {
    Confirmable(s, cid, mid) &&
    forall id :: id in Linked(s, mid) && id != cid ==> s.contributions[id].status == Confirmed
  }

  /** Completing clears the spent match-action tokens. */
  function Complete(s: Cobuy, mid: Id): Cobuy
    requires mid in s.matches
  {
    Cobuy(
      map id | id in s.contributions ::
        if id in Linked(s, mid) then s.contributions[id].(actionHash := NoDigest, actionExpiry := None)
        else s.contributions[id],
      s.matches[mid := s.matches[mid].(state := BothConfirmed)])
  }

  function Confirm(s: Cobuy, cid: Id, mid: Id): Cobuy {
    if !Confirmable(s, cid, mid) then s
    else if Completes(s, cid, mid) then Complete(MarkConfirmed(s, cid), mid)
    else MarkConfirmed(s, cid)
  }

  /** The auto-expiry of a still-proposed match takes its pledges with it. */
  function ExpireIfProposed(s: Cobuy, mid: Id): Cobuy {
    if mid !in s.matches || s.matches[mid].state != Proposed then s
    else
      Cobuy(
        map id | id in s.contributions ::
          if id in Linked(s, mid)
          then s.contributions[id].(status := PledgeExpired, actionHash := NoDigest, actionExpiry := None)
          else s.contributions[id],
        s.matches[mid := s.matches[mid].(state := MatchExpired)])
  }

  /** The matches still proposed when their confirm window has passed; a non-positive
      window never passes. */
  function OverdueMatches(s: Cobuy, now: Time, window: int): set<Id> {
    set mid | mid in s.matches && window > 0 &&
              s.matches[mid].state == Proposed && s.matches[mid].createdAt < now - window
  }

  /** A non-positive window means the emailed links never expire. */
  function ExpiryOf(window: int, at: Time): Option<Time> {
    if window > 0 then Some(at + window) else None
  }

  /** Expiring several matches at once. */
  function ExpireAll(s: Cobuy, mids: set<Id>): Cobuy {
    Cobuy(
      map id | id in s.contributions ::
        if s.contributions[id].matchId.Some? && s.contributions[id].matchId.value in mids
        then s.contributions[id].(status := PledgeExpired, actionHash := NoDigest, actionExpiry := None)
        else s.contributions[id],
      map mid | mid in s.matches :: if mid in mids then s.matches[mid].(state := MatchExpired) else s.matches[mid])
  }

  /** Expiring one more match. */
  lemma ExpireOneMore(s: Cobuy, mids: set<Id>, mid: Id)
    requires mid in s.matches && mid !in mids && s.matches[mid].state == Proposed
    ensures ExpireIfProposed(ExpireAll(s, mids), mid) == ExpireAll(s, mids + {mid})
  {
    var one, all := ExpireIfProposed(ExpireAll(s, mids), mid), ExpireAll(s, mids + {mid});
    assert one.matches == all.matches;
    assert one.contributions == all.contributions;
  }

  // ------------------------------------------------------------ authentication

  datatype ActorResult = Actor(cid: Id) | Unauthorized | NotInMatch | ActionTokenExpired

  predicate HoldsCapability(s: Cobuy, cid: Id, raw: Token) {
    cid in s.contributions && s.contributions[cid].tokenHash == Sha(raw)
  }

  predicate HoldsAction(s: Cobuy, cid: Id, raw: Token) {
    cid in s.contributions && s.contributions[cid].actionHash == Sha(raw)
  }

  /** A match action is authenticated by the capability token of a member, or else
      by the unexpired match-action token of one. */
  ghost predicate Authenticates(s: Cobuy, raw: Token, mid: Id, now: Time, r: ActorResult) {
    if exists id :: HoldsCapability(s, id, raw) then
      exists id :: HoldsCapability(s, id, raw) &&
                   r == if s.contributions[id].matchId == Some(mid) then Actor(id) else NotInMatch
    else if exists id :: HoldsAction(s, id, raw) then
      exists id :: HoldsAction(s, id, raw) &&
                   r == if s.contributions[id].matchId != Some(mid) then NotInMatch
                        else if s.contributions[id].actionExpiry.Some? && now >= s.contributions[id].actionExpiry.value
                        then ActionTokenExpired
                        else Actor(id)
    else r == Unauthorized
  }

  /** A token is a pledge's own: its capability, or its match-action token. */
  predicate Holds(c: Contribution, raw: Token) {
    c.tokenHash == Sha(raw) || c.actionHash == Sha(raw)
  }

  /** The token lets its pledge act in a match: the pledge is linked to it, and a
      match-action token works until the instant it expires. */
  predicate Admits(c: Contribution, raw: Token, mid: Id, now: Time) {
    && c.matchId == Some(mid)
    && (c.tokenHash == Sha(raw) ||
        (c.actionHash == Sha(raw) && (c.actionExpiry.None? || now < c.actionExpiry.value)))
  }

  // ----------------------------------------------------------------- invariant

  ghost predicate PledgeOk(s: Cobuy, id: Id)
    requires id in s.contributions
  {
    var c := s.contributions[id];
    && c.pledged > 0
    && (c.status == Pending <==> c.matchId.None?)
    && c.status != Withdrawn
    && (c.matchId.Some? ==>
          && c.matchId.value in s.matches
          && id in s.matches[c.matchId.value].members
          && match s.matches[c.matchId.value].state {
               case Proposed => c.status in {Matched, Confirmed}
               case BothConfirmed => c.status == Confirmed
               case Done => false
               case MatchDeclined => c.status == Declined
               case MatchExpired => c.status == PledgeExpired
             })
    && (c.actionHash != NoDigest ==> c.matchId.Some? && s.matches[c.matchId.value].state == Proposed)
  }

  ghost predicate MatchOk(s: Cobuy, mid: Id)
    requires mid in s.matches
  {
    var m := s.matches[mid];
    && |m.members| >= MIN_MATCH_CONTRIBUTIONS
    && m.state != Done
    && (LiveMatch(m) ==> forall id :: id in m.members ==>
          id in s.contributions && s.contributions[id].matchId == Some(mid))
    && (m.state == Proposed ==> exists id :: id in m.members && s.contributions[id].status == Matched)
  }

  /** Pledge rows and match rows agree. */
  ghost predicate Consistent(s: Cobuy) {
    && (forall id :: id in s.contributions ==> PledgeOk(s, id))
    && (forall mid :: mid in s.matches ==> MatchOk(s, mid))
  }

  /** What consistency gives a reader of a match row. */
  lemma MatchMeaning(s: Cobuy, mid: Id)
    requires Consistent(s) && mid in s.matches
    ensures s.matches[mid].state == Proposed ==>
              && |s.matches[mid].members| >= 2
              && s.matches[mid].members == Linked(s, mid)
              && (forall id :: id in s.matches[mid].members ==> s.contributions[id].status in {Matched, Confirmed})
              && (exists id :: id in s.matches[mid].members && s.contributions[id].status != Confirmed)
    ensures s.matches[mid].state == BothConfirmed ==>
              && s.matches[mid].members == Linked(s, mid)
              && (forall id :: id in s.matches[mid].members ==> s.contributions[id].status == Confirmed)
    ensures s.matches[mid].state !in {Proposed, BothConfirmed} ==>
              forall id :: id in Linked(s, mid) ==> !Live(s.contributions[id])
  {
    assert MatchOk(s, mid);
    forall id | id in Linked(s, mid)
      ensures id in s.matches[mid].members
    {
      assert PledgeOk(s, id);
    }
  }

  // -------------------------------------------------- every operation keeps it

  /** What an operation that never adds a pledge may do to the pledge rows: it
      revives nothing and changes no amount. */
  ghost predicate NoRevival(s: Cobuy, s': Cobuy) {
    && s'.contributions.Keys <= s.contributions.Keys
    && (forall id :: id in s'.contributions ==>
          && s'.contributions[id].pledged == s.contributions[id].pledged
          && s'.contributions[id].contact == s.contributions[id].contact
          && s'.contributions[id].tokenHash == s.contributions[id].tokenHash
          && (!Live(s.contributions[id]) ==> s'.contributions[id].status == s.contributions[id].status))
  }

  /** Match rows are never deleted, keep their members, and leave the proposed state
      for good. */
  ghost predicate MatchesAdvance(s: Cobuy, s': Cobuy) {
    forall mid :: mid in s.matches ==>
      && mid in s'.matches
      && s'.matches[mid].members == s.matches[mid].members
      && s'.matches[mid].createdAt == s.matches[mid].createdAt
      && (s.matches[mid].state != Proposed ==> s'.matches[mid].state == s.matches[mid].state)
  }

  lemma InsertKeeps(s: Cobuy, id: Id, pledged: int, contact: string, tokenHash: Digest)
    requires Consistent(s) && pledged > 0
    requires id !in s.contributions && (forall mid :: mid in s.matches ==> id !in s.matches[mid].members)
    ensures var s' := Insert(s, id, NewPledge(pledged, contact, tokenHash));
            && Consistent(s')
            && LiveIds(s') == LiveIds(s) + {id}
            && Funded(s') == Funded(s) + pledged
  {
    var s' := Insert(s, id, NewPledge(pledged, contact, tokenHash));
    forall j | j in s'.contributions ensures PledgeOk(s', j) {
      assert j != id ==> PledgeOk(s, j);
    }
    forall mid | mid in s'.matches ensures MatchOk(s', mid) {
      assert MatchOk(s, mid);
    }
    InsertFunds(s, id, NewPledge(pledged, contact, tokenHash));
  }

  lemma InsertFunds(s: Cobuy, id: Id, c: Contribution)
    requires id !in s.contributions && Live(c)
    ensures var s' := Insert(s, id, c);
            LiveIds(s') == LiveIds(s) + {id} && Funded(s') == Funded(s) + c.pledged
  {
    var s' := Insert(s, id, c);
    TotalInsert(Pledges(s, LiveIds(s)), id, c.pledged);
    assert Pledges(s', LiveIds(s')) == Pledges(s, LiveIds(s))[id := c.pledged];
  }

  lemma ProposeKeeps(s: Cobuy, mid: Id, at: Time, expiry: Option<Time>, tokens: map<Id, Token>)
    requires Consistent(s) && PendingIds(s) <= tokens.Keys && mid !in s.matches
    requires |PendingIds(s)| >= MIN_MATCH_CONTRIBUTIONS
    ensures var s' := Propose(s, mid, at, expiry, tokens);
            Consistent(s') && NoRevival(s, s') && MatchesAdvance(s, s') && LiveIds(s') == LiveIds(s)
  {
    var s' := Propose(s, mid, at, expiry, tokens);
    forall id | id in s'.contributions ensures PledgeOk(s', id) {
      ProposedPledge(s, mid, at, expiry, tokens, id);
    }
    forall m | m in s'.matches ensures MatchOk(s', m) {
      ProposedMatch(s, mid, at, expiry, tokens, m);
    }
    ProposedLive(s, mid, at, expiry, tokens);
  }

  lemma ProposedLive(s: Cobuy, mid: Id, at: Time, expiry: Option<Time>, tokens: map<Id, Token>)
    requires PendingIds(s) <= tokens.Keys && mid !in s.matches
    ensures var s' := Propose(s, mid, at, expiry, tokens);
            NoRevival(s, s') && MatchesAdvance(s, s') && LiveIds(s') == LiveIds(s)
  {
  }

  lemma ProposedPledge(s: Cobuy, mid: Id, at: Time, expiry: Option<Time>, tokens: map<Id, Token>, id: Id)
    requires PendingIds(s) <= tokens.Keys && mid !in s.matches
    requires id in s.contributions && PledgeOk(s, id)
    ensures PledgeOk(Propose(s, mid, at, expiry, tokens), id)
  {
  }

  lemma ProposedMatch(s: Cobuy, mid: Id, at: Time, expiry: Option<Time>, tokens: map<Id, Token>, m: Id)
    requires PendingIds(s) <= tokens.Keys && mid !in s.matches && |PendingIds(s)| >= MIN_MATCH_CONTRIBUTIONS
    requires forall id :: id in s.contributions ==> PledgeOk(s, id)
    requires m == mid || (m in s.matches && MatchOk(s, m))
    ensures MatchOk(Propose(s, mid, at, expiry, tokens), m)
  {
    var s' := Propose(s, mid, at, expiry, tokens);
    if m == mid {
      var first :| first in PendingIds(s);
      assert s'.contributions[first].status == Matched;
    } else {
      forall id | id in s.contributions && s.contributions[id].matchId == Some(m)
        ensures s'.contributions[id] == s.contributions[id]
      {
        assert PledgeOk(s, id);
      }
      MatchUntouched(s, s', m);
    }
  }

  /** A match row survives a step that touches neither it nor its members. */
  lemma MatchUntouched(s: Cobuy, s': Cobuy, m: Id)
    requires m in s.matches && m in s'.matches && s'.matches[m] == s.matches[m] && MatchOk(s, m)
    requires forall id :: id in s.contributions && s.contributions[id].matchId == Some(m) ==>
               id in s'.contributions && s'.contributions[id] == s.contributions[id]
    ensures MatchOk(s', m)
  {
    if s.matches[m].state == Proposed {
      var open :| open in s.matches[m].members && s.contributions[open].status == Matched;
      assert s'.contributions[open].status == Matched;
    }
  }

  /** Dissolving a proposed match, whatever state the caller leaves the excepted pledge
      in, keeps all other rows in order and every pledge live that was. */
  lemma DissolveKeeps(s: Cobuy, mid: Id, except: Id)
    requires mid in s.matches && s.matches[mid].state == Proposed
    requires forall id :: id in s.contributions && id != except ==> PledgeOk(s, id)
    requires forall m :: m in s.matches && m != mid ==> MatchOk(s, m)
    requires MatchMembersLinked(s, mid)
    requires except in s.contributions ==> s.contributions[except].matchId == Some(mid)
    ensures var s' := Dissolve(s, mid, except);
            && NoRevival(s, s') && MatchesAdvance(s, s')
            && (forall id :: id in s'.contributions && id != except ==> PledgeOk(s', id))
            && (forall m :: m in s'.matches ==> MatchOk(s', m))
            && LiveIds(s') == LiveIds(s)
  {
    var s' := Dissolve(s, mid, except);
    forall id | id in s'.contributions && id != except ensures PledgeOk(s', id) {
      DissolvedPledge(s, mid, except, id);
    }
    forall m | m in s'.matches ensures MatchOk(s', m) {
      DissolvedMatch(s, mid, except, m);
    }
    forall id | id in s.contributions && id in s.matches[mid].members && id != except
      ensures Live(s.contributions[id])
    {
      assert PledgeOk(s, id);
    }
    DissolvedLive(s, mid, except);
  }

  lemma DissolvedPledge(s: Cobuy, mid: Id, except: Id, id: Id)
    requires mid in s.matches && s.matches[mid].state == Proposed && MatchMembersLinked(s, mid)
    requires id in s.contributions && id != except && PledgeOk(s, id)
    ensures PledgeOk(Dissolve(s, mid, except), id)
  {
  }

  lemma DissolvedMatch(s: Cobuy, mid: Id, except: Id, m: Id)
    requires mid in s.matches && MatchMembersLinked(s, mid) && m in s.matches && (m != mid ==> MatchOk(s, m))
    ensures MatchOk(Dissolve(s, mid, except), m)
  {
    if m != mid {
      MatchUntouched(s, Dissolve(s, mid, except), m);
    }
  }

  lemma DissolvedLive(s: Cobuy, mid: Id, except: Id)
    requires mid in s.matches && s.matches[mid].state == Proposed
    requires forall id :: id in s.contributions && id in s.matches[mid].members && id != except ==>
               Live(s.contributions[id])
    ensures var s' := Dissolve(s, mid, except);
            NoRevival(s, s') && MatchesAdvance(s, s') && LiveIds(s') == LiveIds(s)
  {
  }

  ghost predicate MatchMembersLinked(s: Cobuy, mid: Id)
    requires mid in s.matches
  {
    && |s.matches[mid].members| >= MIN_MATCH_CONTRIBUTIONS
    && forall id :: id in s.matches[mid].members ==> id in s.contributions && s.contributions[id].matchId == Some(mid)
  }

  lemma DeclineKeeps(s: Cobuy, cid: Id, mid: Id)
    requires Consistent(s) && Confirmable(s, cid, mid)
    ensures var s' := Decline(s, cid, mid);
            Consistent(s') && NoRevival(s, s') && MatchesAdvance(s, s') && LiveIds(s') == LiveIds(s) - {cid}
  {
    assert PledgeOk(s, cid) && MatchOk(s, mid);
    var c := DeclinedRow(s.contributions[cid]);
    var t := s.(contributions := s.contributions[cid := c]);
    forall id | id in t.contributions && id != cid ensures PledgeOk(t, id) {
      assert PledgeOk(s, id);
    }
    forall m | m in t.matches && m != mid ensures MatchOk(t, m) {
      MatchUntouched(s, t, m);
    }
    DissolveKeeps(t, mid, cid);
    assert PledgeOk(Dissolve(t, mid, cid), cid);
    DeclinerLeaves(s, t, Dissolve(t, mid, cid), cid);
  }

  lemma DeclinerLeaves(s: Cobuy, t: Cobuy, s': Cobuy, cid: Id)
    requires cid in s.contributions && Live(s.contributions[cid]) && s.matches == t.matches
    requires t.contributions == s.contributions[cid := DeclinedRow(s.contributions[cid])]
    requires NoRevival(t, s') && LiveIds(s') == LiveIds(t)
    ensures NoRevival(s, s') && LiveIds(s') == LiveIds(s) - {cid}
  {
  }

  /** What a decline leaves: the decliner declined; every other member still there, pending
      and unlinked, free for another match; and no match-action token of any of them. */
  lemma DeclineEffect(s: Cobuy, cid: Id, mid: Id)
    requires Consistent(s) && mid in s.matches && s.matches[mid].state == Proposed && cid in s.matches[mid].members
    ensures var s', members := Decline(s, cid, mid), s.matches[mid].members;
            && members <= s'.contributions.Keys && cid in members
            && s'.matches[mid].state == MatchDeclined && s'.contributions[cid].status == Declined
            && Linked(s', mid) == {cid}
            && (forall id :: id in members ==> s'.contributions[id].actionHash == NoDigest)
            && (forall id :: id in members - {cid} ==>
                  s'.contributions[id].status == Pending && s'.contributions[id].matchId.None?)
            && (forall id :: id in s.contributions && id !in members ==> s'.contributions[id] == s.contributions[id])
  {
    MatchMeaning(s, mid);
  }

  /** A withdrawal is refused, and then changes nothing, if and only if the pledge is in a
      completed match; in every other case the pledge is gone. */
  lemma WithdrawalRefusedIff(s: Cobuy, cid: Id)
    requires Consistent(s) && cid in s.contributions
    ensures cid in Withdraw(s, cid).contributions <==>
              exists mid :: mid in s.matches && s.matches[mid].state == BothConfirmed && cid in s.matches[mid].members
    ensures cid in Withdraw(s, cid).contributions ==> Withdraw(s, cid) == s
    ensures cid in Withdraw(s, cid).contributions <==> WithdrawRefused(s, cid)
  {
    assert PledgeOk(s, cid);
    if mid :| mid in s.matches && s.matches[mid].state == BothConfirmed && cid in s.matches[mid].members {
      assert MatchOk(s, mid);
    }
  }

  /** What a withdrawal does to the others: if the pledge was in a proposed match, that is
      declined and each other member is pending, unlinked and without match-action token;
      every row outside that match stays as it was. */
  lemma WithdrawEffect(s: Cobuy, cid: Id)
    requires Consistent(s) && cid in s.contributions && cid !in Withdraw(s, cid).contributions
    ensures var s' := Withdraw(s, cid);
            && s'.contributions.Keys == s.contributions.Keys - {cid}
            && (forall mid :: mid in s.matches ==>
                  var left := s.matches[mid].state == Proposed && cid in s.matches[mid].members;
                  && s'.matches[mid] == (if left then s.matches[mid].(state := MatchDeclined) else s.matches[mid])
                  && (left ==> forall id :: id in s.matches[mid].members - {cid} ==>
                        && id in s'.contributions && s'.contributions[id].status == Pending
                        && s'.contributions[id].matchId.None? && s'.contributions[id].actionHash == NoDigest))
            && (forall id :: id in s'.contributions && s.contributions[id].matchId != s.contributions[cid].matchId ==>
                  s'.contributions[id] == s.contributions[id])
  {
    assert PledgeOk(s, cid);
    var link := s.contributions[cid].matchId;
    if link.Some? {
      MatchMeaning(s, link.value);
    }
    forall mid | mid in s.matches && s.matches[mid].state == Proposed && cid in s.matches[mid].members
      ensures link == Some(mid)
    {
      MatchMeaning(s, mid);
    }
  }

  lemma WithdrawKeeps(s: Cobuy, cid: Id)
    requires Consistent(s) && cid in s.contributions
    ensures var s' := Withdraw(s, cid);
            && Consistent(s') && NoRevival(s, s') && MatchesAdvance(s, s')
            && LiveIds(s') == if WithdrawRefused(s, cid) then LiveIds(s) else LiveIds(s) - {cid}
  {
    assert PledgeOk(s, cid);
    if !WithdrawRefused(s, cid) {
      var link := s.contributions[cid].matchId;
      if link.Some? && s.matches[link.value].state == Proposed {
        assert MatchOk(s, link.value);
        var t := Dissolve(s, link.value, cid);
        DissolveKeeps(s, link.value, cid);
        RemoveKeeps(t, cid);
        NoRevivalTransitive(s, t, t.(contributions := t.contributions - {cid}));
      } else {
        RemoveKeeps(s, cid);
      }
    }
  }

  /** A pledge whose match is not live can go. */
  lemma RemoveKeeps(s: Cobuy, cid: Id)
    requires cid in s.contributions && forall id :: id in s.contributions && id != cid ==> PledgeOk(s, id)
    requires forall m :: m in s.matches ==> MatchOk(s, m)
    requires var link := s.contributions[cid].matchId;
             link.Some? ==> link.value in s.matches && !LiveMatch(s.matches[link.value])
    ensures var s' := s.(contributions := s.contributions - {cid});
            Consistent(s') && NoRevival(s, s') && LiveIds(s') == LiveIds(s) - {cid}
  {
    var s' := s.(contributions := s.contributions - {cid});
    forall id | id in s'.contributions ensures PledgeOk(s', id) {
      assert PledgeOk(s, id);
    }
    forall m | m in s'.matches ensures MatchOk(s', m) {
      assert MatchOk(s, m);
      assert LiveMatch(s.matches[m]) ==> cid !in s.matches[m].members;
    }
  }

  lemma NoRevivalTransitive(s: Cobuy, t: Cobuy, u: Cobuy)
    requires NoRevival(s, t) && NoRevival(t, u)
    requires forall id :: id in u.contributions ==> !Live(s.contributions[id]) ==> !Live(t.contributions[id])
    ensures NoRevival(s, u)
  {
  }

  lemma ConfirmKeeps(s: Cobuy, cid: Id, mid: Id)
    requires Consistent(s)
    ensures Consistent(Confirm(s, cid, mid))
  {
    if Confirmable(s, cid, mid) {
      assert PledgeOk(s, cid);
      if Completes(s, cid, mid) {
        CompletingConfirmKeeps(s, cid, mid);
      } else {
        PartialConfirmKeeps(s, cid, mid);
      }
    }
  }

  lemma ConfirmEffect(s: Cobuy, cid: Id, mid: Id)
    requires Consistent(s)
    ensures var s' := Confirm(s, cid, mid);
            NoRevival(s, s') && MatchesAdvance(s, s') && LiveIds(s') == LiveIds(s)
  {
    if Confirmable(s, cid, mid) {
      assert PledgeOk(s, cid);
      ConfirmedRows(s, cid, mid);
    }
  }

  /** What a confirm does: a member of a proposed match is confirmed, and the match is
      complete, its tokens spent, exactly when every other member had confirmed. Any other
      confirm changes nothing, and none touches a row outside the match. */
  lemma ConfirmProgress(s: Cobuy, cid: Id, mid: Id)
    requires Consistent(s)
    ensures var s', open := Confirm(s, cid, mid),
                mid in s.matches && s.matches[mid].state == Proposed && cid in s.matches[mid].members;
            if !open then s' == s
            else
              var members := s.matches[mid].members;
              var last := forall id :: id in members && id != cid ==> s.contributions[id].status == Confirmed;
              && members <= s'.contributions.Keys == s.contributions.Keys
              && s'.matches == s.matches[mid := s.matches[mid].(state := if last then BothConfirmed else Proposed)]
              && s'.contributions[cid].status == Confirmed
              && (forall id :: id in members - {cid} ==> s'.contributions[id].status == s.contributions[id].status)
              && (last ==> forall id :: id in members ==> s'.contributions[id].actionHash == NoDigest)
              && (forall id :: id in s.contributions && id !in members ==> s'.contributions[id] == s.contributions[id])
  {
    if mid in s.matches {
      MatchMeaning(s, mid);
    }
  }

  lemma ConfirmedRows(s: Cobuy, cid: Id, mid: Id)
    requires Confirmable(s, cid, mid) && s.contributions[cid].status in {Matched, Confirmed}
    ensures var s' := Confirm(s, cid, mid);
            && s'.contributions.Keys == s.contributions.Keys
            && forall id :: id in s.contributions ==> ConfirmedRow(s.contributions[id], s'.contributions[id])
  {
  }

  /** A pledge keeps what it gives and whose it is; only whether it is confirmed, and
      its match-action token, may differ. */
  ghost predicate ConfirmedRow(c: Contribution, c': Contribution) {
    && c'.pledged == c.pledged && c'.contact == c.contact && c'.tokenHash == c.tokenHash
    && (Live(c') <==> Live(c)) && (!Live(c) ==> c'.status == c.status)
  }

  lemma PartialConfirmKeeps(s: Cobuy, cid: Id, mid: Id)
    requires Consistent(s) && Confirmable(s, cid, mid) && !Completes(s, cid, mid)
    requires s.contributions[cid].status in {Matched, Confirmed}
    ensures Consistent(MarkConfirmed(s, cid))
  {
    var s' := MarkConfirmed(s, cid);
    forall id | id in s'.contributions ensures PledgeOk(s', id) {
      assert PledgeOk(s, id);
    }
    forall m | m in s'.matches ensures MatchOk(s', m) {
      assert MatchOk(s, m);
      if m == mid {
        var left :| left in Linked(s, mid) && left != cid && s.contributions[left].status != Confirmed;
        assert PledgeOk(s, left);
        assert s'.contributions[left].status == Matched;
      } else {
        MatchUntouched(s, s', m);
      }
    }
  }

  lemma CompletingConfirmKeeps(s: Cobuy, cid: Id, mid: Id)
    requires Consistent(s) && Completes(s, cid, mid)
    ensures Consistent(Complete(MarkConfirmed(s, cid), mid))
  {
    var s' := Complete(MarkConfirmed(s, cid), mid);
    forall id | id in s'.contributions ensures PledgeOk(s', id) {
      CompletedPledge(s, cid, mid, id);
    }
    forall m | m in s'.matches ensures MatchOk(s', m) {
      assert MatchOk(s, m);
      if m == mid {
        assert s'.matches[m].members == s.matches[m].members;
      } else {
        MatchUntouched(s, s', m);
      }
    }
  }

  lemma CompletedPledge(s: Cobuy, cid: Id, mid: Id, id: Id)
    requires Completes(s, cid, mid) && id in s.contributions && PledgeOk(s, id)
    ensures PledgeOk(Complete(MarkConfirmed(s, cid), mid), id)
  {
    var t := MarkConfirmed(s, cid);
    assert id in Linked(t, mid) <==> id in Linked(s, mid);
  }

  lemma ExpireKeeps(s: Cobuy, mid: Id)
    requires Consistent(s)
    ensures var s' := ExpireIfProposed(s, mid);
            && Consistent(s') && NoRevival(s, s') && MatchesAdvance(s, s')
            && LiveIds(s') == if mid in s.matches && s.matches[mid].state == Proposed
                              then LiveIds(s) - s.matches[mid].members else LiveIds(s)
    ensures ExpireIfProposed(s, mid).matches.Keys == s.matches.Keys
  {
    if mid in s.matches && s.matches[mid].state == Proposed {
      var s' := ExpireIfProposed(s, mid);
      MatchMeaning(s, mid);
      forall id | id in s'.contributions ensures PledgeOk(s', id) {
        ExpiredPledge(s, mid, id);
      }
      forall m | m in s'.matches ensures MatchOk(s', m) {
        ExpiredMatch(s, mid, m);
      }
      ExpiredLive(s, mid);
    }
  }

  lemma ExpiredPledge(s: Cobuy, mid: Id, id: Id)
    requires id in s.contributions && PledgeOk(s, id)
    ensures PledgeOk(ExpireIfProposed(s, mid), id)
  {
  }

  lemma ExpiredMatch(s: Cobuy, mid: Id, m: Id)
    requires m in s.matches && MatchOk(s, m)
    ensures MatchOk(ExpireIfProposed(s, mid), m)
  {
    if m != mid {
      MatchUntouched(s, ExpireIfProposed(s, mid), m);
    }
  }

  lemma ExpiredLive(s: Cobuy, mid: Id)
    requires mid in s.matches && s.matches[mid].state == Proposed && s.matches[mid].members == Linked(s, mid)
    requires forall id :: id in Linked(s, mid) ==> Live(s.contributions[id])
    ensures var s' := ExpireIfProposed(s, mid);
            NoRevival(s, s') && MatchesAdvance(s, s') && LiveIds(s') == LiveIds(s) - s.matches[mid].members
  {
  }

  /** Expiring a match expires it and each of its members, with their tokens, if it is
      still proposed; every other row, and otherwise every row, stays as it was. */
  lemma ExpireEffect(s: Cobuy, mid: Id)
    requires Consistent(s)
    ensures var s' := ExpireIfProposed(s, mid);
            if mid in s.matches && s.matches[mid].state == Proposed then
              var members := s.matches[mid].members;
              && members <= s'.contributions.Keys == s.contributions.Keys
              && s'.matches == s.matches[mid := s.matches[mid].(state := MatchExpired)]
              && forall id :: id in s.contributions ==>
                   var c' := s'.contributions[id];
                   if id in members then c'.status == PledgeExpired && c'.actionHash == NoDigest
                   else c' == s.contributions[id]
            else s' == s
  {
    if mid in s.matches {
      MatchMeaning(s, mid);
    }
  }

  lemma {:induction false} ExpireAllKeeps(s: Cobuy, mids: set<Id>)
    requires Consistent(s)
    requires forall mid :: mid in mids ==> mid in s.matches && s.matches[mid].state == Proposed
    ensures Consistent(ExpireAll(s, mids))
  {
    if mids == {} {
      ExpireNone(s);
    } else {
      var mid :| mid in mids;
      var rest := mids - {mid};
      ExpireAllKeeps(s, rest);
      ExpireOneMoreKeeps(s, rest, mid);
      assert rest + {mid} == mids;
    }
  }

  lemma ExpireNone(s: Cobuy)
    ensures ExpireAll(s, {}) == s
  {
    assert ExpireAll(s, {}).contributions == s.contributions;
    assert ExpireAll(s, {}).matches == s.matches;
  }

  lemma ExpireOneMoreKeeps(s: Cobuy, mids: set<Id>, mid: Id)
    requires mid in s.matches && mid !in mids && s.matches[mid].state == Proposed
    requires Consistent(ExpireAll(s, mids))
    ensures Consistent(ExpireAll(s, mids + {mid}))
  {
    ExpireOneMore(s, mids, mid);
    ExpireKeeps(ExpireAll(s, mids), mid);
  }

  // ------------------------------------------------------------------- funding

  /** Nothing but a new pledge can raise the funded amount. */
  lemma FundedShrinks(s: Cobuy, s': Cobuy)
    requires Consistent(s) && NoRevival(s, s')
    ensures 0 <= Funded(s') <= Funded(s)
  {
    forall id | id in s.contributions ensures s.contributions[id].pledged > 0 {
      assert PledgeOk(s, id);
    }
    TotalOfPart(Pledges(s', LiveIds(s')), Pledges(s, LiveIds(s)));
  }

  /** A proposal whose item is not funded past the price takes in every live pledge,
      and these sum to exactly the price. */
  lemma ExactWhenNotOverfunded(s: Cobuy, price: int)
    requires Consistent(s) && FitsInt64(price) && Covered(s, price)
    requires Funded(s) <= price
    ensures PendingIds(s) == LiveIds(s) && Funded(s) == price
    ensures forall mid :: mid in s.matches ==> !LiveMatch(s.matches[mid])
  {
    var pending, live := Pledges(s, PendingIds(s)), Pledges(s, LiveIds(s));
    forall id | id in s.contributions ensures s.contributions[id].pledged > 0 {
      assert PledgeOk(s, id);
    }
    TotalOfPart(pending, live);
    assert pending == live;
    assert PendingIds(s) == pending.Keys && LiveIds(s) == live.Keys;
    forall mid | mid in s.matches ensures !LiveMatch(s.matches[mid]) {
      LiveMatchHasLivePledge(s, mid);
    }
  }

  lemma LiveMatchHasLivePledge(s: Cobuy, mid: Id)
    requires Consistent(s) && mid in s.matches
    ensures LiveMatch(s.matches[mid]) ==> exists id :: id in LiveIds(s) && id !in PendingIds(s)
  {
    if LiveMatch(s.matches[mid]) {
      assert MatchOk(s, mid);
      var id :| id in s.matches[mid].members;
      assert PledgeOk(s, id);
      assert id in LiveIds(s);
    }
  }

  /** A proposal is exactly funded -- its members are all the item's live pledges and
      sum to the price its request read -- if and only if, when it is made, the item
      is not funded past that price. */
  lemma ProposalExactIff(s: Cobuy, price: int)
    requires Consistent(s) && FitsInt64(price) && Covered(s, price)
    ensures (PendingIds(s) == LiveIds(s) && Total(Pledges(s, PendingIds(s))) == price) <==> Funded(s) <= price
  {
    if Funded(s) <= price {
      ExactWhenNotOverfunded(s, price);
    }
  }
}
