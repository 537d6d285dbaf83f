/** Personal access tokens: the cap on active ones, revocation, and the last-used time
    written by compare and set. Clock readings need not come in lock order. */
module AccessTokens {
  import opened Prelude
  import opened Decay

  datatype AccessToken = AccessToken(
    user: Id, expiresAt: Option<Time>, lastUsedAt: Option<Time>, revokedAt: Option<Time>)

  type Tokens = map<Id, AccessToken>

  /** Usable at an instant: not revoked and not past its expiry. */
  predicate ActiveAt(t: AccessToken, now: Time) {
    t.revokedAt.None? && (t.expiresAt.None? || now < t.expiresAt.value)
  }

  function Active(tokens: Tokens, user: Id, now: Time): set<Id> {
    set id | id in tokens && tokens[id].user == user && ActiveAt(tokens[id], now)
  }

  function Revoked(tokens: Tokens, user: Id, ids: set<Id>, at: Time): Tokens {
    map id | id in tokens ::
      var t := tokens[id];
      if id in ids && t.user == user && t.revokedAt.None? then t.(revokedAt := Some(at)) else t
  }

  /** The time a touch would write, given what it read: None when it is too soon. */
  predicate Touches(prev: Option<Time>, at: Time, minInterval: int) {
    prev.None? || Sub(at, prev.value) >= minInterval
  }

  /** The conditional write: only over the value that was read. */
  function Touched(tokens: Tokens, id: Id, prev: Option<Time>, at: Time): Tokens {
    if id in tokens && tokens[id].lastUsedAt == prev then tokens[id := tokens[id].(lastUsedAt := Some(at))] else tokens
  }

  datatype RevokeResult = NotFound | AlreadyRevoked | NowRevoked

  class TokenStore {
    var tokens: Tokens
    var minted: Id

    ghost predicate Valid()
      reads this
    {
      forall id :: id in tokens ==> id < minted
    }

    constructor ()
      ensures Valid() && tokens == map[]
    {
      tokens, minted := map[], 0;
    }

    /** Count the user's active tokens, then insert, under the user's lock. */
    method Create(user: Id, expiresAt: Option<Time>, maxActive: int, now: Time) returns (id: Option<Id>)
      requires Valid()
      modifies this
      ensures Valid() && minted == old(minted) + 1
      ensures id.Some? <==> |Active(old(tokens), user, now)| < maxActive
      ensures id.Some? ==>
                id.value == old(minted) && tokens == old(tokens)[id.value := AccessToken(user, expiresAt, None, None)]
      ensures id.None? ==> tokens == old(tokens)
    {
      minted := minted + 1;
      var active := 0;
      var todo := set id | id in tokens && tokens[id].user == user;
      ghost var counted: set<Id> := {};
      while todo != {}
        invariant active == |counted| && counted !! todo
        invariant forall id :: id in Active(tokens, user, now) ==> id in counted || id in todo
        invariant counted <= Active(tokens, user, now)
        invariant todo <= tokens.Keys && forall id :: id in todo ==> tokens[id].user == user
        decreases todo
      {
        var k :| k in todo;
        todo := todo - {k};
        if ActiveAt(tokens[k], now) {
          active := active + 1;
          counted := counted + {k};
        }
      }
      assert counted == Active(tokens, user, now);
      if active >= maxActive {
        return None;
      }
      tokens := tokens[minted - 1 := AccessToken(user, expiresAt, None, None)];
      return Some(minted - 1);
    }

    /** One account never revokes another's token, and a revocation is never re-dated. */
    method Revoke(user: Id, id: Id, at: Time) returns (r: RevokeResult)
      requires Valid()
      modifies this`tokens
      ensures Valid() && tokens == Revoked(old(tokens), user, {id}, at)
      ensures r.NotFound? <==> id !in old(tokens) || old(tokens)[id].user != user
      ensures r.NowRevoked? <==> tokens != old(tokens)
      ensures r.NowRevoked? <==> id in old(tokens) && old(tokens)[id].user == user && old(tokens)[id].revokedAt.None?
      ensures !r.NotFound? ==> id in tokens && forall t: Time :: !ActiveAt(tokens[id], t)
    {
      if id in tokens && tokens[id].user == user && tokens[id].revokedAt.None? {
        tokens := tokens[id := tokens[id].(revokedAt := Some(at))];
        return NowRevoked;
      }
      return if id in tokens && tokens[id].user == user then AlreadyRevoked else NotFound;
    }

    method RevokeAllForUser(user: Id, at: Time) returns (n: nat)
      requires Valid()
      modifies this`tokens
      ensures Valid() && tokens == Revoked(old(tokens), user, old(tokens.Keys), at)
      ensures n == |set id | id in old(tokens) && old(tokens)[id].user == user && old(tokens)[id].revokedAt.None?|
      ensures forall t: Time :: Active(tokens, user, t) == {}
    {
      var unrevoked := set id | id in tokens && tokens[id].user == user && tokens[id].revokedAt.None?;
      tokens := map id | id in tokens :: if id in unrevoked then tokens[id].(revokedAt := Some(at)) else tokens[id];
      return |unrevoked|;
    }

    /** A touch nothing else interrupts. */
    method TouchLastUsed(id: Id, at: Time, minInterval: int) returns (wrote: Option<bool>)
      requires Valid()
      modifies this`tokens
      ensures Valid()
      ensures wrote.None? <==> id !in old(tokens)
      ensures wrote == Some(true) <==> id in old(tokens) && Touches(old(tokens)[id].lastUsedAt, at, minInterval)
      ensures id in old(tokens) && MIN_INT64 < minInterval <= MAX_INT64 ==>
                var last := old(tokens)[id].lastUsedAt;
                (wrote == Some(true) <==> last.None? || at - last.value >= minInterval)
      ensures tokens == if wrote == Some(true) then old(tokens)[id := old(tokens)[id].(lastUsedAt := Some(at))]
                        else old(tokens)
    {
      if id !in tokens {
        return None;
      }
      var prev := tokens[id].lastUsedAt;
      if prev.Some? && Sub(at, prev.value) < minInterval {
        return Some(false);
      }
      tokens := tokens[id := tokens[id].(lastUsedAt := Some(at))];
      return Some(true);
    }
  }

  // --------------------------------------------------- runs of concurrent requests

  /** A touch between its read and its write. */
  datatype Touch = Touch(id: Id, at: Time, prev: Option<Time>)

  /** `readings` are the clock readings every creation used, `latest` the one of each
      user's latest creation in lock order, `writes` the times written to each token. */
  datatype World = World(
    tokens: Tokens, minted: Id, touches: map<Id, Touch>, maxActive: nat, minInterval: int,
    readings: set<Time>, latest: map<Id, Time>, writes: map<Id, seq<Time>>)

  datatype Step =
    | Create(user: Id, expiresAt: Option<Time>, now: Time)
    | Revoke(user: Id, id: Id, at: Time)
    | RevokeAll(user: Id, at: Time)
    | TouchRead(id: Id, at: Time)
    | TouchWrite(call: Id)

  ghost function Next(w: World, s: Step): World
  {
    match s
    case Create(user, expiresAt, now) =>
      if |Active(w.tokens, user, now)| >= w.maxActive then w.(readings := w.readings + {now})
      else
        w.(tokens := w.tokens[w.minted := AccessToken(user, expiresAt, None, None)], minted := w.minted + 1,
           readings := w.readings + {now}, latest := w.latest[user := now], writes := w.writes[w.minted := []])
    case Revoke(user, id, at) => w.(tokens := Revoked(w.tokens, user, {id}, at))
    case RevokeAll(user, at) => w.(tokens := Revoked(w.tokens, user, w.tokens.Keys, at))
    case TouchRead(id, at) =>
      if id in w.tokens && Touches(w.tokens[id].lastUsedAt, at, w.minInterval)
      then w.(touches := w.touches[w.minted := Touch(id, at, w.tokens[id].lastUsedAt)], minted := w.minted + 1)
      else w
    case TouchWrite(call) =>
      if call !in w.touches then w
      else
        var t := w.touches[call];
        var writes := if t.id in w.writes then w.writes[t.id] else [];
        w.(tokens := Touched(w.tokens, t.id, t.prev, t.at), touches := w.touches - {call},
           writes := if t.id in w.tokens && w.tokens[t.id].lastUsedAt == t.prev then w.writes[t.id := writes + [t.at]]
                     else w.writes)
  }

  ghost predicate Initial(w: World) {
    && w.tokens == map[] && w.touches == map[] && w.latest == map[] && w.writes == map[]
    && FitsInt64(w.minInterval) && w.minInterval > MIN_INT64
  }

  ghost predicate Run(ws: seq<World>, steps: seq<Step>) {
    && |ws| == |steps| + 1 && Initial(ws[0])
    && forall i :: 0 <= i < |steps| ==> ws[i + 1] == Next(ws[i], steps[i])
  }

  /** Each write is at least the interval later than the one before. */
  ghost predicate Rising(writes: seq<Time>, minInterval: int) {
    forall i :: 0 < i < |writes| ==> writes[i] - writes[i - 1] >= minInterval
  }

  ghost predicate Capped(w: World, user: Id) {
    forall t: Time :: (user in w.latest ==> t >= w.latest[user]) ==> |Active(w.tokens, user, t)| <= w.maxActive
  }

  ghost predicate Recorded(w: World, id: Id) {
    && id in w.writes && Rising(w.writes[id], w.minInterval)
    && (id in w.tokens ==>
          w.tokens[id].lastUsedAt == if w.writes[id] == [] then None else Some(w.writes[id][|w.writes[id]| - 1]))
  }

  ghost predicate Sound(w: World) {
    && FitsInt64(w.minInterval) && w.minInterval > MIN_INT64
    && w.writes.Keys == w.tokens.Keys
    && (forall id :: id in w.tokens ==> id < w.minted && Recorded(w, id))
    && (forall k :: k in w.touches ==> k < w.minted && Touches(w.touches[k].prev, w.touches[k].at, w.minInterval))
    && (forall u :: u in w.latest ==> w.latest[u] in w.readings)
  }

  ghost predicate Good(w: World) {
    Sound(w) && forall u :: Capped(w, u)
  }

  /** A token inactive at an instant is inactive at all later ones. */
  lemma ActiveShrinks(tokens: Tokens, user: Id, now: Time, later: Time)
    requires now <= later
    ensures Active(tokens, user, later) <= Active(tokens, user, now)
    ensures |Active(tokens, user, later)| <= |Active(tokens, user, now)|
  {
    SubsetSize(Active(tokens, user, later), Active(tokens, user, now));
  }

  lemma SubsetSize(a: set<Id>, b: set<Id>)
    requires a <= b
    ensures |a| <= |b|
  {
    assert b == a + (b - a);
  }

  lemma StepKeepsGood(w: World, s: Step)
    requires Good(w)
    ensures Good(Next(w, s))
  {
    StepKeepsSound(w, s);
    forall u ensures Capped(Next(w, s), u) {
      assert Capped(w, u);
      StepKeepsCapped(w, s, u);
    }
  }

  lemma StepKeepsSound(w: World, s: Step)
    requires Sound(w)
    ensures Sound(Next(w, s))
  {
    var w' := Next(w, s);
    forall id | id in w'.tokens ensures id < w'.minted && Recorded(w', id) {
      StepKeepsRecorded(w, s, id);
    }
  }

  lemma StepKeepsCapped(w: World, s: Step, u: Id)
    requires Capped(w, u)
    requires forall id :: id in w.tokens ==> id < w.minted
    ensures Capped(Next(w, s), u)
  {
    var w' := Next(w, s);
    forall t: Time | u in w'.latest ==> t >= w'.latest[u] ensures |Active(w'.tokens, u, t)| <= w'.maxActive {
      if s.Create? && s.user == u && |Active(w.tokens, u, s.now)| < w.maxActive {
        ActiveShrinks(w.tokens, u, s.now, t);
        OneMoreActive(w.tokens, w.minted, AccessToken(u, s.expiresAt, None, None), t);
      } else {
        NoneMoreActive(w, s, u, t);
        SubsetSize(Active(w'.tokens, u, t), Active(w.tokens, u, t));
      }
    }
  }

  lemma OneMoreActive(tokens: Tokens, id: Id, token: AccessToken, t: Time)
    requires id !in tokens
    ensures |Active(tokens[id := token], token.user, t)| <= |Active(tokens, token.user, t)| + 1
  {
    SubsetSize(Active(tokens[id := token], token.user, t), Active(tokens, token.user, t) + {id});
  }

  lemma NoneMoreActive(w: World, s: Step, u: Id, t: Time)
    requires s.Create? && s.user == u ==> |Active(w.tokens, u, s.now)| >= w.maxActive
    requires forall id :: id in w.tokens ==> id < w.minted
    ensures Active(Next(w, s).tokens, u, t) <= Active(w.tokens, u, t)
  {
  }

  lemma StepKeepsRecorded(w: World, s: Step, id: Id)
    requires Sound(w) && id in Next(w, s).tokens
    ensures id < Next(w, s).minted && Recorded(Next(w, s), id)
  {
    if id in w.tokens {
      assert Recorded(w, id);
      if s.TouchWrite? && s.call in w.touches {
        TouchWriteRecords(w, s.call, id);
      }
    }
  }

  lemma TouchWriteRecords(w: World, call: Id, id: Id)
    requires call in w.touches && id in w.tokens && Recorded(w, id) && id < w.minted
    requires FitsInt64(w.minInterval) && w.minInterval > MIN_INT64
    requires Touches(w.touches[call].prev, w.touches[call].at, w.minInterval)
    ensures id < Next(w, TouchWrite(call)).minted && Recorded(Next(w, TouchWrite(call)), id)
  {
    var t := w.touches[call];
    if t.id == id && w.tokens[id].lastUsedAt == t.prev {
      assert Next(w, TouchWrite(call)).writes[id] == w.writes[id] + [t.at];
    }
  }

  lemma {:induction false} RunKeepsGood(ws: seq<World>, steps: seq<Step>, i: nat)
    requires Run(ws, steps) && i < |ws|
    ensures Good(ws[i])
  {
    if i > 0 {
      RunKeepsGood(ws, steps, i - 1);
      StepKeepsGood(ws[i - 1], steps[i - 1]);
    } else {
      forall u, t: Time ensures |Active(ws[0].tokens, u, t)| == 0 {
        assert Active(ws[0].tokens, u, t) == {};
      }
    }
  }

  /** A user never has more active tokens than the cap, at any instant from the clock
      reading of their latest creation on; so in particular at any instant no earlier
      than all the readings used. */
  lemma ActiveNeverExceedsCap(ws: seq<World>, steps: seq<Step>, i: nat, user: Id, t: Time)
    requires Run(ws, steps) && i < |ws|
    ensures (user in ws[i].latest ==> t >= ws[i].latest[user]) ==> |Active(ws[i].tokens, user, t)| <= ws[i].maxActive
    ensures (forall r :: r in ws[i].readings ==> t >= r) ==> |Active(ws[i].tokens, user, t)| <= ws[i].maxActive
  {
    RunKeepsGood(ws, steps, i);
    assert Capped(ws[i], user);
  }

  /** Before that reading the cap can be passed: with a cap of one, a token that expires at
      10 and another created at 10 are both active at 9. */
  lemma CapOnlyFromLatestCreation(user: Id) returns (ws: seq<World>, steps: seq<Step>)
    ensures Run(ws, steps) && |steps| == 2 && ws[2].maxActive == 1
    ensures |Active(ws[2].tokens, user, 9)| == 2 && user in ws[2].latest && ws[2].latest[user] == 10
  {
    var w := World(map[], 0, map[], 1, 0, {}, map[], map[]);
    var s, s' := Create(user, Some(10), 5), Create(user, None, 10);
    var w' := Next(w, s);
    assert Active(w.tokens, user, 5) == {};
    assert Active(w'.tokens, user, 10) == {};
    ws, steps := [w, w', Next(w', s')], [s, s'];
    assert Active(ws[2].tokens, user, 9) == {0, 1};
  }

  /** Whatever touches interleave, every last-used time written to a token is at least the
      interval after the one written before it, and the stored one is the last. */
  lemma LastUsedRises(ws: seq<World>, steps: seq<Step>, i: nat, id: Id)
    requires Run(ws, steps) && i < |ws| && id in ws[i].tokens
    ensures id in ws[i].writes && Rising(ws[i].writes[id], ws[i].minInterval)
    ensures ws[i].tokens[id].lastUsedAt ==
              if ws[i].writes[id] == [] then None else Some(ws[i].writes[id][|ws[i].writes[id]| - 1])
  {
    RunKeepsGood(ws, steps, i);
    assert Recorded(ws[i], id);
  }

  /** A token that is revoked or expired at an instant never works again from then on. */
  lemma {:induction false} NeverActiveAgain(
    ws: seq<World>, steps: seq<Step>, i: nat, j: nat, id: Id, t: Time, later: Time)
    requires Run(ws, steps) && i <= j < |ws| && id in ws[i].tokens && !ActiveAt(ws[i].tokens[id], t) && t <= later
    ensures id in ws[j].tokens && !ActiveAt(ws[j].tokens[id], later)
    ensures ws[i].tokens[id].revokedAt.Some? ==> ws[j].tokens[id].revokedAt == ws[i].tokens[id].revokedAt
    ensures ws[j].tokens[id].user == ws[i].tokens[id].user && ws[j].tokens[id].expiresAt == ws[i].tokens[id].expiresAt
    decreases j - i
  {
    if i < j {
      NeverActiveAgain(ws, steps, i, j - 1, id, t, later);
      RunOnToken(ws, steps, j - 1, id);
    }
  }

  lemma RunOnToken(ws: seq<World>, steps: seq<Step>, k: nat, id: Id)
    requires Run(ws, steps) && k < |steps| && id in ws[k].tokens
    ensures id in ws[k + 1].tokens
    ensures var t, t' := ws[k].tokens[id], ws[k + 1].tokens[id];
            && (t.revokedAt.Some? ==> t'.revokedAt == t.revokedAt)
            && t'.user == t.user && t'.expiresAt == t.expiresAt
  {
    RunKeepsGood(ws, steps, k);
    StepOnToken(ws[k], steps[k], id);
  }

  lemma StepOnToken(w: World, s: Step, id: Id)
    requires Sound(w) && id in w.tokens
    ensures var w' := Next(w, s);
            && id in w'.tokens
            && (w.tokens[id].revokedAt.Some? ==> w'.tokens[id].revokedAt == w.tokens[id].revokedAt)
            && w'.tokens[id].user == w.tokens[id].user && w'.tokens[id].expiresAt == w.tokens[id].expiresAt
  {
  }

  /** A token works from its creation until its expiry, or for ever if it has none, as long
      as its user revokes neither it nor all of them. */
  lemma {:induction false} TokenLifetime(ws: seq<World>, steps: seq<Step>, i: nat, j: nat, t: Time)
    requires Run(ws, steps) && i < j < |ws| && steps[i].Create? && ws[i].minted in ws[i + 1].tokens
    requires forall k :: i < k < j ==> !Ends(steps[k], steps[i].user, ws[i].minted)
    ensures ws[i].minted in ws[j].tokens
    ensures var token := ws[j].tokens[ws[i].minted];
            && token.user == steps[i].user && token.expiresAt == steps[i].expiresAt && token.revokedAt.None?
            && (ActiveAt(token, t) <==> steps[i].expiresAt.None? || t < steps[i].expiresAt.value)
    decreases j
  {
    if j == i + 1 {
      RunKeepsGood(ws, steps, i);
      assert ws[i].minted !in ws[i].tokens;
    } else {
      TokenLifetime(ws, steps, i, j - 1, t);
      RunKeepsGood(ws, steps, j - 1);
      RunOnToken(ws, steps, j - 1, ws[i].minted);
      StillUnrevoked(ws[j - 1], steps[j - 1], ws[i].minted);
    }
  }

  predicate Ends(s: Step, user: Id, id: Id) {
    (s.Revoke? && s.user == user && s.id == id) || (s.RevokeAll? && s.user == user)
  }

  lemma StillUnrevoked(w: World, s: Step, id: Id)
    requires id in w.tokens && w.tokens[id].revokedAt.None? && !Ends(s, w.tokens[id].user, id) && id < w.minted
    ensures id in Next(w, s).tokens && Next(w, s).tokens[id].revokedAt.None?
  {
  }

  /** A revocation ends exactly the tokens it names, at every instant. */
  lemma RevocationEnds(w: World, s: Step, id: Id, t: Time)
    requires id in w.tokens && (s.Revoke? || s.RevokeAll?)
    ensures id in Next(w, s).tokens
    ensures if Ends(s, w.tokens[id].user, id) then !ActiveAt(Next(w, s).tokens[id], t)
            else Next(w, s).tokens[id] == w.tokens[id]
  {
  }

  /** A touch that nothing overtakes is written if and only if the token was never used or
      not within the interval. */
  lemma TouchWritesIff(w: World, id: Id, at: Time)
    requires Sound(w) && id in w.tokens
    ensures var last, w' := w.tokens[id].lastUsedAt, Next(Next(w, TouchRead(id, at)), TouchWrite(w.minted));
            && id in w'.tokens
            && w'.tokens[id].lastUsedAt ==
               if last.None? || at - last.value >= w.minInterval then Some(at) else last
  {
  }
}
