/** Custom-domain claims: adding one (which may take over a stale one), proving control of
    it through DNS, deleting it; and what holds over every run of concurrent requests. */
module Domains {
  import opened Prelude
  import opened Text

  datatype Claim = Claim(tenant: Id, hostname: string, token: string, verified: bool, createdAt: Time)

  type Claims = map<Id, Claim>

  /** The zero instant; every clock reading is later. */
  const ZERO_TIME: Time := -62_135_596_800_000_000_000

  // ------------------------------------------------------------ the stored rows

  /** The instant before which an unverified claim is stale; a time to live that is not
      positive leaves it zero. */
  function ExpiredBefore(ttl: int, now: Time): Time {
    if ttl > 0 then now - ttl else ZERO_TIME
  }

  function ClaimsOn(claims: Claims, hostname: string): set<Id> {
    set id | id in claims && claims[id].hostname == hostname
  }

  predicate Reclaimable(c: Claim, expiredBefore: Time) {
    !c.verified && c.createdAt < expiredBefore
  }

  /** The claims once `claim` is inserted in place of a stale one; None when the hostname
      is taken. */
  function Created(claims: Claims, id: Id, claim: Claim, expiredBefore: Time): Option<Claims> {
    var there := ClaimsOn(claims, claim.hostname);
    if forall k :: k in there ==> Reclaimable(claims[k], expiredBefore)
    then Some((claims - there)[id := claim])
    else None
  }

  function Updated(claims: Claims, tenant: Id, id: Id, verified: bool): Claims {
    if id in claims && claims[id].tenant == tenant then claims[id := claims[id].(verified := verified)] else claims
  }

  function Deleted(claims: Claims, tenant: Id, id: Id): Claims {
    if id in claims && claims[id].tenant == tenant then claims - {id} else claims
  }

  ghost predicate OnePerHostname(claims: Claims) {
    forall a, b :: a in claims && b in claims && claims[a].hostname == claims[b].hostname ==> a == b
  }

  ghost predicate Contains(texts: seq<string>, token: string) {
    exists i :: 0 <= i < |texts| && TrimSpace(texts[i]) == token
  }

  /** Whether a TXT answer carries the token, padding aside. */
  method ContainsToken(texts: seq<string>, token: string) returns (found: bool)
    ensures found <==> Contains(texts, token)
  {
    for i := 0 to |texts|
      invariant forall k :: 0 <= k < i ==> TrimSpace(texts[k]) != token
    {
      if TrimSpace(texts[i]) == token {
        return true;
      }
    }
    return false;
  }

  class Registry {
    var claims: Claims
    var minted: Id
    const ttl: int

    ghost predicate Valid()
      reads this
    {
      OnePerHostname(claims) && forall id :: id in claims ==> id < minted
    }

    constructor (ttl: int)
      ensures Valid() && claims == map[] && this.ttl == ttl
    {
      this.claims, this.minted, this.ttl := map[], 0, ttl;
    }

    /** Look up, reclaim and insert in one transaction; false is a conflict. */
    method CreateReclaimingExpired(claim: Claim, expiredBefore: Time) returns (ok: bool)
      requires Valid()
      modifies this
      ensures Valid() && minted == old(minted) + 1
      ensures var after := Created(old(claims), old(minted), claim, expiredBefore);
              ok == after.Some? && claims == if ok then after.value else old(claims)
    {
      var id := minted;
      minted := minted + 1;
      if k: Id :| k in claims && claims[k].hostname == claim.hostname {
        assert ClaimsOn(claims, claim.hostname) == {k};
        if claims[k].verified || !(claims[k].createdAt < expiredBefore) {
          return false;
        }
        claims := claims - {k};
      } else {
        assert ClaimsOn(claims, claim.hostname) == {};
      }
      claims := claims[id := claim];
      return true;
    }

    method AddDomain(tenant: Id, hostname: string, token: string, now: Time) returns (ok: bool)
      requires Valid()
      modifies this
      ensures Valid() && minted == old(minted) + 1
      ensures var claim := Claim(tenant, hostname, token, false, now);
              var after := Created(old(claims), old(minted), claim, ExpiredBefore(ttl, now));
              ok == after.Some? && claims == if ok then after.value else old(claims)
    {
      var expiredBefore := ZERO_TIME;
      if ttl > 0 {
        expiredBefore := now - ttl;
      }
      ok := CreateReclaimingExpired(Claim(tenant, hostname, token, false, now), expiredBefore);
    }

    method DeleteDomain(tenant: Id, id: Id) returns (found: bool)
      requires Valid()
      modifies this`claims
      ensures Valid()
      ensures claims == Deleted(old(claims), tenant, id)
      ensures found ==> id !in claims
      ensures forall k :: k in old(claims) && (k != id || !found) ==> k in claims && claims[k] == old(claims)[k]
      ensures found <==> id in old(claims) && old(claims)[id].tenant == tenant
    {
      found := id in claims && claims[id].tenant == tenant;
      if found {
        claims := claims - {id};
      }
    }

    method Get(tenant: Id, id: Id) returns (claim: Option<Claim>)
      ensures claim == if id in claims && claims[id].tenant == tenant then Some(claims[id]) else None
    {
      claim := if id in claims && claims[id].tenant == tenant then Some(claims[id]) else None;
    }

    method Update(tenant: Id, id: Id, verified: bool) returns (found: bool)
      requires Valid()
      modifies this`claims
      ensures Valid()
      ensures claims == Updated(old(claims), tenant, id, verified)
      ensures found ==> id in claims && claims[id] == old(claims)[id].(verified := verified)
      ensures found <==> id in old(claims) && old(claims)[id].tenant == tenant
    {
      found := id in claims && claims[id].tenant == tenant;
      if found {
        claims := claims[id := claims[id].(verified := verified)];
      }
    }

    /** A verification nothing else interrupts; `answer` is the DNS lookup's, None for a
        failed one. It is true when the claim is verified afterwards. */
    method VerifyDomain(tenant: Id, id: Id, answer: Option<seq<string>>) returns (verified: bool)
      requires Valid()
      modifies this`claims
      ensures Valid()
      ensures var here := id in old(claims) && old(claims)[id].tenant == tenant;
              && (verified <==>
                    here &&
                    (old(claims)[id].verified || (answer.Some? && Contains(answer.value, old(claims)[id].token))))
              && claims == if here then old(claims)[id := old(claims)[id].(verified := verified)] else old(claims)
    {
      var d := Get(tenant, id);
      if d.None? {
        return false;
      }
      if d.value.verified {
        return true;
      }
      if answer.None? {
        return false;
      }
      var found := ContainsToken(answer.value, d.value.token);
      if found {
        var updated := Update(tenant, id, true);
      }
      return found;
    }
  }

  // --------------------------------------------------- runs of concurrent requests

  /** A TXT answer that a lookup once received. */
  datatype Answer = Answer(hostname: string, texts: seq<string>, at: Time)

  /** A verification in flight: the claim as it was read, and whether the lookup has
      proved control of it. */
  datatype Verification = Verification(id: Id, read: Claim, proved: bool)

  datatype World = World(
    claims: Claims, ttl: int, now: Time, minted: Id,
    calls: map<Id, Verification>, answers: seq<Answer>)

  datatype Step =
    | Add(tenant: Id, hostname: string, token: string)
    | Delete(tenant: Id, id: Id)
    | VerifyGet(tenant: Id, id: Id)
    | VerifyLookup(call: Id, answer: Option<seq<string>>)
    | VerifyUpdate(call: Id)
    | Tick(to: Time)

  ghost function Next(w: World, s: Step): World
  {
    match s
    case Add(tenant, hostname, token) =>
      var claim := Claim(tenant, hostname, token, false, w.now);
      var after := Created(w.claims, w.minted, claim, ExpiredBefore(w.ttl, w.now));
      w.(claims := if after.Some? then after.value else w.claims, minted := w.minted + 1)
    case Delete(tenant, id) => w.(claims := Deleted(w.claims, tenant, id))
    case VerifyGet(tenant, id) =>
      if id in w.claims && w.claims[id].tenant == tenant && !w.claims[id].verified
      then w.(calls := w.calls[w.minted := Verification(id, w.claims[id], false)], minted := w.minted + 1)
      else w
    case VerifyLookup(call, answer) =>
      if call !in w.calls || answer.None? then w
      else
        var v := w.calls[call];
        w.(answers := w.answers + [Answer(v.read.hostname, answer.value, w.now)],
           calls := w.calls[call := v.(proved := v.proved || Contains(answer.value, v.read.token))])
    case VerifyUpdate(call) =>
      if call in w.calls && w.calls[call].proved
      then w.(claims := Updated(w.claims, w.calls[call].read.tenant, w.calls[call].id, true), calls := w.calls - {call})
      else w
    case Tick(to) => w.(now := if to >= w.now then to else w.now)
  }

  ghost predicate Initial(w: World) {
    w.claims == map[] && w.calls == map[] && w.answers == [] && w.now > ZERO_TIME
  }

  ghost predicate Run(ws: seq<World>, steps: seq<Step>) {
    && |ws| == |steps| + 1 && Initial(ws[0])
    && forall i :: 0 <= i < |steps| ==> ws[i + 1] == Next(ws[i], steps[i])
  }

  /** A past answer for the claim's own hostname, no older than the claim, carried the
      claim's own token. */
  ghost predicate Proved(answers: seq<Answer>, c: Claim) {
    exists i ::
      && 0 <= i < |answers| && answers[i].hostname == c.hostname && answers[i].at >= c.createdAt
      && Contains(answers[i].texts, c.token)
  }

  ghost predicate Same(a: Claim, b: Claim) {
    a.(verified := b.verified) == b
  }

  ghost predicate GoodCall(w: World, v: Verification) {
    && v.id < w.minted && v.read.createdAt <= w.now
    && (v.id in w.claims ==> Same(w.claims[v.id], v.read))
    && (v.proved ==> Proved(w.answers, v.read))
  }

  ghost predicate Good(w: World) {
    && OnePerHostname(w.claims) && w.now > ZERO_TIME
    && (forall id :: id in w.claims ==>
          && id < w.minted && ZERO_TIME < w.claims[id].createdAt <= w.now
          && (w.claims[id].verified ==> Proved(w.answers, w.claims[id])))
    && (forall k :: k in w.calls ==> k < w.minted && GoodCall(w, w.calls[k]))
  }

  lemma ProvedStays(answers: seq<Answer>, a: Answer, c: Claim)
    requires Proved(answers, c)
    ensures Proved(answers + [a], c)
  {
    var i :|
      && 0 <= i < |answers| && answers[i].hostname == c.hostname && answers[i].at >= c.createdAt
      && Contains(answers[i].texts, c.token);
    assert (answers + [a])[i] == answers[i];
  }

  lemma ProvedNow(answers: seq<Answer>, a: Answer, c: Claim)
    requires a.hostname == c.hostname && a.at >= c.createdAt && Contains(a.texts, c.token)
    ensures Proved(answers + [a], c)
  {
    assert (answers + [a])[|answers|] == a;
  }

  lemma StepKeepsGood(w: World, s: Step)
    requires Good(w)
    ensures Good(Next(w, s))
  {
    if s.VerifyLookup? && s.call in w.calls && s.answer.Some? {
      LookupKeepsGood(w, s.call, s.answer.value);
    } else if s.VerifyUpdate? && s.call in w.calls {
      UpdateKeepsGood(w, s.call);
    }
  }

  lemma UpdateKeepsGood(w: World, call: Id)
    requires Good(w) && call in w.calls
    ensures Good(Next(w, VerifyUpdate(call)))
  {
    var v := w.calls[call];
    assert GoodCall(w, v);
  }

  lemma LookupKeepsGood(w: World, call: Id, texts: seq<string>)
    requires Good(w) && call in w.calls
    ensures Good(Next(w, VerifyLookup(call, Some(texts))))
  {
    var w' := Next(w, VerifyLookup(call, Some(texts)));
    var a := Answer(w.calls[call].read.hostname, texts, w.now);
    forall id | id in w.claims && w.claims[id].verified ensures Proved(w'.answers, w.claims[id]) {
      ProvedStays(w.answers, a, w.claims[id]);
    }
    forall k | k in w'.calls ensures k < w'.minted && GoodCall(w', w'.calls[k]) {
      assert GoodCall(w, w.calls[k]);
      if w.calls[k].proved {
        ProvedStays(w.answers, a, w.calls[k].read);
      } else if w'.calls[k].proved {
        ProvedNow(w.answers, a, w.calls[k].read);
      }
    }
  }

  lemma {:induction false} RunKeepsGood(ws: seq<World>, steps: seq<Step>, i: nat)
    requires Run(ws, steps) && i < |ws|
    ensures Good(ws[i])
  {
    if i > 0 {
      RunKeepsGood(ws, steps, i - 1);
      StepKeepsGood(ws[i - 1], steps[i - 1]);
    }
  }

  /** In every reachable state a hostname has at most one claim, and a verified claim was
      proved by an answer for its own hostname carrying its own token. */
  lemma ReachableClaims(ws: seq<World>, steps: seq<Step>, i: nat)
    requires Run(ws, steps) && i < |ws|
    ensures OnePerHostname(ws[i].claims)
    ensures forall id :: id in ws[i].claims && ws[i].claims[id].verified ==> Proved(ws[i].answers, ws[i].claims[id])
  {
    RunKeepsGood(ws, steps, i);
  }

  /** A claim the time to live allows to be taken over now. */
  ghost predicate Stale(w: World, c: Claim) {
    !c.verified && w.ttl > 0 && c.createdAt + w.ttl < w.now
  }

  /** A new claim gets the hostname if and only if whatever claims it is stale, and it is
      then alone on it. */
  lemma AddTakesHostnameIff(w: World, tenant: Id, hostname: string, token: string)
    requires Good(w)
    ensures var w' := Next(w, Add(tenant, hostname, token));
            && (w.minted in w'.claims <==> forall id :: id in ClaimsOn(w.claims, hostname) ==> Stale(w, w.claims[id]))
            && (w.minted in w'.claims ==>
                  ClaimsOn(w'.claims, hostname) == {w.minted} &&
                  w'.claims[w.minted] == Claim(tenant, hostname, token, false, w.now))
            && (w.minted !in w'.claims ==> w'.claims == w.claims)
  {
  }

  /** What any step does to a claim: it keeps its owner, hostname, token and age, never
      loses its verification, and goes only by its own tenant's delete or, when stale,
      by a new claim on its hostname. */
  lemma StepOnClaim(w: World, s: Step, id: Id)
    requires Good(w) && id in w.claims
    ensures var w', c := Next(w, s), w.claims[id];
            && w'.ttl == w.ttl && w'.now >= w.now
            && (id in w'.claims ==> Same(w'.claims[id], c) && (c.verified ==> w'.claims[id].verified))
            && (id !in w'.claims ==> s == Delete(c.tenant, id) || (s.Add? && s.hostname == c.hostname && Stale(w, c)))
  {
  }

  /** A tenant's delete takes its own claim away and no other. */
  lemma DeleteTakesOwn(w: World, tenant: Id, id: Id)
    ensures Next(w, Delete(tenant, id)).claims ==
              map k | k in w.claims && (k != id || w.claims[k].tenant != tenant) :: w.claims[k]
  {
  }

  /** A verification that nothing overtakes verifies the claim if and only if the answer
      has a text that is the claim's token, padding aside. */
  lemma VerificationWorksIff(w: World, tenant: Id, id: Id, texts: seq<string>)
    requires Good(w) && id in w.claims && w.claims[id].tenant == tenant && !w.claims[id].verified
    ensures var read := Next(w, VerifyGet(tenant, id));
            var asked := Next(read, VerifyLookup(w.minted, Some(texts)));
            var w' := Next(asked, VerifyUpdate(w.minted));
            && id in w'.claims
            && (w'.claims[id].verified <==>
                  exists i :: 0 <= i < |texts| && TrimSpace(texts[i]) == w.claims[id].token)
  {
  }

  /** A claim that its own tenant does not delete stays: for ever once verified; until its
      time to live has passed, or for ever if there is none, when it is not. */
  lemma {:induction false} ClaimStays(ws: seq<World>, steps: seq<Step>, i: nat, j: nat, id: Id)
    requires Run(ws, steps) && i <= j < |ws| && id in ws[i].claims
    requires forall k :: i <= k < j ==> steps[k] != Delete(ws[i].claims[id].tenant, id)
    requires var c := ws[i].claims[id]; c.verified || ws[i].ttl <= 0 || ws[j].now <= c.createdAt + ws[i].ttl
    ensures id in ws[j].claims && Same(ws[j].claims[id], ws[i].claims[id])
    ensures ws[i].claims[id].verified ==> ws[j].claims[id].verified
    ensures ws[j].ttl == ws[i].ttl
    decreases j - i
  {
    if i < j {
      RunKeepsGood(ws, steps, j - 1);
      assert ws[j] == Next(ws[j - 1], steps[j - 1]);
      TimeMovesOn(ws[j - 1], steps[j - 1]);
      ClaimStays(ws, steps, i, j - 1, id);
      StepOnClaim(ws[j - 1], steps[j - 1], id);
    }
  }

  lemma TimeMovesOn(w: World, s: Step)
    ensures Next(w, s).now >= w.now && Next(w, s).ttl == w.ttl
  {
  }
}
