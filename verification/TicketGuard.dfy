/** One-time sign-in tickets: a guard that forgets a consumed ticket once it has expired,
    against the record of every presentation. */
module TicketGuard {
  import opened Prelude

  /** A ticket presented: its expiry is checked at one reading of the clock and it is
      consumed, when that check passes, at another. */
  datatype Presentation = Presentation(jti: string, exp: Time, checkedAt: Time, consumedAt: Time, accepted: bool)

  ghost predicate AcceptedIn(log: seq<Presentation>, jti: string) {
    exists i :: 0 <= i < |log| && log[i].jti == jti && log[i].accepted
  }

  /** Tickets are signed: one jti always comes with the same expiry. */
  ghost predicate Signed(log: seq<Presentation>) {
    forall i, j :: 0 <= i < j < |log| && log[i].jti == log[j].jti ==> log[i].exp == log[j].exp
  }

  /** What the guard answers, told from the record alone: an unexpired ticket is accepted
      when it never was before, and again if it expires between the two readings. */
  ghost predicate Answered(log: seq<Presentation>) {
    forall i :: 0 <= i < |log| ==>
      (log[i].accepted <==>
         log[i].checkedAt < log[i].exp && (!AcceptedIn(log[..i], log[i].jti) || log[i].exp <= log[i].consumedAt))
  }

  /** What is kept was accepted, and what was accepted is kept while unexpired. */
  ghost predicate Remembers(used: map<string, Time>, clock: Time, log: seq<Presentation>) {
    && (forall jti :: jti in used ==> AcceptedIn(log, jti))
    && (forall i :: 0 <= i < |log| && log[i].jti in used ==> used[log[i].jti] == log[i].exp)
    && (forall i :: 0 <= i < |log| && log[i].accepted && log[i].exp > clock ==> log[i].jti in used)
  }

  /** What is left of the record at an instant. */
  function Evicted(used: map<string, Time>, now: Time): map<string, Time> {
    map k | k in used && used[k] > now :: used[k]
  }

  class Guard {
    var used: map<string, Time>
    ghost var clock: Time
    ghost var log: seq<Presentation>

    ghost predicate Valid()
      reads this
    {
      Remembers(used, clock, log) && Signed(log) && Answered(log)
    }

    constructor (now: Time)
      ensures Valid() && used == map[] && log == [] && clock == now
    {
      used, clock, log := map[], now, [];
    }

    /** Evict what has expired, then record the ticket or reject it. */
    method Consume(jti: string, exp: Time, now: Time) returns (first: bool)
      modifies this`used
      ensures first <==> !(jti in old(used) && old(used)[jti] > now)
      ensures used == if first then Evicted(old(used), now)[jti := exp] else Evicted(old(used), now)
    {
      var todo := used.Keys;
      while todo != {}
        invariant todo <= used.Keys <= old(used).Keys
        invariant forall k :: k in used ==> used[k] == old(used)[k] && (k in todo || used[k] > now)
        invariant forall k :: k in old(used) && k !in used ==> old(used)[k] <= now
        decreases todo
      {
        var k :| k in todo;
        todo := todo - {k};
        if used[k] <= now {
          used := used - {k};
        }
      }
      assert used == Evicted(old(used), now);
      if jti in used {
        return false;
      }
      used := used[jti := exp];
      return true;
    }

    /** One presentation. It is accepted as a guard that never forgets would accept it,
        except that a ticket expiring between the two readings passes again; and after an
        acceptance within its life only unexpired tickets are kept. */
    method Complete(jti: string, exp: Time, checkedAt: Time, consumedAt: Time) returns (accepted: bool)
      requires Valid() && clock <= consumedAt && checkedAt <= consumedAt
      requires forall i :: 0 <= i < |log| && log[i].jti == jti ==> log[i].exp == exp
      modifies this
      ensures Valid()
      ensures log == old(log) + [Presentation(jti, exp, checkedAt, consumedAt, accepted)]
      ensures accepted <==> checkedAt < exp && (!AcceptedIn(old(log), jti) || exp <= consumedAt)
      ensures accepted && consumedAt < exp ==> forall k :: k in used ==> used[k] > consumedAt
    {
      ghost var record, was := log, used;
      if checkedAt < exp {
        SeenIff(used, clock, log, jti, exp, consumedAt);
        EvictedRemembers(used, clock, log, consumedAt);
        accepted := Consume(jti, exp, consumedAt);
        clock, was := consumedAt, Evicted(was, consumedAt);
      } else {
        accepted := false;
      }
      ghost var p := Presentation(jti, exp, checkedAt, consumedAt, accepted);
      assert used == if accepted then was[jti := exp] else was;
      log := log + [p];
      RemembersWith(was, clock, record, p);
      SignedWith(record, p);
      AnsweredWith(record, p);
    }
  }

  lemma SeenIff(used: map<string, Time>, clock: Time, log: seq<Presentation>, jti: string, exp: Time, now: Time)
    requires Remembers(used, clock, log) && clock <= now
    requires forall i :: 0 <= i < |log| && log[i].jti == jti ==> log[i].exp == exp
    ensures jti in used && used[jti] > now <==> AcceptedIn(log, jti) && exp > now
  {
  }

  lemma EvictedRemembers(used: map<string, Time>, clock: Time, log: seq<Presentation>, now: Time)
    requires Remembers(used, clock, log) && clock <= now
    ensures Remembers(Evicted(used, now), now, log)
  {
  }

  lemma RemembersWith(used: map<string, Time>, clock: Time, log: seq<Presentation>, p: Presentation)
    requires Remembers(used, clock, log)
    requires forall i :: 0 <= i < |log| && log[i].jti == p.jti ==> log[i].exp == p.exp
    ensures Remembers(if p.accepted then used[p.jti := p.exp] else used, clock, log + [p])
  {
    var used', log' := if p.accepted then used[p.jti := p.exp] else used, log + [p];
    forall jti | jti in used' ensures AcceptedIn(log', jti) {
      MoreAccepted(log, p, jti);
    }
    assert forall i :: 0 <= i < |log'| ==> log'[i] == if i < |log| then log[i] else p;
    forall i | 0 <= i < |log'| && log'[i].jti in used' ensures used'[log'[i].jti] == log'[i].exp {
      if i == |log| && !p.accepted {
        var k :| 0 <= k < |log| && log[k].jti == p.jti && log[k].accepted;
      }
    }
  }

  lemma MoreAccepted(log: seq<Presentation>, p: Presentation, jti: string)
    ensures AcceptedIn(log + [p], jti) <==> AcceptedIn(log, jti) || (p.jti == jti && p.accepted)
  {
    assert forall i :: 0 <= i < |log| ==> (log + [p])[i] == log[i];
    assert (log + [p])[|log|] == p;
  }

  lemma SignedWith(log: seq<Presentation>, p: Presentation)
    requires Signed(log)
    requires forall i :: 0 <= i < |log| && log[i].jti == p.jti ==> log[i].exp == p.exp
    ensures Signed(log + [p])
  {
  }

  lemma AnsweredWith(log: seq<Presentation>, p: Presentation)
    requires Answered(log)
    requires p.accepted <==> p.checkedAt < p.exp && (!AcceptedIn(log, p.jti) || p.exp <= p.consumedAt)
    ensures Answered(log + [p])
  {
    var log' := log + [p];
    forall i | 0 <= i < |log'|
      ensures log'[i].accepted <==>
                log'[i].checkedAt < log'[i].exp &&
                (!AcceptedIn(log'[..i], log'[i].jti) || log'[i].exp <= log'[i].consumedAt)
    {
      assert log'[..i] == log[..i];
      assert log[..|log|] == log;
    }
  }

  /** No ticket is accepted twice if and only if none that was accepted before expires
      between the two readings of a later presentation. */
  lemma AcceptedOnceIff(log: seq<Presentation>)
    requires Answered(log)
    ensures (forall i, j :: 0 <= i < j < |log| && log[i].accepted && log[j].accepted ==> log[i].jti != log[j].jti) <==>
            (forall j :: 0 <= j < |log| && AcceptedIn(log[..j], log[j].jti) ==>
                           !(log[j].checkedAt < log[j].exp <= log[j].consumedAt))
  {
    forall i, j | 0 <= i < j < |log| && log[i].accepted ensures AcceptedIn(log[..j], log[i].jti) {
      assert log[..j][i] == log[i];
    }
  }

  /** With check and consumption at one instant each ticket is accepted at most once, and
      exactly when it is unexpired and was never accepted before. */
  lemma AcceptedOnce(log: seq<Presentation>)
    requires Answered(log) && forall i :: 0 <= i < |log| ==> log[i].checkedAt == log[i].consumedAt
    ensures forall i, j :: 0 <= i < j < |log| && log[i].accepted && log[j].accepted ==> log[i].jti != log[j].jti
    ensures forall i :: 0 <= i < |log| ==>
              (log[i].accepted <==> log[i].checkedAt < log[i].exp && !AcceptedIn(log[..i], log[i].jti))
  {
    forall i, j | 0 <= i < j < |log| && log[i].accepted && log[j].accepted ensures log[i].jti != log[j].jti {
      assert log[..j][i] == log[i];
    }
  }

  /** When the readings differ a ticket can be accepted twice: consumed at 5, it expires
      at 10, and a second presentation checked at 9 is consumed at 10. */
  lemma ExpiryBetweenReadings(jti: string) returns (log: seq<Presentation>)
    ensures Signed(log) && Answered(log) && |log| == 2
    ensures forall i :: 0 <= i < 2 ==> log[i].jti == jti && log[i].accepted && log[i].checkedAt <= log[i].consumedAt
  {
    log := [Presentation(jti, 10, 5, 5, true), Presentation(jti, 10, 9, 10, true)];
  }
}
