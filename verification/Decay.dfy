/** The reservation sweep: what it reads of a row, what it decides, what it changes,
    and the confirm deadline a giver is shown. */
module Decay {
  import opened Prelude
  import opened Reservations

  const MINUTE: int := 60_000_000_000
  const DAY: int := 86_400_000_000_000

  datatype Config = Config(defaultDecayDays: int, responseWindow: int, confirmWindow: int)

  /** The item and list columns the sweep joins in. */
  datatype ItemRow = ItemRow(archived: bool, listActive: bool, decayDays: Option<int>, confirmMinutes: Option<int>)

  datatype Hold = Hold(item: Id, row: Reservation)

  datatype Store = Store(holds: map<Id, Hold>, items: map<Id, ItemRow>)

  datatype Candidate = Candidate(
    res: Id, email: Option<string>, state: ReservationState, lastActivityAt: Time, stateAt: Time,
    decayDays: Option<int>, confirmMinutes: Option<int>)

  // ------------------------------------------------------ settings and durations

  function Resolve<T>(setting: Option<T>, instanceDefault: T): T {
    if setting.Some? then setting.value else instanceDefault
  }

  /** A minutes override becomes a 64-bit duration; zero is a value, not an absence. */
  function ResolveMinutes(minutes: Option<int>, instanceDefault: int): int {
    Resolve(if minutes.Some? then Some(Wrap64(minutes.value * MINUTE)) else None, instanceDefault)
  }

  function DaysDuration(days: int): int {
    Wrap64(days * DAY)
  }

  /** Subtracting instants saturates at the 64-bit duration range. */
  function Sub(a: Time, b: Time): (d: int)
    ensures FitsInt64(d)
    ensures forall w :: FitsInt64(w) && w > MIN_INT64 ==> (d >= w <==> a - b >= w)
  {
    if a - b > MAX_INT64 then MAX_INT64 else if a - b < MIN_INT64 then MIN_INT64 else a - b
  }

  /** A positive period of days is the duration meant if and only if it is at most
      106751 days; a longer one wraps. */
  lemma DaysDurationExactIff(days: int)
    requires 0 < days
    ensures DaysDuration(days) == days * DAY <==> days <= 106751
  {
    if days <= 106751 {
      assert days * DAY <= 106751 * DAY <= MAX_INT64;
    } else {
      assert days * DAY >= 106752 * DAY > MAX_INT64;
    }
  }

  // -------------------------------------------------------------------- one step

  predicate IsCandidate(s: Store, id: Id) {
    && id in s.holds && LiveReservation(s.holds[id].row)
    && s.holds[id].item in s.items
    && s.items[s.holds[id].item].listActive && !s.items[s.holds[id].item].archived
  }

  function Snapshot(s: Store, id: Id): Candidate
    requires id in s.holds && s.holds[id].item in s.items
  {
    var r, item := s.holds[id].row, s.items[s.holds[id].item];
    Candidate(id, r.giverEmail, r.state, r.lastActivityAt, r.stateAt, item.decayDays, item.confirmMinutes)
  }

  datatype Move = Stay | ReleaseHold | Remind | ExpireReminded

  predicate DecayDue(cfg: Config, now: Time, c: Candidate) {
    var days := Resolve(c.decayDays, cfg.defaultDecayDays);
    days > 0 && Sub(now, c.lastActivityAt) >= DaysDuration(days)
  }

  predicate ConfirmDue(cfg: Config, now: Time, c: Candidate) {
    var window := ResolveMinutes(c.confirmMinutes, cfg.confirmWindow);
    window > 0 && Sub(now, c.stateAt) >= window
  }

  /** What the sweep does with a candidate; at most one edge of the lifecycle. */
  function Decide(cfg: Config, now: Time, c: Candidate): Move {
    match c.state
    case PendingConfirmation => if ConfirmDue(cfg, now, c) then ReleaseHold else Stay
    case Active => if DecayDue(cfg, now, c) then Remind else Stay
    case ReserverNotified => if Sub(now, c.stateAt) >= cfg.responseWindow then ExpireReminded else Stay
    case Expired => Stay
  }

  /** The list's own setting, if it has one -- zero included -- or else the instance's. */
  ghost predicate Governs<T>(setting: Option<T>, instanceDefault: T, value: T) {
    setting == Some(value) || (setting.None? && instanceDefault == value)
  }

  /** When the sweep acts, in instants and from the columns alone: an active row is chased
      exactly once the whole period that governs its list has passed since its last
      activity -- never if the period is not positive -- and a chased row expires exactly
      once the response window has passed since. */
  lemma DueIff(cfg: Config, now: Time, c: Candidate, days: int)
    requires FitsInt64(cfg.responseWindow) && cfg.responseWindow > MIN_INT64
    requires Governs(c.decayDays, cfg.defaultDecayDays, days)
    ensures days <= 106751 ==>
              (Decide(cfg, now, c) == Remind <==> c.state == Active && days > 0 && now >= c.lastActivityAt + days * DAY)
    ensures Decide(cfg, now, c) == ExpireReminded <==>
              c.state == ReserverNotified && now >= c.stateAt + cfg.responseWindow
  {
    if 0 < days <= 106751 {
      DaysDurationExactIff(days);
      assert 0 < days * DAY <= 106751 * DAY <= MAX_INT64;
    }
  }

  /** The confirm window that governs a list, in nanoseconds: its own minutes, or else the
      instance's duration. */
  ghost predicate WindowGoverns(cfg: Config, confirmMinutes: Option<int>, window: int) {
    && FitsInt64(window)
    && if confirmMinutes.Some? then window == confirmMinutes.value * 60_000_000_000 else window == cfg.confirmWindow
  }

  /** When a pending hold is released, and the deadline its giver is shown, from the
      columns alone: both at the end of the window that governs its list, and neither
      ever if that is not positive. */
  lemma HoldReleasedIff(cfg: Config, now: Time, c: Candidate, r: Reservation, window: int)
    requires c.state == PendingConfirmation && c.stateAt == r.stateAt && WindowGoverns(cfg, c.confirmMinutes, window)
    ensures Decide(cfg, now, c) == ReleaseHold <==> window > 0 && now >= c.stateAt + window
    ensures ConfirmDeadline(cfg, c.confirmMinutes, r) == if window > 0 then Some(r.stateAt + window) else None
  {
    assert MINUTE == 60_000_000_000;
  }

  /** The minutes of a list are the window meant if and only if that fits 64 bits. */
  lemma MinutesExactIff(cfg: Config, minutes: int)
    ensures ResolveMinutes(Some(minutes), cfg.confirmWindow) == minutes * 60_000_000_000 <==>
              FitsInt64(minutes * 60_000_000_000)
  {
    assert MINUTE == 60_000_000_000;
  }

  /** No active row is chased before its whole period has passed, if and only if the
      period is at most 106751 days; a longer one wraps to a shorter, often negative, one. */
  lemma ChasedOnTimeIff(cfg: Config, c: Candidate)
    requires c.state == Active && Resolve(c.decayDays, cfg.defaultDecayDays) > 0
    ensures var days := Resolve(c.decayDays, cfg.defaultDecayDays);
            (forall now :: c.lastActivityAt <= now && Decide(cfg, now, c) == Remind ==>
               now >= c.lastActivityAt + days * DAY) <==>
              days <= 106751
  {
    var days := Resolve(c.decayDays, cfg.defaultDecayDays);
    DaysDurationExactIff(days);
    if days <= 106751 {
      assert 0 < days * DAY <= 106751 * DAY <= MAX_INT64;
    } else {
      var period := DaysDuration(days);
      var early := c.lastActivityAt + if period > 0 then period else 0;
      assert days * DAY >= 106752 * DAY > MAX_INT64 >= period;
      assert Decide(cfg, early, c) == Remind && early < c.lastActivityAt + days * DAY;
    }
  }

  lemma LongPeriodWraps()
    ensures DaysDuration(150000) < 0
  {
    assert 150000 * DAY == 12_960_000_000_000_000_000;
    assert Wrap64(12_960_000_000_000_000_000) == 12_960_000_000_000_000_000 - 0x1_0000_0000_0000_0000;
  }

  /** With 150000 days the wrapped period is negative, and every active reservation on the
      list is chased at once. */
  lemma LongPeriodChasesAtOnce(cfg: Config, now: Time, c: Candidate)
    requires c.state == Active && c.lastActivityAt <= now
    requires Resolve(c.decayDays, cfg.defaultDecayDays) == 150000
    ensures Decide(cfg, now, c) == Remind
  {
    LongPeriodWraps();
  }

  /** A reminder can only go to a reserver with an address. */
  predicate Sent(c: Candidate, accepted: bool) {
    accepted && c.email.Some? && c.email.value != ""
  }

  /** The transition a candidate leads to; a reminder that was not sent leads to none. */
  function MoveOf(
    cfg: Config, now: Time, c: Candidate, accepted: bool, keep: Token, release: Token): Option<Transition>
  {
    match Decide(cfg, now, c)
    case Stay => None
    case ReleaseHold => Some(ExpirePending)
    case Remind => if Sent(c, accepted) then Some(Notify(Sha(keep), Sha(release))) else None
    case ExpireReminded => Some(ExpireNotified)
  }

  function ApplyMove(holds: map<Id, Hold>, id: Id, move: Option<Transition>, now: Time): map<Id, Hold> {
    if move.Some? && id in holds
    then holds[id := holds[id].(row := TransitionRow(holds[id].row, move.value, now))]
    else holds
  }

  // ------------------------------------------------------------------ a whole pass

  /** One row after a pass in which nothing else happens. `accepted` are the rows whose
      reminder the mail server takes, `links` the tokens minted for them. */
  function SweptHold(s: Store, cfg: Config, now: Time, accepted: set<Id>, links: map<Id, (Token, Token)>, id: Id): Hold
    requires id in s.holds
  {
    if !IsCandidate(s, id) then s.holds[id]
    else
      var (keep, release) := if id in links then links[id] else (0, 0);
      var move := MoveOf(cfg, now, Snapshot(s, id), id in accepted, keep, release);
      if move.Some? then s.holds[id].(row := TransitionRow(s.holds[id].row, move.value, now)) else s.holds[id]
  }

  function SweepAll(s: Store, cfg: Config, now: Time, accepted: set<Id>, links: map<Id, (Token, Token)>): Store {
    s.(holds := map id | id in s.holds :: SweptHold(s, cfg, now, accepted, links, id))
  }

  /** A pass moves each reservation at most one edge along its lifecycle. */
  lemma SweepMovesOneEdge(s: Store, cfg: Config, now: Time, accepted: set<Id>, links: map<Id, (Token, Token)>, id: Id)
    requires id in s.holds
    ensures var before, after := s.holds[id].row.state, SweepAll(s, cfg, now, accepted, links).holds[id].row.state;
            || after == before
            || (before, after) == (PendingConfirmation, Expired)
            || (before, after) in {(Active, ReserverNotified), (ReserverNotified, Expired)}
  {
  }

  /** What a pass makes of each reservation, from its columns, its item's and the instance's
      settings alone. Only reservations of items that are not archived, on active lists,
      are touched. */
  lemma SweepOutcome(s: Store, cfg: Config, now: Time, accepted: set<Id>, links: map<Id, (Token, Token)>, id: Id,
                     days: int, window: int)
    requires id in s.holds && s.holds[id].item in s.items
    requires FitsInt64(cfg.responseWindow) && cfg.responseWindow > MIN_INT64 && days <= 106751
    requires var item := s.items[s.holds[id].item];
             Governs(item.decayDays, cfg.defaultDecayDays, days) && WindowGoverns(cfg, item.confirmMinutes, window)
    ensures var item, r := s.items[s.holds[id].item], s.holds[id].row;
            var seen := item.listActive && !item.archived;
            var told := id in accepted && r.giverEmail.Some? && r.giverEmail.value != "";
            SweepAll(s, cfg, now, accepted, links).holds[id].row.state ==
              match r.state {
                case PendingConfirmation => if seen && window > 0 && now >= r.stateAt + window then Expired else r.state
                case Active =>
                  if seen && days > 0 && now >= r.lastActivityAt + days * 86_400_000_000_000 && told
                  then ReserverNotified else Active
                case ReserverNotified => if seen && now >= r.stateAt + cfg.responseWindow then Expired else r.state
                case Expired => Expired
              }
  {
    if IsCandidate(s, id) {
      var c := Snapshot(s, id);
      DueIff(cfg, now, c, days);
      if c.state == PendingConfirmation {
        HoldReleasedIff(cfg, now, c, s.holds[id].row, window);
      }
      assert DAY == 86_400_000_000_000;
    }
  }

  /** A second pass at the same instant changes nothing, if the mail server treats each address as before. */
  lemma SweepIdempotent(s: Store, cfg: Config, now: Time, accepted: set<Id>,
                        links: map<Id, (Token, Token)>, links': map<Id, (Token, Token)>)
    requires cfg.responseWindow > 0 && FitsInt64(cfg.responseWindow)
    ensures var once := SweepAll(s, cfg, now, accepted, links);
            SweepAll(once, cfg, now, accepted, links') == once
  {
    var once := SweepAll(s, cfg, now, accepted, links);
    forall id | id in once.holds ensures SweptHold(once, cfg, now, accepted, links', id) == once.holds[id] {
      SweptOnceStays(s, cfg, now, accepted, links, links', id);
    }
    assert SweepAll(once, cfg, now, accepted, links').holds == once.holds;
  }

  lemma SweptOnceStays(s: Store, cfg: Config, now: Time, accepted: set<Id>,
                       links: map<Id, (Token, Token)>, links': map<Id, (Token, Token)>, id: Id)
    requires cfg.responseWindow > 0 && FitsInt64(cfg.responseWindow) && id in s.holds
    ensures var once := SweepAll(s, cfg, now, accepted, links);
            SweptHold(once, cfg, now, accepted, links', id) == once.holds[id]
  {
    var once := SweepAll(s, cfg, now, accepted, links);
    if IsCandidate(s, id) {
      var move := MoveOf(cfg, now, Snapshot(s, id), id in accepted, 0, 0);
      if move.None? {
        assert once.holds[id] == s.holds[id];
      }
    }
  }

  // ------------------------------------------------------------ confirm deadline

  /** The instant shown to the giver of a pending hold; None when nothing will release
      it. */
  function ConfirmDeadline(cfg: Config, confirmMinutes: Option<int>, r: Reservation): Option<Time> {
    var window := ResolveMinutes(confirmMinutes, cfg.confirmWindow);
    if window <= 0 then None else Some(r.stateAt + window)
  }

  /** The deadline shown is the one enforced: a pass releases a pending hold that it
      sees exactly when it runs at or after the deadline. */
  lemma DeadlineEnforcedIff(s: Store, cfg: Config, now: Time, id: Id)
    requires FitsInt64(cfg.confirmWindow) && IsCandidate(s, id) && s.holds[id].row.state == PendingConfirmation
    ensures var deadline := ConfirmDeadline(cfg, s.items[s.holds[id].item].confirmMinutes, s.holds[id].row);
            Decide(cfg, now, Snapshot(s, id)) == ReleaseHold <==> deadline.Some? && now >= deadline.value
  {
  }

  // ----------------------------------------------------------------- the sweeper

  /** A keep and a release token for each reminder, all drawn from a range and no two
      alike. */
  ghost predicate NewLinks(links: map<Id, (Token, Token)>, from: nat, to: nat) {
    && from <= to
    && (forall id :: id in links ==> from <= links[id].0 < to && from <= links[id].1 < to && links[id].0 != links[id].1)
    && (forall a, b :: a in links && b in links && a != b ==>
          links[a].0 !in {links[b].0, links[b].1} && links[a].1 !in {links[b].0, links[b].1})
  }

  /** The rows once the pass is through with some of its candidates. */
  ghost predicate SweptSoFar(s: Store, holds: map<Id, Hold>, done: set<Id>, cfg: Config, now: Time,
                             accepted: set<Id>, links: map<Id, (Token, Token)>)
  {
    && holds.Keys == s.holds.Keys
    && forall id :: id in s.holds ==>
         holds[id] == if id in done then SweptHold(s, cfg, now, accepted, links, id) else s.holds[id]
  }

  lemma SweptOneMore(s: Store, holds: map<Id, Hold>, done: set<Id>, cfg: Config, now: Time, accepted: set<Id>,
                     links: map<Id, (Token, Token)>, links': map<Id, (Token, Token)>, id: Id)
    requires SweptSoFar(s, holds, done, cfg, now, accepted, links) && IsCandidate(s, id) && id !in done
    requires links' == links || (id in links' && links' == links[id := links'[id]])
    ensures var (keep, release) := if id in links' then links'[id] else (0, 0);
            var move := MoveOf(cfg, now, Snapshot(s, id), id in accepted, keep, release);
            SweptSoFar(s, ApplyMove(holds, id, move, now), done + {id}, cfg, now, accepted, links')
  {
  }

  lemma OneMoreLink(links: map<Id, (Token, Token)>, from: nat, to: nat, id: Id)
    requires NewLinks(links, from, to)
    ensures NewLinks(links[id := (to, to + 1)], from, to + 2)
  {
  }

  class Sweeper {
    var holds: map<Id, Hold>
    var items: map<Id, ItemRow>
    var minted: nat
    const cfg: Config

    ghost function View(): Store
      reads this
    {
      Store(holds, items)
    }

    constructor (cfg: Config, holds: map<Id, Hold>, items: map<Id, ItemRow>, minted: nat)
      ensures View() == Store(holds, items) && this.cfg == cfg && this.minted == minted
    {
      this.cfg, this.holds, this.items, this.minted := cfg, holds, items, minted;
    }

    /** One pass: every candidate is read first, then stepped in turn; a reminder that
        fails leaves its row active. */
    method Sweep(now: Time, accepted: set<Id>) returns (links: map<Id, (Token, Token)>)
      modifies this`holds, this`minted
      ensures View() == SweepAll(old(View()), cfg, now, accepted, links)
      ensures NewLinks(links, old(minted), minted)
    {
      links := map[];
      ghost var s := View();
      var candidates := set id | id in holds && LiveReservation(holds[id].row) && holds[id].item in items
                                 && items[holds[id].item].listActive && !items[holds[id].item].archived;
      assert forall id :: id in candidates <==> IsCandidate(s, id);
      var todo := candidates;
      ghost var done: set<Id> := {};
      while todo != {}
        invariant done + todo == candidates && done !! todo && links.Keys <= done
        invariant SweptSoFar(s, holds, done, cfg, now, accepted, links)
        invariant NewLinks(links, old(minted), minted)
        decreases todo
      {
        var id :| id in todo;
        links := Visit(now, id, id in accepted, links, s, done, accepted, old(minted));
        todo, done := todo - {id}, done + {id};
      }
    }

    /** Reading one candidate's columns and taking its step. */
    method Visit(now: Time, id: Id, accepts: bool, links: map<Id, (Token, Token)>,
                 ghost s: Store, ghost done: set<Id>, ghost accepted: set<Id>, ghost from: nat)
      returns (links': map<Id, (Token, Token)>)
      requires items == s.items && IsCandidate(s, id) && id !in done && id !in links && accepts == (id in accepted)
      requires SweptSoFar(s, holds, done, cfg, now, accepted, links) && NewLinks(links, from, minted)
      modifies this`holds, this`minted
      ensures SweptSoFar(s, holds, done + {id}, cfg, now, accepted, links')
      ensures NewLinks(links', from, minted) && links'.Keys <= links.Keys + {id}
    {
      var hold, item := holds[id], items[holds[id].item];
      var c := Candidate(id, hold.row.giverEmail, hold.row.state, hold.row.lastActivityAt, hold.row.stateAt,
                         item.decayDays, item.confirmMinutes);
      assert c == Snapshot(s, id);
      links' := Step(now, c, accepts, links);
      SweptOneMore(s, old(holds), done, cfg, now, accepted, links, links', id);
      OneMoreLink(links, from, old(minted), id);
    }

    /** The step for one candidate: send before advancing. */
    method Step(now: Time, c: Candidate, accepted: bool, links: map<Id, (Token, Token)>)
      returns (links': map<Id, (Token, Token)>)
      modifies this`holds, this`minted
      ensures if Decide(cfg, now, c) == Remind
              then minted == old(minted) + 2 && links' == links[c.res := (old(minted), old(minted) + 1)]
              else minted == old(minted) && links' == links
      ensures var (keep, release) := if c.res in links' then links'[c.res] else (0, 0);
              holds == ApplyMove(old(holds), c.res, MoveOf(cfg, now, c, accepted, keep, release), now)
    {
      links' := links;
      match c.state {
        case PendingConfirmation =>
          if ConfirmDue(cfg, now, c) {
            var moved := TransitionState(c.res, ExpirePending, now);
          }
        case Active =>
          if DecayDue(cfg, now, c) {
            var keep, release := minted, minted + 1;
            minted := minted + 2;
            links' := links[c.res := (keep, release)];
            if Sent(c, accepted) {
              var moved := TransitionState(c.res, Notify(Sha(keep), Sha(release)), now);
            }
          }
        case ReserverNotified =>
          if Sub(now, c.stateAt) >= cfg.responseWindow {
            var moved := TransitionState(c.res, ExpireNotified, now);
          }
        case Expired =>
      }
    }

    method TransitionState(id: Id, t: Transition, at: Time) returns (moved: bool)
      modifies this`holds
      ensures moved <==> id in old(holds) && old(holds)[id].row.state == Source(t)
      ensures holds == ApplyMove(old(holds), id, Some(t), at)
    {
      moved := false;
      if id in holds {
        var row;
        moved, row := TryTransition(holds[id].row, t, at);
        holds := holds[id := holds[id].(row := row)];
      }
    }
  }
}
