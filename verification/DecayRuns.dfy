/** Every run of the reservation sweep beside the requests that race it. A single
    sweeper reads its candidates at the start of a pass and works through them while
    reservations are made, confirmed, kept and released, and items are archived and
    un-archived. */
module DecayRuns {
  import opened Prelude
  import opened Reservations
  import opened Decay

  /** A reminder the mail server accepted: to whom, the time the pass stamps it with,
      the tokens in its links, and the decay period and activity it was based on.
      `spell` numbers the active spells of the reservation. */
  datatype Reminder = Reminder(
    res: Id, at: Time, keep: Token, release: Token, days: int, lastActivityAt: Time, spell: nat)

  datatype Pass = Pass(now: Time, todo: seq<Candidate>)

  datatype World = World(
    store: Store, clock: Time, minted: nat, pass: Option<Pass>,
    sent: seq<Reminder>, noticed: map<Id, Reminder>, spells: map<Id, nat>)

  datatype Step =
    | ReserveStep(kind: ReserveKind, quantity: int, email: Option<string>, item: Id, at: Time)
    | ConfirmStep(res: Id, at: Time)
    | KeepStep(res: Id, at: Time)
    | ReleaseStep(res: Id, at: Time)
    | ArchiveStep(item: Id, at: Time)
    | UnarchiveStep(item: Id, at: Time)
    | BeginPass(candidates: seq<Candidate>, at: Time)
    | PassStep(accepted: bool, at: Time)
    | EndPass(at: Time)

  /** A pass reads every candidate once. */
  ghost predicate Reads(s: Store, cs: seq<Candidate>) {
    && (forall i :: 0 <= i < |cs| ==> IsCandidate(s, cs[i].res) && cs[i] == Snapshot(s, cs[i].res))
    && (forall i, j :: 0 <= i < j < |cs| ==> cs[i].res != cs[j].res)
    && (forall id :: IsCandidate(s, id) ==> exists i :: 0 <= i < |cs| && cs[i].res == id)
  }

  ghost predicate Enabled(w: World, step: Step) {
    && step.at >= w.clock
    && match step {
         case ReserveStep(_, _, _, item, _) => item in w.store.items
         case BeginPass(candidates, _) => w.pass.None? && Reads(w.store, candidates)
         case PassStep(_, _) => w.pass.Some? && w.pass.value.todo != []
         case EndPass(_) => w.pass.Some? && w.pass.value.todo == []
         case _ => true
       }
  }

  function SetArchived(s: Store, item: Id, archived: bool): Store {
    if item in s.items then s.(items := s.items[item := s.items[item].(archived := archived)]) else s
  }

  function UnarchiveIn(s: Store, item: Id, at: Time): Store {
    if item in s.items && s.items[item].archived then
      SetArchived(s, item, false).(holds := map id | id in s.holds ::
        if s.holds[id].item == item then s.holds[id].(row := Restart(s.holds[id].row, at)) else s.holds[id])
    else s
  }

  /** Moving one row, and counting the active spell it may enter. */
  function Transit(w: World, id: Id, t: Transition, stamp: Time): World
  {
    var moves := id in w.store.holds && w.store.holds[id].row.state == Source(t);
    w.(store := w.store.(holds := ApplyMove(w.store.holds, id, Some(t), stamp)),
       spells := if moves && (t.Renew? || t.ConfirmHold?) then w.spells[id := SpellOf(w, id) + 1] else w.spells)
  }

  function SpellOf(w: World, id: Id): nat {
    if id in w.spells then w.spells[id] else 0
  }

  /** The reminder a candidate leads to. */
  function ReminderFor(cfg: Config, w: World, now: Time, c: Candidate): Reminder {
    var days := Resolve(c.decayDays, cfg.defaultDecayDays);
    Reminder(c.res, now, w.minted, w.minted + 1, days, c.lastActivityAt, SpellOf(w, c.res))
  }

  /** Working through one candidate: it acts on what the pass read, not on the row. */
  function Process(cfg: Config, w: World, now: Time, c: Candidate, accepted: bool): World
  {
    var move := MoveOf(cfg, now, c, accepted, w.minted, w.minted + 1);
    if move.None? then w
    else
      var moved := Transit(w, c.res, move.value, now);
      if move.value.Notify? then
        var m := ReminderFor(cfg, w, now, c);
        var advances := c.res in w.store.holds && w.store.holds[c.res].row.state == Active;
        moved.(minted := w.minted + 2, sent := w.sent + [m],
               noticed := if advances then w.noticed[c.res := m] else w.noticed)
      else moved
  }

  function Next(cfg: Config, w: World, step: Step): World
    requires step.PassStep? ==> w.pass.Some? && w.pass.value.todo != []
  {
    var t := w.(clock := step.at);
    match step
    case ReserveStep(kind, quantity, email, item, at) =>
      var row := NewReservation(kind, w.minted, quantity, email, w.minted + 1, at);
      t.(store := t.store.(holds := t.store.holds[w.minted := Hold(item, row)]), minted := w.minted + 2)
    case ConfirmStep(res, at) => Transit(t, res, ConfirmHold(Sha(w.minted)), at).(minted := w.minted + 1)
    case KeepStep(res, at) => Transit(t, res, Renew, at)
    case ReleaseStep(res, _) => t.(store := t.store.(holds := t.store.holds - {res}))
    case ArchiveStep(item, _) => t.(store := SetArchived(t.store, item, true))
    case UnarchiveStep(item, at) => t.(store := UnarchiveIn(t.store, item, at))
    case BeginPass(candidates, at) => t.(pass := Some(Pass(at, candidates)))
    case PassStep(accepted, _) =>
      var p := w.pass.value;
      Process(cfg, t, p.now, p.todo[0], accepted).(pass := Some(Pass(p.now, p.todo[1..])))
    case EndPass(_) => t.(pass := None)
  }

  ghost predicate Initial(w: World) {
    w.store.holds == map[] && w.pass.None? && w.sent == [] && w.noticed == map[] && w.spells == map[] && w.minted == 0
  }

  ghost predicate Run(cfg: Config, ws: seq<World>, steps: seq<Step>) {
    && |ws| == |steps| + 1
    && Initial(ws[0])
    && forall i :: 0 <= i < |steps| ==> Enabled(ws[i], steps[i]) && ws[i + 1] == Next(cfg, ws[i], steps[i])
  }

  // ------------------------------------------------------------------- invariant

  /** The owner's settings for the item a reservation is on. */
  function DaysFor(cfg: Config, s: Store, item: Id): int
    requires item in s.items
  {
    Resolve(s.items[item].decayDays, cfg.defaultDecayDays)
  }

  ghost predicate HoldOk(cfg: Config, w: World, id: Id)
    requires id in w.store.holds
  {
    var h := w.store.holds[id];
    && id < w.minted
    && h.item in w.store.items
    && h.row.lastActivityAt <= w.clock && h.row.stateAt <= w.clock
    && (h.row.state == ReserverNotified ==> id in w.noticed && NoticeOk(cfg, w, id, w.noticed[id]))
  }

  /** The row's outstanding reminder was accepted by the mail server, carries the
      stored tokens, is no later than the row's clock, and came after the whole decay
      period of the activity the sweep read. */
  ghost predicate NoticeOk(cfg: Config, w: World, id: Id, m: Reminder)
    requires id in w.store.holds && w.store.holds[id].item in w.store.items
  {
    var h := w.store.holds[id];
    && m in w.sent && m.res == id
    && h.row.keepHash == Sha(m.keep) && h.row.releaseHash == Sha(m.release)
    && m.at <= h.row.stateAt
    && m.days == DaysFor(cfg, w.store, h.item) && m.days > 0
    && m.lastActivityAt <= m.at && m.at - m.lastActivityAt >= DaysDuration(m.days)
  }

  /** What stays true of a candidate between its read and its step. */
  ghost predicate CandidateOk(cfg: Config, w: World, now: Time, c: Candidate) {
    && c.res < w.minted
    && c.lastActivityAt <= now && c.stateAt <= now
    && (c.state == Active ==> forall m :: m in w.sent && m.res == c.res ==> m.spell < SpellOf(w, c.res))
    && (c.res in w.store.holds ==>
          var h := w.store.holds[c.res];
          && h.item in w.store.items
          && c.decayDays == w.store.items[h.item].decayDays && c.confirmMinutes == w.store.items[h.item].confirmMinutes
          && (c.state == Active ==> h.row.state == Active)
          && (c.state == ReserverNotified && h.row.state == ReserverNotified ==>
                c.res in w.noticed && w.noticed[c.res].at <= c.stateAt)
          && (h.row.state == PendingConfirmation ==> c.state == PendingConfirmation))
  }

  ghost predicate PassOk(cfg: Config, w: World) {
    w.pass.Some? ==>
      var p := w.pass.value;
      && p.now <= w.clock
      && (forall i :: 0 <= i < |p.todo| ==> CandidateOk(cfg, w, p.now, p.todo[i]))
      && (forall i, j :: 0 <= i < j < |p.todo| ==> p.todo[i].res != p.todo[j].res)
  }

  /** No reminder is later than the reservation's current active spell, and none yet
      belongs to a spell that is still going on. */
  ghost predicate SpellsOk(w: World) {
    && (forall m :: m in w.sent ==> m.res < w.minted && m.spell <= SpellOf(w, m.res))
    && (forall m :: m in w.sent && m.res in w.store.holds ==>
          w.store.holds[m.res].row.state in {PendingConfirmation, Active} ==> m.spell < SpellOf(w, m.res))
    && (forall id :: id in w.spells ==> id < w.minted)
    && (forall i, j :: 0 <= i < j < |w.sent| ==> (w.sent[i].res, w.sent[i].spell) != (w.sent[j].res, w.sent[j].spell))
  }

  ghost predicate HoldsOk(cfg: Config, w: World) {
    forall id :: id in w.store.holds ==> HoldOk(cfg, w, id)
  }

  ghost predicate Good(cfg: Config, w: World) {
    HoldsOk(cfg, w) && PassOk(cfg, w) && SpellsOk(w)
  }

  // ------------------------------------------------- every step keeps it

  lemma ProcessKeepsHolds(cfg: Config, w: World, now: Time, c: Candidate, accepted: bool)
    requires HoldsOk(cfg, w) && CandidateOk(cfg, w, now, c) && now <= w.clock
    ensures HoldsOk(cfg, Process(cfg, w, now, c, accepted))
  {
    var w' := Process(cfg, w, now, c, accepted);
    forall id | id in w'.store.holds ensures HoldOk(cfg, w', id) {
      assert HoldOk(cfg, w, id);
    }
  }

  lemma ProcessKeepsSpells(cfg: Config, w: World, now: Time, c: Candidate, accepted: bool)
    requires SpellsOk(w) && CandidateOk(cfg, w, now, c)
    ensures SpellsOk(Process(cfg, w, now, c, accepted))
  {
    var move := MoveOf(cfg, now, c, accepted, w.minted, w.minted + 1);
    if move.None? {
      assert Process(cfg, w, now, c, accepted) == w;
    } else if move.value.Notify? {
      NotifyKeepsSpells(cfg, w, now, c, accepted);
    } else {
      SweepMoveKeepsSpells(w, c.res, move.value, now);
      assert Process(cfg, w, now, c, accepted) == Transit(w, c.res, move.value, now);
    }
  }

  lemma NotifyKeepsSpells(cfg: Config, w: World, now: Time, c: Candidate, accepted: bool)
    requires SpellsOk(w) && c.res < w.minted && c.state == Active
    requires forall m :: m in w.sent && m.res == c.res ==> m.spell < SpellOf(w, c.res)
    requires c.res in w.store.holds ==> w.store.holds[c.res].row.state == Active
    requires var move := MoveOf(cfg, now, c, accepted, w.minted, w.minted + 1); move.Some? && move.value.Notify?
    ensures SpellsOk(Process(cfg, w, now, c, accepted))
  {
    var t := MoveOf(cfg, now, c, accepted, w.minted, w.minted + 1).value;
    SweepMoveKeepsSpells(w, c.res, t, now);
    OneMoreReminder(Transit(w, c.res, t, now), Process(cfg, w, now, c, accepted), ReminderFor(cfg, w, now, c));
  }

  lemma SweepMoveKeepsSpells(w: World, id: Id, t: Transition, now: Time)
    requires SpellsOk(w) && (t.Notify? || t.ExpirePending? || t.ExpireNotified?)
    ensures SpellsOk(Transit(w, id, t, now)) && Transit(w, id, t, now).spells == w.spells
  {
  }

  lemma OneMoreReminder(w: World, w': World, m: Reminder)
    requires SpellsOk(w) && m.res < w.minted && m.spell == SpellOf(w, m.res)
    requires m.res in w.store.holds ==> w.store.holds[m.res].row.state !in {PendingConfirmation, Active}
    requires forall x :: x in w.sent && x.res == m.res ==> x.spell < m.spell
    requires w'.sent == w.sent + [m] && w'.spells == w.spells && w'.store == w.store && w'.minted >= w.minted
    ensures SpellsOk(w')
  {
    assert forall x :: x in w'.sent <==> x in w.sent || x == m;
    assert forall i :: 0 <= i < |w.sent| ==> w.sent[i] in w.sent;
  }

  lemma ProcessKeepsCandidate(cfg: Config, w: World, now: Time, c: Candidate, accepted: bool, d: Candidate)
    requires CandidateOk(cfg, w, now, d) && d.res != c.res
    ensures CandidateOk(cfg, Process(cfg, w, now, c, accepted), now, d)
  {
  }

  lemma ClockKeeps(cfg: Config, w: World, at: Time)
    requires Good(cfg, w) && at >= w.clock
    ensures Good(cfg, w.(clock := at))
  {
    var t := w.(clock := at);
    forall id | id in t.store.holds ensures HoldOk(cfg, t, id) {
      assert HoldOk(cfg, w, id);
    }
    if w.pass.Some? {
      forall i | 0 <= i < |w.pass.value.todo| ensures CandidateOk(cfg, t, w.pass.value.now, w.pass.value.todo[i]) {
        assert CandidateOk(cfg, w, w.pass.value.now, w.pass.value.todo[i]);
      }
    }
  }

  lemma ProcessKeepsRest(cfg: Config, w: World, accepted: bool)
    requires PassOk(cfg, w) && w.pass.Some? && w.pass.value.todo != []
    ensures var p := w.pass.value;
            PassOk(cfg, Process(cfg, w, p.now, p.todo[0], accepted).(pass := Some(Pass(p.now, p.todo[1..]))))
  {
    var p := w.pass.value;
    var u := Process(cfg, w, p.now, p.todo[0], accepted);
    var w' := u.(pass := Some(Pass(p.now, p.todo[1..])));
    forall i | 0 <= i < |p.todo[1..]| ensures CandidateOk(cfg, w', p.now, p.todo[1..][i]) {
      ProcessKeepsCandidate(cfg, w, p.now, p.todo[0], accepted, p.todo[i + 1]);
      assert CandidateOk(cfg, u, p.now, p.todo[i + 1]);
    }
  }

  lemma HoldsIgnorePass(cfg: Config, w: World, pass: Option<Pass>)
    requires HoldsOk(cfg, w)
    ensures HoldsOk(cfg, w.(pass := pass))
  {
    forall id | id in w.store.holds ensures HoldOk(cfg, w.(pass := pass), id) {
      assert HoldOk(cfg, w, id);
    }
  }

  lemma PassStepKeeps(cfg: Config, w: World, step: Step)
    requires Good(cfg, w) && Enabled(w, step) && step.PassStep?
    ensures Good(cfg, Next(cfg, w, step))
  {
    var t, p := w.(clock := step.at), w.pass.value;
    ClockKeeps(cfg, w, step.at);
    ProcessKeepsHolds(cfg, t, p.now, p.todo[0], step.accepted);
    ProcessKeepsSpells(cfg, t, p.now, p.todo[0], step.accepted);
    ProcessKeepsRest(cfg, t, step.accepted);
    HoldsIgnorePass(cfg, Process(cfg, t, p.now, p.todo[0], step.accepted), Some(Pass(p.now, p.todo[1..])));
  }

  lemma RequestKeepsHolds(cfg: Config, w: World, step: Step)
    requires HoldsOk(cfg, w) && Enabled(w, step) && !step.PassStep?
    ensures HoldsOk(cfg, Next(cfg, w, step))
  {
    var w' := Next(cfg, w, step);
    forall id | id in w'.store.holds ensures HoldOk(cfg, w', id) {
      assert id in w.store.holds ==> HoldOk(cfg, w, id);
    }
  }

  lemma RequestKeepsCandidate(cfg: Config, w: World, step: Step, now: Time, c: Candidate)
    requires Enabled(w, step) && !step.PassStep? && CandidateOk(cfg, w, now, c)
    requires c.res in w.store.holds ==> HoldOk(cfg, w, c.res)
    ensures CandidateOk(cfg, Next(cfg, w, step), now, c)
  {
  }

  lemma RequestKeepsSpells(cfg: Config, w: World, step: Step)
    requires HoldsOk(cfg, w) && SpellsOk(w) && Enabled(w, step) && !step.PassStep?
    ensures SpellsOk(Next(cfg, w, step))
  {
  }

  lemma BeginPassKeeps(cfg: Config, w: World, step: Step)
    requires Good(cfg, w) && Enabled(w, step) && step.BeginPass?
    ensures PassOk(cfg, Next(cfg, w, step))
  {
    var w' := Next(cfg, w, step);
    forall i | 0 <= i < |step.candidates| ensures CandidateOk(cfg, w', step.at, step.candidates[i]) {
      assert HoldOk(cfg, w, step.candidates[i].res);
    }
  }

  lemma StepKeepsGood(cfg: Config, w: World, step: Step)
    requires Good(cfg, w) && Enabled(w, step)
    ensures Good(cfg, Next(cfg, w, step))
  {
    if step.PassStep? {
      PassStepKeeps(cfg, w, step);
    } else {
      RequestKeepsHolds(cfg, w, step);
      RequestKeepsSpells(cfg, w, step);
      if step.BeginPass? {
        BeginPassKeeps(cfg, w, step);
      } else if w.pass.Some? && !step.EndPass? {
        var w', p := Next(cfg, w, step), w.pass.value;
        forall i | 0 <= i < |p.todo| ensures CandidateOk(cfg, w', p.now, p.todo[i]) {
          RequestKeepsCandidate(cfg, w, step, p.now, p.todo[i]);
        }
      }
    }
  }

  lemma {:induction false} RunKeepsGood(cfg: Config, ws: seq<World>, steps: seq<Step>, n: nat)
    requires Run(cfg, ws, steps) && n < |ws|
    ensures Good(cfg, ws[n])
  {
    if n > 0 {
      RunKeepsGood(cfg, ws, steps, n - 1);
      StepKeepsGood(cfg, ws[n - 1], steps[n - 1]);
    }
  }

  // -------------------------------------------------------------------- theorems

  /** At most one accepted reminder in each active spell of a reservation. */
  lemma OneReminderPerSpell(cfg: Config, ws: seq<World>, steps: seq<Step>, n: nat, i: nat, j: nat)
    requires Run(cfg, ws, steps) && n < |ws| && i < j < |ws[n].sent|
    requires ws[n].sent[i].res == ws[n].sent[j].res
    ensures ws[n].sent[i].spell != ws[n].sent[j].spell
  {
    RunKeepsGood(cfg, ws, steps, n);
  }

  lemma {:induction false} ClockMonotone(cfg: Config, ws: seq<World>, steps: seq<Step>, i: nat, j: nat)
    requires Run(cfg, ws, steps) && i <= j < |ws|
    ensures ws[i].clock <= ws[j].clock
    decreases j - i
  {
    if i < j {
      ClockMonotone(cfg, ws, steps, i, j - 1);
      assert ws[j] == Next(cfg, ws[j - 1], steps[j - 1]);
      NextClock(cfg, ws[j - 1], steps[j - 1]);
    }
  }

  lemma NextClock(cfg: Config, w: World, step: Step)
    requires Enabled(w, step)
    ensures Next(cfg, w, step).clock == step.at
  {
  }

  /** What the requests do to a reservation and its item: keeping restarts both clocks of a
      reminded row and spends its links, confirming makes a pending one active, releasing
      removes it, archiving and un-archiving set the mark. */
  lemma RequestOutcome(cfg: Config, w: World, step: Step)
    requires Enabled(w, step)
    ensures var w' := Next(cfg, w, step);
            && (step.KeepStep? && step.res in w.store.holds ==>
                  var r, r' := w.store.holds[step.res].row, w'.store.holds[step.res].row;
                  if r.state == ReserverNotified
                  then r' == r.(state := Active, lastActivityAt := step.at, stateAt := step.at,
                                keepHash := NoDigest, releaseHash := NoDigest)
                  else r' == r)
            && (step.ConfirmStep? && step.res in w.store.holds ==>
                  var r, r' := w.store.holds[step.res].row, w'.store.holds[step.res].row;
                  if r.state == PendingConfirmation
                  then r'.state == Active && r'.lastActivityAt == r'.stateAt == step.at && r'.tokenHash == Sha(w.minted)
                  else r' == r)
            && (step.ReleaseStep? ==> w'.store.holds.Keys == w.store.holds.Keys - {step.res})
            && ((step.ArchiveStep? || step.UnarchiveStep?) && step.item in w.store.items ==>
                  var item := w.store.items[step.item];
                  w'.store.items == w.store.items[step.item := item.(archived := step.ArchiveStep?)])
            && (step.ReserveStep? ==>
                  w'.store.holds.Keys == w.store.holds.Keys + {w.minted} && w'.store.holds[w.minted].item == step.item)
  {
  }

  // ------------------------------------------------- a pass beside which nothing happens

  function Ids(cs: seq<Candidate>): set<Id> {
    set i | 0 <= i < |cs| :: cs[i].res
  }

  /** Part of a pass leaves the rows as the sweep of its first `n` candidates does.
      `accepted` are the candidates whose reminder the mail server takes. */
  ghost predicate PassAt(cfg: Config, s: Store, w: World, now: Time, cs: seq<Candidate>, n: nat,
                         accepted: set<Id>, links: map<Id, (Token, Token)>)
  {
    && n <= |cs| && w.pass == Some(Pass(now, cs[n..])) && w.store.items == s.items
    && SweptSoFar(s, w.store.holds, Ids(cs[..n]), cfg, now, accepted, links)
  }

  lemma PassOneMore(cfg: Config, s: Store, w: World, step: Step, w': World, now: Time, cs: seq<Candidate>, n: nat,
                    accepted: set<Id>, links: map<Id, (Token, Token)>)
    returns (links': map<Id, (Token, Token)>)
    requires Reads(s, cs) && PassAt(cfg, s, w, now, cs, n, accepted, links)
    requires Enabled(w, step) && step.PassStep? && w' == Next(cfg, w, step)
    requires n < |cs| ==> (step.accepted <==> cs[n].res in accepted)
    ensures PassAt(cfg, s, w', now, cs, n + 1, accepted, links')
  {
    var id := cs[n].res;
    PassStepRows(cfg, w, step);
    assert cs[n..][0] == cs[n] && cs[n..][1..] == cs[n + 1..];
    OneMoreId(cs, n);
    links' := links[id := (w.minted, w.minted + 1)];
    SweptOneMore(s, w.store.holds, Ids(cs[..n]), cfg, now, accepted, links, links', id);
  }

  lemma PassStepRows(cfg: Config, w: World, step: Step)
    requires Enabled(w, step) && step.PassStep?
    ensures var p, w' := w.pass.value, Next(cfg, w, step);
            var move := MoveOf(cfg, p.now, p.todo[0], step.accepted, w.minted, w.minted + 1);
            && w'.store.holds == ApplyMove(w.store.holds, p.todo[0].res, move, p.now)
            && w'.store.items == w.store.items && w'.pass == Some(Pass(p.now, p.todo[1..]))
  {
    ProcessedHolds(cfg, w.(clock := step.at), w.pass.value.now, w.pass.value.todo[0], step.accepted);
  }

  /** The `m`-th step from the `k`-th world on takes the `m`-th candidate; the mail server
      takes the reminders of the accepted candidates and no others. */
  ghost predicate PassStepAt(cfg: Config, ws: seq<World>, steps: seq<Step>, k: nat, m: nat,
                             cs: seq<Candidate>, accepted: set<Id>)
    requires |ws| == |steps| + 1 && k + m < |steps|
  {
    var w, step := ws[k + m], steps[k + m];
    && Enabled(w, step) && step.PassStep? && ws[k + m + 1] == Next(cfg, w, step)
    && (m < |cs| ==> (step.accepted <==> cs[m].res in accepted))
  }

  ghost predicate PassSteps(cfg: Config, ws: seq<World>, steps: seq<Step>, k: nat, n: nat,
                            cs: seq<Candidate>, accepted: set<Id>)
    requires |ws| == |steps| + 1 && k + n <= |steps|
  {
    forall m: nat :: m < n ==> PassStepAt(cfg, ws, steps, k, m, cs, accepted)
  }

  lemma {:induction false} PassSoFar(cfg: Config, ws: seq<World>, steps: seq<Step>, k: nat, n: nat,
                                     s: Store, now: Time, cs: seq<Candidate>, accepted: set<Id>)
    returns (links: map<Id, (Token, Token)>)
    requires |ws| == |steps| + 1 && k + n <= |steps| && PassSteps(cfg, ws, steps, k, n, cs, accepted)
    requires Reads(s, cs) && PassAt(cfg, s, ws[k], now, cs, 0, accepted, map[])
    ensures PassAt(cfg, s, ws[k + n], now, cs, n, accepted, links)
  {
    if n == 0 {
      links := map[];
    } else {
      var m := n - 1;
      var links0 := PassSoFar(cfg, ws, steps, k, m, s, now, cs, accepted);
      assert PassStepAt(cfg, ws, steps, k, m, cs, accepted);
      links := PassOneMore(cfg, s, ws[k + m], steps[k + m], ws[k + m + 1], now, cs, m, accepted, links0);
    }
  }

  lemma PassBegun(cfg: Config, w: World, step: Step, accepted: set<Id>)
    requires Enabled(w, step) && step.BeginPass?
    ensures PassAt(cfg, w.store, Next(cfg, w, step), step.at, step.candidates, 0, accepted, map[])
  {
    assert step.candidates[0..] == step.candidates && Ids(step.candidates[..0]) == {};
  }

  lemma StepOfRun(cfg: Config, ws: seq<World>, steps: seq<Step>, i: nat)
    requires Run(cfg, ws, steps) && i < |steps|
    ensures Enabled(ws[i], steps[i]) && ws[i + 1] == Next(cfg, ws[i], steps[i])
  {
  }

  lemma ProcessedHolds(cfg: Config, w: World, now: Time, c: Candidate, accepted: bool)
    ensures var w' := Process(cfg, w, now, c, accepted);
            && w'.store.holds ==
               ApplyMove(w.store.holds, c.res, MoveOf(cfg, now, c, accepted, w.minted, w.minted + 1), now)
            && w'.store.items == w.store.items
  {
  }

  lemma OneMoreId(cs: seq<Candidate>, n: nat)
    requires n < |cs| && forall i, j :: 0 <= i < j < |cs| ==> cs[i].res != cs[j].res
    ensures Ids(cs[..n + 1]) == Ids(cs[..n]) + {cs[n].res} && cs[n].res !in Ids(cs[..n])
  {
    assert forall i :: 0 <= i < n ==> cs[..n + 1][i] == cs[..n][i];
    assert cs[..n + 1][n] == cs[n];
  }

  /** A pass that nothing comes between is the row-by-row sweep of all there is: every
      reservation that is due is moved, and no other. */
  lemma UninterruptedPass(cfg: Config, ws: seq<World>, steps: seq<Step>, i: nat, n: nat, accepted: set<Id>)
    returns (links: map<Id, (Token, Token)>)
    requires Run(cfg, ws, steps) && i + n + 1 < |steps| && steps[i].BeginPass? && steps[i + n + 1].EndPass?
    requires PassSteps(cfg, ws, steps, i + 1, n, steps[i].candidates, accepted)
    ensures ws[i + n + 2].store == SweepAll(ws[i].store, cfg, steps[i].at, accepted, links)
  {
    StepOfRun(cfg, ws, steps, i);
    StepOfRun(cfg, ws, steps, i + n + 1);
    PassBegun(cfg, ws[i], steps[i], accepted);
    links := PassSoFar(cfg, ws, steps, i + 1, n, ws[i].store, steps[i].at, steps[i].candidates, accepted);
    PassEnded(cfg, ws[i].store, ws[i + n + 1], steps[i + n + 1], ws[i + n + 2], steps[i].at, steps[i].candidates, n,
              accepted, links);
  }

  lemma PassEnded(cfg: Config, s: Store, w: World, step: Step, w': World, now: Time, cs: seq<Candidate>, n: nat,
                  accepted: set<Id>, links: map<Id, (Token, Token)>)
    requires Reads(s, cs) && PassAt(cfg, s, w, now, cs, n, accepted, links)
    requires Enabled(w, step) && step.EndPass? && w' == Next(cfg, w, step)
    ensures w'.store == SweepAll(s, cfg, now, accepted, links)
  {
    assert cs[n..] == [] && cs[..n] == cs;
    forall id | IsCandidate(s, id) ensures id in Ids(cs) {
      var m :| 0 <= m < |cs| && cs[m].res == id;
    }
    assert w'.store.holds == SweepAll(s, cfg, now, accepted, links).holds;
  }

  // ---------------------------------------------------------- the shown deadline

  /** A pending hold made at time `since` on this item, and what a pass may have read
      of it. */
  ghost predicate HeldSince(w: World, id: Id, item: Id, since: Time) {
    && id < w.minted
    && (id in w.store.holds ==>
          var h := w.store.holds[id];
          h.item == item && h.row.state == PendingConfirmation && h.row.stateAt >= since)
    && (w.pass.Some? ==> forall i :: 0 <= i < |w.pass.value.todo| && w.pass.value.todo[i].res == id ==>
          w.pass.value.todo[i].state == PendingConfirmation && w.pass.value.todo[i].stateAt >= since)
  }

  predicate Releases(step: Step, id: Id) {
    step.ReleaseStep? && step.res == id
  }

  /** Until its deadline nothing but a confirm or a release ends the hold. */
  lemma StepKeepsHeld(cfg: Config, w: World, step: Step, id: Id, item: Id, since: Time)
    requires Good(cfg, w) && Enabled(w, step) && HeldSince(w, id, item, since) && since <= w.clock
    requires item in w.store.items && FitsInt64(cfg.confirmWindow)
    requires !(step.ConfirmStep? && step.res == id)
    requires var window := ResolveMinutes(w.store.items[item].confirmMinutes, cfg.confirmWindow);
             window > 0 ==> step.at < since + window
    ensures HeldSince(Next(cfg, w, step), id, item, since)
    ensures id in Next(cfg, w, step).store.holds <==> id in w.store.holds && !Releases(step, id)
  {
    if step.PassStep? {
      PassStepKeepsHeld(cfg, w, step, id, item, since);
    } else {
      RequestKeepsHeld(cfg, w, step, id, item, since);
    }
  }

  lemma RequestKeepsHeld(cfg: Config, w: World, step: Step, id: Id, item: Id, since: Time)
    requires Enabled(w, step) && !step.PassStep? && HeldSince(w, id, item, since) && since <= w.clock
    requires !(step.ConfirmStep? && step.res == id)
    ensures HeldSince(Next(cfg, w, step), id, item, since)
    ensures id in Next(cfg, w, step).store.holds <==> id in w.store.holds && !Releases(step, id)
  {
  }

  lemma PassStepKeepsHeld(cfg: Config, w: World, step: Step, id: Id, item: Id, since: Time)
    requires Good(cfg, w) && Enabled(w, step) && step.PassStep? && HeldSince(w, id, item, since)
    requires item in w.store.items && FitsInt64(cfg.confirmWindow)
    requires var window := ResolveMinutes(w.store.items[item].confirmMinutes, cfg.confirmWindow);
             window > 0 ==> w.clock < since + window
    ensures HeldSince(Next(cfg, w, step), id, item, since)
    ensures id in Next(cfg, w, step).store.holds <==> id in w.store.holds
  {
    var p := w.pass.value;
    assert CandidateOk(cfg, w, p.now, p.todo[0]);
  }

  ghost predicate SameTerms(w: World, w': World, item: Id) {
    && item in w.store.items && item in w'.store.items
    && w'.store.items[item].confirmMinutes == w.store.items[item].confirmMinutes
  }

  lemma StepKeepsTerms(cfg: Config, w: World, step: Step, item: Id)
    requires Enabled(w, step) && item in w.store.items
    ensures SameTerms(w, Next(cfg, w, step), item)
  {
  }

  /** The deadline shown can be relied on: a hold that was neither confirmed nor
      released is still stored, and pending, at every moment before the deadline shown
      when it was made, so a confirm then succeeds. */
  lemma HeldUntilDeadline(cfg: Config, ws: seq<World>, steps: seq<Step>, i: nat, j: nat)
    requires Run(cfg, ws, steps) && i < j < |ws| && FitsInt64(cfg.confirmWindow)
    requires steps[i].ReserveStep? && steps[i].kind == EmailConfirmed
    requires forall k :: i < k < j ==> !(steps[k].ConfirmStep? && steps[k].res == ws[i].minted)
    requires var terms, row := ws[i].store.items[steps[i].item], ws[i + 1].store.holds[ws[i].minted].row;
             var deadline := ConfirmDeadline(cfg, terms.confirmMinutes, row);
             deadline.Some? ==> ws[j].clock < deadline.value
    ensures HeldSince(ws[j], ws[i].minted, steps[i].item, steps[i].at)
    ensures (forall k :: i < k < j ==> !Releases(steps[k], ws[i].minted)) ==> ws[i].minted in ws[j].store.holds
    ensures SameTerms(ws[i], ws[j], steps[i].item)
  {
    RunKeepsGood(cfg, ws, steps, i);
    ReserveMakesHold(cfg, ws[i], steps[i]);
    NextClock(cfg, ws[i], steps[i]);
    StepKeepsTerms(cfg, ws[i], steps[i], steps[i].item);
    forall k | i < k < j ensures GoodStep(cfg, ws, steps, k) {
      RunKeepsGood(cfg, ws, steps, k);
    }
    forall k | i < k <= j ensures ws[i + 1].clock <= ws[k].clock <= ws[j].clock {
      ClockMonotone(cfg, ws, steps, i + 1, k);
      ClockMonotone(cfg, ws, steps, k, j);
    }
    StaysHeld(cfg, ws, steps, i + 1, j, ws[i].minted, steps[i].item, steps[i].at);
  }

  ghost predicate GoodStep(cfg: Config, ws: seq<World>, steps: seq<Step>, k: nat)
    requires k < |steps| < |ws|
  {
    Good(cfg, ws[k]) && Enabled(ws[k], steps[k]) && ws[k + 1] == Next(cfg, ws[k], steps[k])
  }

  lemma {:induction false} StaysHeld(
    cfg: Config, ws: seq<World>, steps: seq<Step>, i: nat, j: nat, id: Id, item: Id, since: Time)
    requires i <= j <= |steps| < |ws| && FitsInt64(cfg.confirmWindow)
    requires forall k :: i <= k < j ==> GoodStep(cfg, ws, steps, k)
    requires forall k :: i <= k <= j ==> since <= ws[k].clock <= ws[j].clock
    requires HeldSince(ws[i], id, item, since) && item in ws[i].store.items
    requires forall k :: i <= k < j ==> !(steps[k].ConfirmStep? && steps[k].res == id)
    requires var window := ResolveMinutes(ws[i].store.items[item].confirmMinutes, cfg.confirmWindow);
             window > 0 ==> ws[j].clock < since + window
    ensures HeldSince(ws[j], id, item, since)
    ensures id in ws[i].store.holds && (forall k :: i <= k < j ==> !Releases(steps[k], id)) ==> id in ws[j].store.holds
    ensures SameTerms(ws[i], ws[j], item)
    decreases j - i
  {
    if i < j {
      HeldOneMoreStep(cfg, ws, steps, i, id, item, since);
      StaysHeld(cfg, ws, steps, i + 1, j, id, item, since);
    }
  }

  lemma HeldOneMoreStep(cfg: Config, ws: seq<World>, steps: seq<Step>, k: nat, id: Id, item: Id, since: Time)
    requires k < |steps| < |ws| && GoodStep(cfg, ws, steps, k) && FitsInt64(cfg.confirmWindow)
    requires HeldSince(ws[k], id, item, since) && since <= ws[k].clock && item in ws[k].store.items
    requires !(steps[k].ConfirmStep? && steps[k].res == id)
    requires var window := ResolveMinutes(ws[k].store.items[item].confirmMinutes, cfg.confirmWindow);
             window > 0 ==> ws[k + 1].clock < since + window
    ensures HeldSince(ws[k + 1], id, item, since)
    ensures id in ws[k].store.holds && !Releases(steps[k], id) ==> id in ws[k + 1].store.holds
    ensures SameTerms(ws[k], ws[k + 1], item)
  {
    NextClock(cfg, ws[k], steps[k]);
    StepKeepsHeld(cfg, ws[k], steps[k], id, item, since);
    StepKeepsTerms(cfg, ws[k], steps[k], item);
  }

  lemma ReserveMakesHold(cfg: Config, w: World, step: Step)
    requires Good(cfg, w) && Enabled(w, step) && step.ReserveStep? && step.kind == EmailConfirmed
    ensures var w' := Next(cfg, w, step);
            && w.minted in w'.store.holds && w'.store.holds[w.minted].row.stateAt == step.at
            && HeldSince(w', w.minted, step.item, step.at)
  {
    if w.pass.Some? {
      forall i | 0 <= i < |w.pass.value.todo| ensures w.pass.value.todo[i].res != w.minted {
        assert CandidateOk(cfg, w, w.pass.value.now, w.pass.value.todo[i]);
      }
    }
  }
}
