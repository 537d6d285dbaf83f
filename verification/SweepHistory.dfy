/** What the rows say about the past of a run of the sweep: which pass read a
    reservation, which reminder it had, and whether time its item spent archived was
    counted against it. A pass acts on what it read, however long before. */
module SweepHistory {
  import opened Prelude
  import opened Reservations
  import opened Decay
  import opened DecayRuns

  // ------------------------------------------------------- what one step may do

  ghost predicate ArchivedAt(w: World, item: Id) {
    item in w.store.items && w.store.items[item].archived
  }

  /** An un-archive that takes effect: it restarts the clocks of the item's live rows. */
  ghost predicate Restarts(w: World, step: Step, item: Id) {
    step.UnarchiveStep? && step.item == item && ArchivedAt(w, item)
  }

  /** The state a row has; None when there is no such row. */
  function StateOf(w: World, id: Id): Option<ReservationState> {
    if id in w.store.holds then Some(w.store.holds[id].row.state) else None
  }

  ghost predicate PassMoves(w: World, w': World, step: Step) {
    match step
    case BeginPass(candidates, at) =>
      w.pass.None? && w'.pass == Some(Pass(at, candidates)) && Reads(w.store, candidates)
    case PassStep(_, _) =>
      w.pass.Some? && w.pass.value.todo != [] && w'.pass == Some(w.pass.value.(todo := w.pass.value.todo[1..]))
    case EndPass(_) => w'.pass.None?
    case _ => w'.pass == w.pass
  }

  ghost predicate MarksMove(w: World, w': World, step: Step) {
    && w'.store.items.Keys == w.store.items.Keys
    && (forall item :: item in w.store.items ==>
          && w'.store.items[item].decayDays == w.store.items[item].decayDays
          && w'.store.items[item].archived ==
               if step.ArchiveStep? && step.item == item then true
               else if step.UnarchiveStep? && step.item == item then false
               else w.store.items[item].archived)
  }

  /** A row the step made. */
  ghost predicate NewRow(w: World, w': World, step: Step, id: Id)
    requires id in w'.store.holds
  {
    var h := w'.store.holds[id];
    step.ReserveStep? && id >= w.minted && h.item == step.item
    && h.row.state in {PendingConfirmation, Active} && h.row.lastActivityAt == step.at && h.row.stateAt == step.at
  }

  /** The sweep chases the row, or ends it, as it decided on what it had read. */
  ghost predicate SweptRow(cfg: Config, w: World, w': World, step: Step, id: Id)
    requires id in w.store.holds && id in w'.store.holds
  {
    var row, row' := w.store.holds[id].row, w'.store.holds[id].row;
    && step.PassStep? && w.pass.Some? && w.pass.value.todo != [] && w.pass.value.todo[0].res == id
    && var now, c := w.pass.value.now, w.pass.value.todo[0];
       match Decide(cfg, now, c)
       case Stay => false
       case ReleaseHold => row.state == PendingConfirmation && row'.state == Expired
       case Remind =>
         && row.state == Active && row'.state == ReserverNotified
         && row'.stateAt == now && row'.lastActivityAt == row.lastActivityAt
         && id in w'.noticed && w'.noticed[id].at == now && w'.noticed[id].lastActivityAt == c.lastActivityAt
       case ExpireReminded => row.state == ReserverNotified && row'.state == Expired
  }

  /** A row the step found and left. */
  ghost predicate OldRow(cfg: Config, w: World, w': World, step: Step, id: Id)
    requires id in w.store.holds && id in w'.store.holds
  {
    var h, h' := w.store.holds[id], w'.store.holds[id];
    h'.item == h.item
    && if Restarts(w, step, h.item) && LiveReservation(h.row) then
         h'.row == h.row.(lastActivityAt := step.at, stateAt := step.at)
       else
         || h'.row == h.row
         || (h'.row.state == Active && h'.row.lastActivityAt == step.at && h'.row.stateAt == step.at
             && ((step.ConfirmStep? && step.res == id && h.row.state == PendingConfirmation)
                 || (step.KeepStep? && step.res == id && h.row.state == ReserverNotified)))
         || SweptRow(cfg, w, w', step, id)
  }

  ghost predicate RowMoves(cfg: Config, w: World, w': World, step: Step, id: Id)
    requires id in w'.store.holds
  {
    && id < w'.minted && w'.store.holds[id].item in w'.store.items
    && w'.store.holds[id].row.lastActivityAt <= step.at && w'.store.holds[id].row.stateAt <= step.at
    && if id in w.store.holds then
         && OldRow(cfg, w, w', step, id)
         && (StateOf(w, id) == StateOf(w', id) == Some(ReserverNotified) ==>
               id in w.noticed && id in w'.noticed && w'.noticed[id] == w.noticed[id])
       else NewRow(w, w', step, id)
  }

  ghost predicate Moves(cfg: Config, w: World, w': World, step: Step) {
    && w.clock <= step.at == w'.clock && w.minted <= w'.minted
    && PassMoves(w, w', step) && MarksMove(w, w', step)
    && forall id :: id in w'.store.holds ==> RowMoves(cfg, w, w', step, id)
  }

  lemma StepMoves(cfg: Config, w: World, step: Step)
    requires Good(cfg, w) && Enabled(w, step)
    ensures Moves(cfg, w, Next(cfg, w, step), step)
  {
    var w' := Next(cfg, w, step);
    StepKeepsGood(cfg, w, step);
    StepMovesRest(cfg, w, step);
    forall id | id in w'.store.holds ensures RowMoves(cfg, w, w', step, id) {
      assert HoldOk(cfg, w', id);
      assert id in w.store.holds ==> HoldOk(cfg, w, id);
      StepMovesRow(cfg, w, step, id);
    }
  }

  lemma StepMovesRest(cfg: Config, w: World, step: Step)
    requires Enabled(w, step)
    ensures var w' := Next(cfg, w, step);
            w'.clock == step.at && w.minted <= w'.minted && PassMoves(w, w', step) && MarksMove(w, w', step)
  {
  }

  lemma StepMovesRow(cfg: Config, w: World, step: Step, id: Id)
    requires Enabled(w, step) && id in Next(cfg, w, step).store.holds && HoldOk(cfg, Next(cfg, w, step), id)
    requires id in w.store.holds ==> HoldOk(cfg, w, id)
    ensures RowMoves(cfg, w, Next(cfg, w, step), step, id)
  {
    NextClock(cfg, w, step);
    if id in w.store.holds {
      if step.PassStep? {
        PassStepMovesRow(cfg, w, step, id);
      } else {
        RequestMovesRow(cfg, w, step, id);
      }
    }
  }

  lemma PassStepMovesRow(cfg: Config, w: World, step: Step, id: Id)
    requires Enabled(w, step) && step.PassStep? && id in w.store.holds
    ensures id in Next(cfg, w, step).store.holds
    ensures OldRow(cfg, w, Next(cfg, w, step), step, id)
    ensures StateOf(w, id) == Some(ReserverNotified) && id in w.noticed ==>
              id in Next(cfg, w, step).noticed && Next(cfg, w, step).noticed[id] == w.noticed[id]
  {
  }

  lemma RequestMovesRow(cfg: Config, w: World, step: Step, id: Id)
    requires Enabled(w, step) && !step.PassStep? && id in w.store.holds && id in Next(cfg, w, step).store.holds
    requires id < w.minted
    ensures OldRow(cfg, w, Next(cfg, w, step), step, id)
    ensures Next(cfg, w, step).noticed == w.noticed
  {
  }

  // -------------------------------------------------------------------- histories

  ghost predicate MovesAt(cfg: Config, ws: seq<World>, steps: seq<Step>, k: nat)
    requires k < |steps| < |ws|
  {
    Moves(cfg, ws[k], ws[k + 1], steps[k])
  }

  /** A run, as far as its past is concerned. */
  ghost predicate Traced(cfg: Config, ws: seq<World>, steps: seq<Step>) {
    && |ws| == |steps| + 1
    && ws[0].pass.None? && ws[0].store.holds == map[]
    && forall k :: 0 <= k < |steps| ==> MovesAt(cfg, ws, steps, k)
  }

  lemma RunTraced(cfg: Config, ws: seq<World>, steps: seq<Step>)
    requires Run(cfg, ws, steps)
    ensures Traced(cfg, ws, steps)
  {
    forall k | 0 <= k < |steps| ensures MovesAt(cfg, ws, steps, k) {
      RunKeepsGood(cfg, ws, steps, k);
      StepMoves(cfg, ws[k], steps[k]);
    }
  }

  /** The n-th state is in the pass that step b began. */
  ghost predicate InPass(steps: seq<Step>, b: nat, n: nat) {
    b < n <= |steps| && steps[b].BeginPass? && forall k :: b < k < n ==> !steps[k].EndPass?
  }

  lemma {:induction false} TimeGoesOn(cfg: Config, ws: seq<World>, steps: seq<Step>, i: nat, j: nat)
    requires Traced(cfg, ws, steps) && i <= j < |ws|
    ensures ws[i].clock <= ws[j].clock && ws[i].minted <= ws[j].minted
    decreases j - i
  {
    if i < j {
      TimeGoesOn(cfg, ws, steps, i, j - 1);
      assert MovesAt(cfg, ws, steps, j - 1);
    }
  }

  /** What a pass still has to do is what it read when it began. */
  lemma {:induction false} PassActsOnItsRead(cfg: Config, ws: seq<World>, steps: seq<Step>, b: nat, n: nat)
    requires Traced(cfg, ws, steps) && InPass(steps, b, n)
    ensures ws[n].pass.Some? && ws[n].pass.value.now == steps[b].at == ws[b + 1].clock
    ensures var todo := ws[n].pass.value.todo;
            && (forall i :: 0 <= i < |todo| ==>
                  IsCandidate(ws[b].store, todo[i].res) && todo[i] == Snapshot(ws[b].store, todo[i].res))
            && (forall i, j :: 0 <= i < j < |todo| ==> todo[i].res != todo[j].res)
    decreases n
  {
    assert MovesAt(cfg, ws, steps, n - 1);
    if b < n - 1 {
      PassActsOnItsRead(cfg, ws, steps, b, n - 1);
    } else {
      assert ws[n].pass.value.todo == steps[b].candidates;
    }
  }

  /** Every pass began. */
  lemma {:induction false} PassBegan(cfg: Config, ws: seq<World>, steps: seq<Step>, n: nat) returns (b: nat)
    requires Traced(cfg, ws, steps) && n < |ws| && ws[n].pass.Some?
    ensures InPass(steps, b, n)
    decreases n
  {
    assert MovesAt(cfg, ws, steps, n - 1);
    if steps[n - 1].BeginPass? {
      b := n - 1;
    } else {
      b := PassBegan(cfg, ws, steps, n - 1);
    }
  }

  /** A pass steps each reservation once. */
  lemma {:induction false} SteppedOnce(cfg: Config, ws: seq<World>, steps: seq<Step>, b: nat, s: nat, n: nat, id: Id)
    requires Traced(cfg, ws, steps) && b < s < n && InPass(steps, b, n)
    requires steps[s].PassStep? && ws[s].pass.Some? && ws[s].pass.value.todo != [] && ws[s].pass.value.todo[0].res == id
    ensures ws[n].pass.Some? && forall i :: 0 <= i < |ws[n].pass.value.todo| ==> ws[n].pass.value.todo[i].res != id
    decreases n
  {
    assert MovesAt(cfg, ws, steps, n - 1);
    PassActsOnItsRead(cfg, ws, steps, b, n - 1);
    if s < n - 1 {
      SteppedOnce(cfg, ws, steps, b, s, n - 1, id);
    }
  }

  /** A row that is still there was there all along, on the same item. */
  lemma {:induction false} SameRow(cfg: Config, ws: seq<World>, steps: seq<Step>, i: nat, k: nat, j: nat, id: Id)
    requires Traced(cfg, ws, steps) && i <= k <= j < |ws|
    requires id in ws[i].store.holds && id < ws[i].minted && id in ws[j].store.holds
    ensures id in ws[k].store.holds && ws[k].store.holds[id].item == ws[j].store.holds[id].item
    decreases j
  {
    if k < j {
      assert MovesAt(cfg, ws, steps, j - 1);
      assert RowMoves(cfg, ws[j - 1], ws[j], steps[j - 1], id);
      TimeGoesOn(cfg, ws, steps, i, j - 1);
      SameRow(cfg, ws, steps, i, k, j - 1, id);
    }
  }

  lemma RowKnown(cfg: Config, ws: seq<World>, steps: seq<Step>, n: nat, id: Id)
    requires Traced(cfg, ws, steps) && n < |ws| && id in ws[n].store.holds
    ensures n > 0 && id < ws[n].minted && ws[n].store.holds[id].item in ws[n].store.items
    ensures ws[n].store.holds[id].row.lastActivityAt <= ws[n].clock && ws[n].store.holds[id].row.stateAt <= ws[n].clock
  {
    assert MovesAt(cfg, ws, steps, n - 1);
    assert RowMoves(cfg, ws[n - 1], ws[n], steps[n - 1], id);
  }

  lemma {:induction false} TermsStay(cfg: Config, ws: seq<World>, steps: seq<Step>, i: nat, j: nat, item: Id)
    requires Traced(cfg, ws, steps) && i <= j < |ws| && item in ws[i].store.items
    ensures item in ws[j].store.items && ws[j].store.items[item].decayDays == ws[i].store.items[item].decayDays
    decreases j - i
  {
    if i < j {
      TermsStay(cfg, ws, steps, i, j - 1, item);
      assert MovesAt(cfg, ws, steps, j - 1);
    }
  }

  /** Whenever a live reservation's item is on the list, all the time the item spent
      archived came before the reservation's last activity. */
  lemma {:induction false} ActivityAfterArchive(cfg: Config, ws: seq<World>, steps: seq<Step>, n: nat, k: nat, id: Id)
    requires Traced(cfg, ws, steps) && k < n < |ws| && id in ws[n].store.holds
    requires LiveReservation(ws[n].store.holds[id].row)
    requires !ArchivedAt(ws[n], ws[n].store.holds[id].item) && ArchivedAt(ws[k], ws[n].store.holds[id].item)
    ensures ws[k + 1].clock <= ws[n].store.holds[id].row.lastActivityAt
    decreases n
  {
    assert MovesAt(cfg, ws, steps, n - 1);
    assert RowMoves(cfg, ws[n - 1], ws[n], steps[n - 1], id);
    TimeGoesOn(cfg, ws, steps, k + 1, n);
    if id in ws[n - 1].store.holds && !ArchivedAt(ws[n - 1], ws[n].store.holds[id].item) {
      RowKnown(cfg, ws, steps, n - 1, id);
      ActivityAfterArchive(cfg, ws, steps, n - 1, k, id);
    }
  }

  // ------------------------------------------------------------------- reminders

  /** A reservation is chased. */
  ghost predicate Chases(w: World, w': World, id: Id) {
    StateOf(w, id) == Some(Active) && StateOf(w', id) == Some(ReserverNotified)
  }

  /** A chased reservation expires. */
  ghost predicate ExpiresReminded(w: World, w': World, id: Id) {
    StateOf(w, id) == Some(ReserverNotified) && StateOf(w', id) == Some(Expired)
  }

  /** A reminder is sent by a pass that had read the row active and due, and is stamped
      with the time of that read. */
  lemma ChasedByItsPass(cfg: Config, ws: seq<World>, steps: seq<Step>, n: nat, id: Id) returns (b: nat)
    requires Traced(cfg, ws, steps) && n < |steps| && Chases(ws[n], ws[n + 1], id)
    ensures InPass(steps, b, n) && ReadDue(cfg, ws, steps, b, n, id)
  {
    assert MovesAt(cfg, ws, steps, n);
    assert RowMoves(cfg, ws[n], ws[n + 1], steps[n], id);
    b := PassBegan(cfg, ws, steps, n);
    ReadWhenDue(cfg, ws, steps, b, n, id);
  }

  ghost predicate ReadDue(cfg: Config, ws: seq<World>, steps: seq<Step>, b: nat, n: nat, id: Id)
    requires b < n < |steps| < |ws|
  {
    && steps[n].PassStep? && ws[n].pass.Some? && ws[n].pass.value.todo != [] && ws[n].pass.value.todo[0].res == id
    && id in ws[n].store.holds && id in ws[n + 1].store.holds && IsCandidate(ws[b].store, id)
    && ws[b].store.holds[id].item == ws[n].store.holds[id].item == ws[n + 1].store.holds[id].item
    && ws[b].store.holds[id].row.state == Active && DecayDue(cfg, steps[b].at, Snapshot(ws[b].store, id))
    && ws[n + 1].store.holds[id].row.stateAt == steps[b].at == ws[b + 1].clock
    && ws[n + 1].store.holds[id].row.lastActivityAt == ws[n].store.holds[id].row.lastActivityAt
    && id in ws[n + 1].noticed && ws[n + 1].noticed[id].at == steps[b].at
    && ws[n + 1].noticed[id].lastActivityAt == ws[b].store.holds[id].row.lastActivityAt
  }

  lemma ReadWhenDue(cfg: Config, ws: seq<World>, steps: seq<Step>, b: nat, n: nat, id: Id)
    requires Traced(cfg, ws, steps) && n < |steps| && Chases(ws[n], ws[n + 1], id) && InPass(steps, b, n)
    ensures ReadDue(cfg, ws, steps, b, n, id)
  {
    assert MovesAt(cfg, ws, steps, n);
    assert RowMoves(cfg, ws[n], ws[n + 1], steps[n], id);
    PassActsOnItsRead(cfg, ws, steps, b, n);
    assert ws[n].pass.value.todo[0] == Snapshot(ws[b].store, id);
    RowKnown(cfg, ws, steps, b, id);
    SameRow(cfg, ws, steps, b, b, n, id);
  }

  /** The row of a later reminder's pass stays active until it is stepped; meanwhile only
      an un-archive can restart its clocks. */
  lemma {:induction false} ActiveUntilChased(
    cfg: Config, ws: seq<World>, steps: seq<Step>, b: nat, k: nat, n: nat, id: Id)
    requires Traced(cfg, ws, steps) && n < |steps| && Chases(ws[n], ws[n + 1], id) && InPass(steps, b, n) && b <= k <= n
    ensures StateOf(ws[k], id) == Some(Active) && ws[k].store.holds[id].item == ws[n].store.holds[id].item
    ensures var item, row, read := ws[n].store.holds[id].item, ws[k].store.holds[id].row, ws[b].store.holds;
            id in read &&
            if NoRestart(ws, steps, b, k, item) then row.lastActivityAt == read[id].row.lastActivityAt
            else row.lastActivityAt >= steps[b].at
    decreases k
  {
    ReadWhenDue(cfg, ws, steps, b, n, id);
    RowKnown(cfg, ws, steps, b, id);
    SameRow(cfg, ws, steps, b, k, n, id);
    if b < k {
      ActiveUntilChased(cfg, ws, steps, b, k - 1, n, id);
      assert MovesAt(cfg, ws, steps, k - 1);
      assert RowMoves(cfg, ws[k - 1], ws[k], steps[k - 1], id);
      TimeGoesOn(cfg, ws, steps, b + 1, k);
      if b < k - 1 && steps[k - 1].PassStep? && ws[k - 1].pass.value.todo[0].res == id {
        SteppedOnce(cfg, ws, steps, b, k - 1, n, id);
        assert false;
      }
      NoRestartGrows(ws, steps, b, k, ws[n].store.holds[id].item);
    }
  }

  ghost predicate NoRestart(ws: seq<World>, steps: seq<Step>, i: nat, j: nat, item: Id)
    requires j <= |steps| < |ws|
  {
    forall u :: i <= u < j ==> !Restarts(ws[u], steps[u], item)
  }

  lemma NoRestartGrows(ws: seq<World>, steps: seq<Step>, i: nat, j: nat, item: Id)
    requires i < j <= |steps| < |ws|
    ensures NoRestart(ws, steps, i, j, item) <==>
              NoRestart(ws, steps, i, j - 1, item) && !Restarts(ws[j - 1], steps[j - 1], item)
  {
  }

  /** Archived time is never counted toward a reminder, as of the time it is stamped
      with: over the whole decay period before the pass's read the item was not
      archived, however long before its step the pass read the row. */
  lemma ArchiveNeverChased(cfg: Config, ws: seq<World>, steps: seq<Step>, n: nat, id: Id) returns (b: nat)
    requires Run(cfg, ws, steps) && n < |steps| && Chases(ws[n], ws[n + 1], id)
    ensures InPass(steps, b, n) && steps[n].PassStep? && ws[n + 1].store.holds[id].row.stateAt == steps[b].at
    ensures var item := ws[n].store.holds[id].item;
            item in ws[n].store.items &&
            forall k :: 0 <= k <= b && ArchivedAt(ws[k], item) ==>
              steps[b].at - ws[k + 1].clock >= DaysDuration(DaysFor(cfg, ws[n].store, item))
  {
    RunTraced(cfg, ws, steps);
    b := ChasedByItsPass(cfg, ws, steps, n, id);
    var item := ws[n].store.holds[id].item;
    TermsStay(cfg, ws, steps, b, n, item);
    RowKnown(cfg, ws, steps, b, id);
    forall k | 0 <= k <= b && ArchivedAt(ws[k], item)
      ensures steps[b].at - ws[k + 1].clock >= DaysDuration(DaysFor(cfg, ws[n].store, item))
    {
      ActivityAfterArchive(cfg, ws, steps, b, k, id);
      TimeGoesOn(cfg, ws, steps, b, b + 1);
    }
  }

  /** In some state after step i, up to step j, the item was archived, and still was at
      some time after an instant. */
  ghost predicate ArchivedPast(ws: seq<World>, i: int, j: nat, item: Id, since: Time)
    requires -1 <= i && j + 1 < |ws|
  {
    exists k :: i < k <= j && ArchivedAt(ws[k], item) && ws[k + 1].clock > since
  }

  /** The item was archived in some state after step i, up to step j. */
  ghost predicate ArchivedBetween(ws: seq<World>, i: nat, j: nat, item: Id)
    requires j < |ws|
  {
    exists k :: i < k <= j && ArchivedAt(ws[k], item)
  }

  /** Taken to the moment the reminder goes out, archived time is counted -- some of the
      time since the activity it is based on was spent archived -- if and only if the
      item was archived between the pass's read and the reminder. */
  lemma ReminderCountsArchiveIff(cfg: Config, ws: seq<World>, steps: seq<Step>, b: nat, n: nat, id: Id)
    requires Run(cfg, ws, steps) && n < |steps| && Chases(ws[n], ws[n + 1], id) && InPass(steps, b, n)
    requires id in ws[n].store.holds && ws[n].store.holds[id].item in ws[n].store.items
    requires DaysDuration(DaysFor(cfg, ws[n].store, ws[n].store.holds[id].item)) > 0
    ensures id in ws[b].store.holds
    ensures var item := ws[n].store.holds[id].item;
            ArchivedPast(ws, -1, n, item, ws[b].store.holds[id].row.lastActivityAt) <==> ArchivedBetween(ws, b, n, item)
  {
    RunTraced(cfg, ws, steps);
    ReadWhenDue(cfg, ws, steps, b, n, id);
    RowKnown(cfg, ws, steps, b, id);
    var item, since := ws[n].store.holds[id].item, ws[b].store.holds[id].row.lastActivityAt;
    TermsStay(cfg, ws, steps, b, n, item);
    TimeGoesOn(cfg, ws, steps, b, b + 1);
    if ArchivedPast(ws, -1, n, item, since) {
      var k :| -1 < k <= n && ArchivedAt(ws[k], item) && ws[k + 1].clock > since;
      if k < b {
        ActivityAfterArchive(cfg, ws, steps, b, k, id);
      }
      assert b < k;
    }
    if ArchivedBetween(ws, b, n, item) {
      var k :| b < k <= n && ArchivedAt(ws[k], item);
      TimeGoesOn(cfg, ws, steps, b + 1, k + 1);
      assert ws[k + 1].clock > since;
    }
  }

  // -------------------------------------------------------------------- expiries

  /** The reminder a notified row had: read by the pass begun in step a, sent in step s,
      and outstanding ever since. */
  ghost predicate RemindedAt(ws: seq<World>, steps: seq<Step>, a: nat, s: nat, n: nat, id: Id)
    requires |steps| < |ws|
  {
    a < s < n <= |steps| && InPass(steps, a, s) && Chases(ws[s], ws[s + 1], id) && Outstanding(ws, s, n, id)
  }

  ghost predicate Outstanding(ws: seq<World>, s: nat, n: nat, id: Id)
    requires s < n < |ws|
  {
    && (forall k :: s < k <= n ==> StateOf(ws[k], id) == Some(ReserverNotified))
    && id in ws[s + 1].store.holds && id in ws[n].store.holds
  }

  lemma {:induction false} LastReminder(cfg: Config, ws: seq<World>, steps: seq<Step>, n: nat, id: Id)
    returns (a: nat, s: nat)
    requires Traced(cfg, ws, steps) && n < |ws| && StateOf(ws[n], id) == Some(ReserverNotified)
    ensures RemindedAt(ws, steps, a, s, n, id) && ReadDue(cfg, ws, steps, a, s, id)
    ensures id in ws[n].noticed && ws[n].noticed[id] == ws[s + 1].noticed[id]
    ensures ws[n].store.holds[id].item == ws[s].store.holds[id].item
    decreases n
  {
    RemindedBefore(cfg, ws, steps, n, id);
    if StateOf(ws[n - 1], id) == Some(ReserverNotified) {
      a, s := LastReminder(cfg, ws, steps, n - 1, id);
      RemindedStill(ws, steps, a, s, n, id);
    } else {
      s := n - 1;
      a := ChasedByItsPass(cfg, ws, steps, s, id);
    }
  }

  lemma RemindedStill(ws: seq<World>, steps: seq<Step>, a: nat, s: nat, n: nat, id: Id)
    requires 0 < n <= |steps| < |ws| && RemindedAt(ws, steps, a, s, n - 1, id)
    requires StateOf(ws[n], id) == Some(ReserverNotified)
    ensures RemindedAt(ws, steps, a, s, n, id)
  {
  }

  /** A notified row was notified one step before, by the same reminder, or was chased by
      that step. */
  lemma RemindedBefore(cfg: Config, ws: seq<World>, steps: seq<Step>, n: nat, id: Id)
    requires Traced(cfg, ws, steps) && n < |ws| && StateOf(ws[n], id) == Some(ReserverNotified)
    ensures n > 0 && id in ws[n - 1].store.holds && id in ws[n].noticed
    ensures ws[n].store.holds[id].item == ws[n - 1].store.holds[id].item
    ensures if StateOf(ws[n - 1], id) == Some(ReserverNotified)
            then id in ws[n - 1].noticed && ws[n].noticed[id] == ws[n - 1].noticed[id]
            else Chases(ws[n - 1], ws[n], id)
  {
    RowKnown(cfg, ws, steps, n, id);
    assert MovesAt(cfg, ws, steps, n - 1);
    assert RowMoves(cfg, ws[n - 1], ws[n], steps[n - 1], id);
  }

  /** While a reminder is outstanding only an un-archive changes the row's clocks. */
  lemma {:induction false} ClocksWhileReminded(cfg: Config, ws: seq<World>, steps: seq<Step>, s: nat, n: nat, id: Id)
    requires Traced(cfg, ws, steps) && s < n < |ws|
    requires Outstanding(ws, s, n, id)
    ensures var h, h' := ws[s + 1].store.holds[id], ws[n].store.holds[id];
            && h'.item == h.item
            && if NoRestart(ws, steps, s + 1, n, h.item)
               then h'.row.stateAt == h.row.stateAt && h'.row.lastActivityAt == h.row.lastActivityAt
               else h'.row.stateAt == h'.row.lastActivityAt >= ws[s + 1].clock
    decreases n
  {
    if s + 1 < n {
      ClocksWhileReminded(cfg, ws, steps, s, n - 1, id);
      assert MovesAt(cfg, ws, steps, n - 1);
      assert RowMoves(cfg, ws[n - 1], ws[n], steps[n - 1], id);
      TimeGoesOn(cfg, ws, steps, s + 1, n);
      NoRestartGrows(ws, steps, s + 1, n, ws[s + 1].store.holds[id].item);
    }
  }

  /** Whenever the item is on the list, the time it spent archived since the reminder
      went out came before the row's state clock. */
  lemma {:induction false} StateAfterArchive(
    cfg: Config, ws: seq<World>, steps: seq<Step>, s: nat, n: nat, k: nat, id: Id)
    requires Traced(cfg, ws, steps) && s < k < n < |ws|
    requires Outstanding(ws, s, n, id)
    requires !ArchivedAt(ws[n], ws[n].store.holds[id].item) && ArchivedAt(ws[k], ws[n].store.holds[id].item)
    ensures ws[k + 1].clock <= ws[n].store.holds[id].row.stateAt
    decreases n
  {
    assert StateOf(ws[n - 1], id) == Some(ReserverNotified);
    assert MovesAt(cfg, ws, steps, n - 1);
    assert RowMoves(cfg, ws[n - 1], ws[n], steps[n - 1], id);
    TimeGoesOn(cfg, ws, steps, k + 1, n);
    if !ArchivedAt(ws[n - 1], ws[n].store.holds[id].item) {
      StateAfterArchive(cfg, ws, steps, s, n - 1, k, id);
    }
  }

  /** An expiry is made by a pass that had read the row notified, and due by the state
      clock it read. */
  ghost predicate ReadOverdue(cfg: Config, ws: seq<World>, steps: seq<Step>, b: nat, n: nat, id: Id)
    requires b < n < |steps| < |ws|
  {
    && steps[n].PassStep? && ws[n].pass.Some? && ws[n].pass.value.todo != [] && ws[n].pass.value.todo[0].res == id
    && id in ws[n].store.holds && IsCandidate(ws[b].store, id)
    && ws[b].store.holds[id].item == ws[n].store.holds[id].item
    && ws[b].store.holds[id].row.state == ReserverNotified
    && ws[n].pass.value.now == steps[b].at == ws[b + 1].clock
    && steps[b].at - ws[b].store.holds[id].row.stateAt >= cfg.responseWindow
  }

  lemma ReadWhenOverdue(cfg: Config, ws: seq<World>, steps: seq<Step>, b: nat, n: nat, id: Id)
    requires Traced(cfg, ws, steps) && n < |steps| && ExpiresReminded(ws[n], ws[n + 1], id) && InPass(steps, b, n)
    requires FitsInt64(cfg.responseWindow)
    ensures ReadOverdue(cfg, ws, steps, b, n, id)
  {
    assert MovesAt(cfg, ws, steps, n);
    assert RowMoves(cfg, ws[n], ws[n + 1], steps[n], id);
    PassActsOnItsRead(cfg, ws, steps, b, n);
    assert ws[n].pass.value.todo[0] == Snapshot(ws[b].store, id);
    RowKnown(cfg, ws, steps, b, id);
    SameRow(cfg, ws, steps, b, b, n, id);
    TimeGoesOn(cfg, ws, steps, b, b + 1);
  }

  lemma ExpiredByAPass(cfg: Config, ws: seq<World>, steps: seq<Step>, n: nat, id: Id) returns (b: nat)
    requires Traced(cfg, ws, steps) && n < |steps| && ExpiresReminded(ws[n], ws[n + 1], id)
    ensures InPass(steps, b, n)
  {
    assert MovesAt(cfg, ws, steps, n);
    assert RowMoves(cfg, ws[n], ws[n + 1], steps[n], id);
    b := PassBegan(cfg, ws, steps, n);
  }

  /** The reminder had gone out before the expiring pass began. */
  lemma RemindedBeforePass(cfg: Config, ws: seq<World>, steps: seq<Step>, a: nat, s: nat, b: nat, n: nat, id: Id)
    requires Traced(cfg, ws, steps) && n < |steps| && InPass(steps, b, n) && ReadOverdue(cfg, ws, steps, b, n, id)
    requires RemindedAt(ws, steps, a, s, n, id)
    ensures s < b && RemindedAt(ws, steps, a, s, b, id)
  {
    if b <= s {
      ReadWhenDue(cfg, ws, steps, a, s, id);
      if b < s {
        SteppedOnce(cfg, ws, steps, b, s, n, id);
      }
      assert false;
    }
  }

  /** Archived time is counted toward an expiry only when it came between a pass's read
      and its step: of the expiring pass, or of the pass that sent the reminder. Over
      the rest of the whole response window before the expiring pass's read the item
      was not archived. */
  lemma ArchiveNeverExpires(cfg: Config, ws: seq<World>, steps: seq<Step>, n: nat, id: Id)
    returns (a: nat, s: nat, b: nat)
    requires Run(cfg, ws, steps) && n < |steps| && ExpiresReminded(ws[n], ws[n + 1], id)
    requires FitsInt64(cfg.responseWindow)
    ensures RemindedAt(ws, steps, a, s, n, id) && s < b && InPass(steps, b, n)
    ensures var item := ws[n].store.holds[id].item;
            forall k :: 0 <= k <= n && ArchivedAt(ws[k], item) && !(a < k <= s) && !(b < k <= n) ==>
              steps[b].at - ws[k + 1].clock >= cfg.responseWindow
  {
    RunTraced(cfg, ws, steps);
    a, s := LastReminder(cfg, ws, steps, n, id);
    b := ExpiredByAPass(cfg, ws, steps, n, id);
    ReadWhenOverdue(cfg, ws, steps, b, n, id);
    RemindedBeforePass(cfg, ws, steps, a, s, b, n, id);
    var item := ws[n].store.holds[id].item;
    forall k | 0 <= k <= n && ArchivedAt(ws[k], item) && !(a < k <= s) && !(b < k <= n)
      ensures steps[b].at - ws[k + 1].clock >= cfg.responseWindow
    {
      EarlierArchiveEnded(cfg, ws, steps, a, s, b, n, k, id);
    }
  }

  lemma EarlierArchiveEnded(
    cfg: Config, ws: seq<World>, steps: seq<Step>, a: nat, s: nat, b: nat, n: nat, k: nat, id: Id)
    requires Traced(cfg, ws, steps) && n < |steps| && InPass(steps, b, n) && ReadOverdue(cfg, ws, steps, b, n, id)
    requires s < b && RemindedAt(ws, steps, a, s, b, id)
    requires k <= b && !(a < k <= s) && ArchivedAt(ws[k], ws[n].store.holds[id].item)
    ensures ws[k + 1].clock <= ws[b].store.holds[id].row.stateAt
  {
    ReadWhenDue(cfg, ws, steps, a, s, id);
    ClocksWhileReminded(cfg, ws, steps, s, b, id);
    if k <= a {
      RowKnown(cfg, ws, steps, a, id);
      ActivityAfterArchive(cfg, ws, steps, a, k, id);
      TimeGoesOn(cfg, ws, steps, a, a + 1);
      TimeGoesOn(cfg, ws, steps, a + 1, s + 1);
    } else {
      StateAfterArchive(cfg, ws, steps, s, b, k, id);
    }
  }

  /** Taken to the moment of the expiry, some of the time since the state clock the pass
      read was spent archived if and only if the item was archived between that read and
      the expiry, or between the reminder's read and the reminder for longer than that
      clock -- which is the reminder's, unless an un-archive has restarted it since. */
  lemma ExpiryCountsArchiveIff(cfg: Config, ws: seq<World>, steps: seq<Step>, a: nat, s: nat, b: nat, n: nat, id: Id)
    requires Run(cfg, ws, steps) && n < |steps| && ExpiresReminded(ws[n], ws[n + 1], id)
    requires FitsInt64(cfg.responseWindow) && cfg.responseWindow > 0
    requires RemindedAt(ws, steps, a, s, n, id) && InPass(steps, b, n)
    ensures s < b && StateOf(ws[b], id) == Some(ReserverNotified)
    ensures var item, since := ws[n].store.holds[id].item, ws[b].store.holds[id].row.stateAt;
            && (ArchivedPast(ws, -1, n, item, since) <==>
                  ArchivedBetween(ws, b, n, item) || ArchivedPast(ws, a, s, item, since))
            && (NoRestart(ws, steps, s, b, item) ==> since == steps[a].at)
            && (!NoRestart(ws, steps, s, b, item) ==> !ArchivedPast(ws, a, s, item, since))
  {
    RunTraced(cfg, ws, steps);
    ReadWhenOverdue(cfg, ws, steps, b, n, id);
    RemindedBeforePass(cfg, ws, steps, a, s, b, n, id);
    RestartForgetsReminder(cfg, ws, steps, a, s, b, id);
    var item, since := ws[n].store.holds[id].item, ws[b].store.holds[id].row.stateAt;
    ReadWhenDue(cfg, ws, steps, a, s, id);
    ClocksWhileReminded(cfg, ws, steps, s, b, id);
    if ArchivedPast(ws, -1, n, item, since) {
      var k :| -1 < k <= n && ArchivedAt(ws[k], item) && ws[k + 1].clock > since;
      if k <= b && !(a < k <= s) {
        EarlierArchiveEnded(cfg, ws, steps, a, s, b, n, k, id);
      }
    }
    if ArchivedBetween(ws, b, n, item) {
      var k :| b < k <= n && ArchivedAt(ws[k], item);
      TimeGoesOn(cfg, ws, steps, b + 1, k + 1);
      assert ws[k + 1].clock > since;
    }
  }

  lemma RestartForgetsReminder(cfg: Config, ws: seq<World>, steps: seq<Step>, a: nat, s: nat, b: nat, id: Id)
    requires Traced(cfg, ws, steps) && RemindedAt(ws, steps, a, s, b, id)
    ensures var h := ws[b].store.holds[id];
            && (NoRestart(ws, steps, s, b, h.item) ==> h.row.stateAt == steps[a].at)
            && (!NoRestart(ws, steps, s, b, h.item) ==> !ArchivedPast(ws, a, s, h.item, h.row.stateAt))
  {
    var h := ws[b].store.holds[id];
    ReadWhenDue(cfg, ws, steps, a, s, id);
    ClocksWhileReminded(cfg, ws, steps, s, b, id);
    assert !Restarts(ws[s], steps[s], h.item);
    if !NoRestart(ws, steps, s, b, h.item) && ArchivedPast(ws, a, s, h.item, h.row.stateAt) {
      var k :| a < k <= s && ArchivedAt(ws[k], h.item) && ws[k + 1].clock > h.row.stateAt;
      TimeGoesOn(cfg, ws, steps, k + 1, s + 1);
      assert false;
    }
  }

  /** No silent expiry: a chased reservation expires only in a sweep, after a reminder
      that the mail server accepted and whose keep and release tokens are the stored
      ones. The pass that sent it had read the row active, at the time the reminder is
      stamped with and at least the list's decay period after the activity it read; and
      at least the response window has passed since that time. */
  lemma NoSilentExpiry(cfg: Config, ws: seq<World>, steps: seq<Step>, n: nat, id: Id)
    returns (m: Reminder, a: nat, s: nat)
    requires Run(cfg, ws, steps) && n < |steps| && ExpiresReminded(ws[n], ws[n + 1], id)
    requires FitsInt64(cfg.responseWindow)
    ensures m in ws[n].sent && m.res == id
    ensures steps[n].PassStep? && ws[n].pass.Some? && ws[n].pass.value.now - m.at >= cfg.responseWindow
    ensures var h := ws[n].store.holds[id];
            && h.row.keepHash == Sha(m.keep) && h.row.releaseHash == Sha(m.release)
            && h.item in ws[n].store.items
            && m.days == DaysFor(cfg, ws[n].store, h.item) && m.days > 0
            && m.at - m.lastActivityAt >= DaysDuration(m.days)
    ensures RemindedAt(ws, steps, a, s, n, id) && m.at == steps[a].at == ws[a + 1].clock
    ensures StateOf(ws[a], id) == Some(Active) && ws[a].store.holds[id].row.lastActivityAt == m.lastActivityAt
  {
    RunTraced(cfg, ws, steps);
    RunKeepsGood(cfg, ws, steps, n);
    assert HoldOk(cfg, ws[n], id);
    m := ws[n].noticed[id];
    a, s := LastReminder(cfg, ws, steps, n, id);
    var b := ExpiredByAPass(cfg, ws, steps, n, id);
    ReadWhenOverdue(cfg, ws, steps, b, n, id);
    RemindedBeforePass(cfg, ws, steps, a, s, b, n, id);
    ClocksWhileReminded(cfg, ws, steps, s, b, id);
    ReadWhenDue(cfg, ws, steps, a, s, id);
    TimeGoesOn(cfg, ws, steps, a + 1, s + 1);
  }

  /** The stored columns of a chased row show its decay period -- its state clock is at
      least the period after its activity -- if and only if its item was not un-archived
      since the reminder's pass read it; they are then the times of that read. */
  lemma StoredClocksShowPeriodIff(cfg: Config, ws: seq<World>, steps: seq<Step>, a: nat, s: nat, n: nat, id: Id)
    requires Run(cfg, ws, steps) && RemindedAt(ws, steps, a, s, n, id)
    requires id in ws[n].store.holds && ws[n].store.holds[id].item in ws[n].store.items
    requires DaysDuration(DaysFor(cfg, ws[n].store, ws[n].store.holds[id].item)) > 0
    ensures id in ws[a].store.holds
    ensures var h := ws[n].store.holds[id];
            && (h.row.stateAt - h.row.lastActivityAt >= DaysDuration(DaysFor(cfg, ws[n].store, h.item)) <==>
                  NoRestart(ws, steps, a, n, h.item))
            && (NoRestart(ws, steps, a, n, h.item) ==>
                  h.row.stateAt == steps[a].at && h.row.lastActivityAt == ws[a].store.holds[id].row.lastActivityAt)
  {
    RunTraced(cfg, ws, steps);
    ReadWhenDue(cfg, ws, steps, a, s, id);
    RowKnown(cfg, ws, steps, a, id);
    ActiveUntilChased(cfg, ws, steps, a, s, s, id);
    ClocksWhileReminded(cfg, ws, steps, s, n, id);
    var h := ws[n].store.holds[id];
    TermsStay(cfg, ws, steps, a, n, h.item);
    TimeGoesOn(cfg, ws, steps, a, a + 1);
    assert !Restarts(ws[s], steps[s], h.item);
    assert NoRestart(ws, steps, a, n, h.item) <==>
           NoRestart(ws, steps, a, s, h.item) && NoRestart(ws, steps, s + 1, n, h.item);
  }
}
