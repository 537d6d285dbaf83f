/** Two runs in which a sweep acts on an old read: time an item spent archived counts
    against its reservation. */
module StaleSweep {
  import opened Prelude
  import opened Reservations
  import opened Decay
  import opened DecayRuns
  import opened SweepHistory

  /** One day of decay, one of response. */
  const DAILY: Config := Config(1, DAY, 0)

  /** A world with one item, perhaps reserved, perhaps chased. */
  function Shelf(
    row: Option<Reservation>, archived: bool, clock: Time, minted: nat, pass: Option<Pass>,
    sent: seq<Reminder>): World
  {
    World(
      Store(if row.Some? then map[0 := Hold(0, row.value)] else map[], map[0 := ItemRow(archived, true, None, None)]),
      clock, minted, pass, sent, if sent == [] then map[] else map[0 := sent[0]], map[])
  }

  const RESERVE: Step := ReserveStep(Guest, 1, Some("giver"), 0, 0)

  function Row(): Reservation {
    NewReservation(Guest, 0, 1, Some("giver"), 1, 0)
  }

  /** The row as a pass reads it. */
  function Read(row: Reservation): Candidate {
    Candidate(0, row.giverEmail, row.state, row.lastActivityAt, row.stateAt, None, None)
  }

  function Chased(row: Reservation): Reservation {
    row.(state := ReserverNotified, stateAt := DAY, keepHash := Sha(2), releaseHash := Sha(3))
  }

  function Sending(): Reminder {
    Reminder(0, DAY, 2, 3, 1, 0, 0)
  }

  lemma BeginReads(row: Reservation, clock: Time, minted: nat, sent: seq<Reminder>, at: Time)
    requires LiveReservation(row) && clock <= at
    ensures var w, step := Shelf(Some(row), false, clock, minted, None, sent), BeginPass([Read(row)], at);
            Enabled(w, step) &&
            Next(DAILY, w, step) == Shelf(Some(row), false, at, minted, Some(Pass(at, [Read(row)])), sent)
  {
    assert [Read(row)][0].res == 0;
  }

  lemma StepReminds(row: Reservation, archived: bool, clock: Time, at: Time)
    requires row.state == Active && clock <= at
    ensures var w, step := Shelf(Some(row), archived, clock, 2, Some(Pass(DAY, [Read(Row())])), []), PassStep(true, at);
            Enabled(w, step) &&
            Next(DAILY, w, step) == Shelf(Some(Chased(row)), archived, at, 4, Some(Pass(DAY, [])), [Sending()])
  {
    assert Sub(DAY, 0) == DAY == DaysDuration(1);
    assert [Read(Row())][1..] == [];
    var w := Shelf(Some(row), archived, clock, 2, Some(Pass(DAY, [Read(Row())])), []);
    assert MoveOf(DAILY, DAY, Read(Row()), true, 2, 3) == Some(Notify(Sha(2), Sha(3)));
    assert ApplyMove(w.store.holds, 0, Some(Notify(Sha(2), Sha(3))), DAY) == map[0 := Hold(0, Chased(row))];
  }

  function Lapsed(row: Reservation): Reservation {
    row.(state := Expired, stateAt := 2 * DAY)
  }

  lemma StepExpires(row: Reservation)
    requires row.state == ReserverNotified && row.stateAt == DAY
    ensures var now, sent := 2 * DAY, [Sending()];
            var w, step := Shelf(Some(row), false, now, 4, Some(Pass(now, [Read(row)])), sent), PassStep(true, now);
            Enabled(w, step) &&
            Next(DAILY, w, step) == Shelf(Some(Lapsed(row)), false, now, 4, Some(Pass(now, [])), sent)
  {
    assert Sub(2 * DAY, DAY) == DAY && Decide(DAILY, 2 * DAY, Read(row)) == ExpireReminded;
    assert [Read(row)][1..] == [];
  }

  lemma Extend(ws: seq<World>, steps: seq<Step>, step: Step, w: World)
    requires Run(DAILY, ws, steps) && Enabled(ws[|steps|], step) && w == Next(DAILY, ws[|steps|], step)
    ensures Run(DAILY, ws + [w], steps + [step])
  {
  }

  /** The item is reserved, read as due a day later, and archived before its step. */
  lemma ReadThenArchived() returns (ws: seq<World>, steps: seq<Step>)
    ensures Run(DAILY, ws, steps) && |steps| == 3
    ensures ws[2].clock == DAY && steps[1] == BeginPass([Read(Row())], DAY) && !steps[2].EndPass?
    ensures ws[3] == Shelf(Some(Row()), true, DAY, 2, Some(Pass(DAY, [Read(Row())])), [])
  {
    ws, steps := [Shelf(None, false, 0, 0, None, [])], [];
    Extend(ws, steps, RESERVE, Shelf(Some(Row()), false, 0, 2, None, []));
    ws, steps := ws + [Shelf(Some(Row()), false, 0, 2, None, [])], steps + [RESERVE];
    BeginReads(Row(), 0, 2, [], DAY);
    var pass := Some(Pass(DAY, [Read(Row())]));
    Extend(ws, steps, BeginPass([Read(Row())], DAY), Shelf(Some(Row()), false, DAY, 2, pass, []));
    ws, steps := ws + [Shelf(Some(Row()), false, DAY, 2, pass, [])], steps + [BeginPass([Read(Row())], DAY)];
    Extend(ws, steps, ArchiveStep(0, DAY), Shelf(Some(Row()), true, DAY, 2, pass, []));
    ws, steps := ws + [Shelf(Some(Row()), true, DAY, 2, pass, [])], steps + [ArchiveStep(0, DAY)];
  }

  /** The giver of an archived item is chased, at the very instant of the pass. */
  lemma RemindsOfArchivedItem() returns (ws: seq<World>, steps: seq<Step>)
    ensures Run(DAILY, ws, steps) && |steps| == 4 && InPass(steps, 1, 3)
    ensures Chases(ws[3], ws[4], 0) && ArchivedAt(ws[3], 0) && ws[4].clock == ws[2].clock
  {
    ws, steps := ReadThenArchived();
    StepReminds(Row(), true, DAY, DAY);
    var w := Shelf(Some(Chased(Row())), true, DAY, 4, Some(Pass(DAY, [])), [Sending()]);
    Extend(ws, steps, PassStep(true, DAY), w);
    ws, steps := ws + [w], steps + [PassStep(true, DAY)];
  }

  function Restarted(): Reservation {
    Row().(lastActivityAt := DAY + 5, stateAt := DAY + 5)
  }

  lemma ReadArchivedReturned() returns (ws: seq<World>, steps: seq<Step>)
    ensures Run(DAILY, ws, steps) && |steps| == 4 && ArchivedAt(ws[3], 0)
    ensures steps[1].BeginPass? && InPass(steps, 1, 4)
    ensures ws[4] == Shelf(Some(Restarted()), false, DAY + 5, 2, Some(Pass(DAY, [Read(Row())])), [])
  {
    ws, steps := ReadThenArchived();
    var back := Shelf(Some(Restarted()), false, DAY + 5, 2, Some(Pass(DAY, [Read(Row())])), []);
    assert UnarchiveIn(ws[3].store, 0, DAY + 5).holds == back.store.holds;
    Extend(ws, steps, UnarchiveStep(0, DAY + 5), back);
    ws, steps := ws + [back], steps + [UnarchiveStep(0, DAY + 5)];
  }

  /** The item comes back before the step: the reminder still goes out, and sets the
      restarted state clock back to the read. */
  lemma ChasedAfterReturn() returns (ws: seq<World>, steps: seq<Step>)
    ensures Run(DAILY, ws, steps) && |steps| == 6
    ensures ArchivedAt(ws[3], 0) && ws[4].clock == DAY + 5
    ensures InPass(steps, 1, 4) && Chases(ws[4], ws[5], 0)
    ensures ws[6] == Shelf(Some(Chased(Restarted())), false, DAY + 6, 4, None, [Sending()])
  {
    ws, steps := ReadArchivedReturned();
    StepReminds(Restarted(), false, DAY + 5, DAY + 6);
    var sent := Shelf(Some(Chased(Restarted())), false, DAY + 6, 4, Some(Pass(DAY, [])), [Sending()]);
    Extend(ws, steps, PassStep(true, DAY + 6), sent);
    ws, steps := ws + [sent], steps + [PassStep(true, DAY + 6)];
    var done := Shelf(Some(Chased(Restarted())), false, DAY + 6, 4, None, [Sending()]);
    Extend(ws, steps, EndPass(DAY + 6), done);
    ws, steps := ws + [done], steps + [EndPass(DAY + 6)];
  }

  /** The next pass reads the chased row at the end of its window, and expires it. */
  lemma ExpiredAfterReturn() returns (ws: seq<World>, steps: seq<Step>)
    ensures Run(DAILY, ws, steps) && |steps| == 8 && InPass(steps, 1, 4) && Chases(ws[4], ws[5], 0)
    ensures ArchivedAt(ws[3], 0) && !ArchivedAt(ws[7], 0) && ws[4].clock == DAY + 5
    ensures steps[6].BeginPass? && steps[6].at == 2 * DAY && ws[6].store.holds == map[0 := Hold(0, Chased(Restarted()))]
    ensures StateOf(ws[7], 0) == Some(ReserverNotified) && StateOf(ws[8], 0) == Some(Expired)
  {
    ws, steps := ChasedAfterReturn();
    var row := Chased(Restarted());
    BeginReads(row, DAY + 6, 4, [Sending()], 2 * DAY);
    var w7 := Shelf(Some(row), false, 2 * DAY, 4, Some(Pass(2 * DAY, [Read(row)])), [Sending()]);
    Extend(ws, steps, BeginPass([Read(row)], 2 * DAY), w7);
    ws, steps := ws + [w7], steps + [BeginPass([Read(row)], 2 * DAY)];
    StepExpires(row);
    var w8 := Shelf(Some(Lapsed(row)), false, 2 * DAY, 4, Some(Pass(2 * DAY, [])), [Sending()]);
    Extend(ws, steps, PassStep(true, 2 * DAY), w8);
    ws, steps := ws + [w8], steps + [PassStep(true, 2 * DAY)];
  }

  /** The reservation expires although its item was archived within the response window:
      the reminder acted on an old read, the expiry itself did not. */
  lemma StaleReminderExpiresEarly() returns (ws: seq<World>, steps: seq<Step>)
    ensures Run(DAILY, ws, steps) && |steps| == 8 && InPass(steps, 6, 7)
    ensures ExpiresReminded(ws[7], ws[8], 0) && !ArchivedBetween(ws, 6, 7, 0)
    ensures ArchivedAt(ws[3], 0) && steps[6].at - ws[4].clock < DAILY.responseWindow
    ensures RemindedAt(ws, steps, 1, 4, 7, 0) && ArchivedPast(ws, 1, 4, 0, ws[6].store.holds[0].row.stateAt)
  {
    ws, steps := ExpiredAfterReturn();
    assert StateOf(ws[5], 0) == StateOf(ws[6], 0) == StateOf(ws[7], 0) == Some(ReserverNotified);
    assert ArchivedAt(ws[3], 0) && ws[3 + 1].clock > ws[6].store.holds[0].row.stateAt;
  }
}
