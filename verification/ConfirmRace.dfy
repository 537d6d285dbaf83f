/** Many clicks on one confirm link, racing each other and the expiry sweep. A call
    is a lookup, a row-locked transition, and -- if the row had moved meanwhile -- a
    re-read; the steps of different calls interleave freely with every other
    transition of the row. */
module ConfirmRace {
  import opened Prelude
  import opened Reservations
  import Decay

  datatype Phase = SawPending | LostRace | Finished(outcome: ConfirmOutcome)

  /** `won` is the call that moved the row, with its token; `expired` records that the
      sweep moved it first. */
  datatype Race = Race(
    row: Option<Reservation>, minted: nat, calls: map<Id, Phase>, won: Option<(Id, Token)>, expired: bool)

  datatype Step =
    | Lookup(call: Id)
    | Locked(call: Id, at: Time)
    | Reread(call: Id)
    | Other(transition: Transition, at: Time)
    | Delete

  predicate Enabled(s: Race, step: Step) {
    match step
    case Lookup(call) => call !in s.calls
    case Locked(call, _) => call in s.calls && s.calls[call] == SawPending
    case Reread(call) => call in s.calls && s.calls[call] == LostRace
    case Other(t, _) => !t.ConfirmHold?
    case Delete => true
  }

  function LookupOutcome(row: Option<Reservation>): Phase {
    if row.None? then Finished(InvalidToken)
    else match row.value.state
      case Expired => Finished(WindowPassed)
      case PendingConfirmation => SawPending
      case _ => Finished(AlreadyActive)
  }

  function RereadOutcome(row: Option<Reservation>): Phase {
    if row.None? then Finished(InvalidToken)
    else if row.value.state == Active then Finished(AlreadyActive)
    else Finished(WindowPassed)
  }

  /** Each call mints its own token before it takes the lock. */
  function LockedStep(s: Race, call: Id, at: Time): Race {
    var raw, t := s.minted, s.(minted := s.minted + 1);
    if s.row.None? then t.(calls := s.calls[call := Finished(StorageError)])
    else if s.row.value.state == PendingConfirmation then
      t.(row := Some(TransitionRow(s.row.value, ConfirmHold(Sha(raw)), at)),
         calls := s.calls[call := Finished(TokenIssued(raw))], won := Some((call, raw)))
    else t.(calls := s.calls[call := LostRace])
  }

  function Next(s: Race, step: Step): Race {
    match step
    case Lookup(call) => s.(calls := s.calls[call := LookupOutcome(s.row)])
    case Locked(call, at) => LockedStep(s, call, at)
    case Reread(call) => s.(calls := s.calls[call := RereadOutcome(s.row)])
    case Other(t, at) =>
      if s.row.None? then s
      else s.(row := Some(TransitionRow(s.row.value, t, at)),
              expired := s.expired || (t.ExpirePending? && s.row.value.state == PendingConfirmation))
    case Delete => s.(row := None)
  }

  ghost predicate Run(states: seq<Race>, steps: seq<Step>) {
    && |states| == |steps| + 1
    && states[0].calls == map[] && states[0].won.None? && !states[0].expired
    && states[0].row.Some? && states[0].row.value.state == PendingConfirmation
    && forall i :: 0 <= i < |steps| ==> Enabled(states[i], steps[i]) && states[i + 1] == Next(states[i], steps[i])
  }

  /** What a click is answered when nothing comes between its lookup and its lock, from the
      row alone: a token exactly for a hold that is still pending. */
  lemma UninterruptedClick(s: Race, call: Id, at: Time)
    requires call !in s.calls
    ensures var looked := Next(s, Lookup(call));
            var done := if Enabled(looked, Locked(call, at)) then Next(looked, Locked(call, at)) else looked;
            && call in done.calls
            && done.calls[call] == Finished(
                 if s.row.None? then InvalidToken
                 else match s.row.value.state
                   case PendingConfirmation => TokenIssued(s.minted)
                   case Expired => WindowPassed
                   case _ => AlreadyActive)
            && (s.row.Some? && s.row.value.state == PendingConfirmation ==>
                  && done.row.Some? && done.row.value.state == Active
                  && done.row.value.tokenHash == Sha(s.minted) && done.row.value.stateAt == at)
  {
  }

  ghost predicate Fair(s: Race) {
    && (forall c: Id, raw: Token :: (c in s.calls && s.calls[c] == Finished(TokenIssued(raw))) <==>
          s.won == Some((c, raw)))
    && (forall c: Id :: c in s.calls && s.calls[c] == LostRace ==> s.won.Some? || s.expired)
    && (s.won.Some? ==>
          && !s.expired
          && (s.row.Some? ==> s.row.value.tokenHash == Sha(s.won.value.1) && s.row.value.state != PendingConfirmation))
    && (s.won.None? && s.row.Some? ==> s.row.value.state == if s.expired then Expired else PendingConfirmation)
  }

  lemma StepKeepsFair(s: Race, step: Step)
    requires Fair(s) && Enabled(s, step)
    ensures Fair(Next(s, step))
    ensures s.won.Some? ==> Next(s, step).won == s.won
    ensures s.expired ==> Next(s, step).expired
  {
  }

  lemma {:induction false} RunKeepsFair(states: seq<Race>, steps: seq<Step>, n: nat)
    requires Run(states, steps) && n < |states|
    ensures Fair(states[n])
  {
    if n > 0 {
      RunKeepsFair(states, steps, n - 1);
      StepKeepsFair(states[n - 1], steps[n - 1]);
    }
  }

  lemma {:induction false} WinnerStays(states: seq<Race>, steps: seq<Step>, i: nat, j: nat)
    requires Run(states, steps) && i <= j < |states|
    ensures states[i].won.Some? ==> states[j].won == states[i].won
    ensures states[i].expired ==> states[j].expired
    decreases j - i
  {
    if i < j {
      WinnerStays(states, steps, i, j - 1);
      RunKeepsFair(states, steps, j - 1);
      StepKeepsFair(states[j - 1], steps[j - 1]);
    }
  }

  /** At most one of the calls returns a capability token; from then on its hash is the
      stored one for as long as the row exists. */
  lemma OneTokenIssued(states: seq<Race>, steps: seq<Step>, i: nat, j: nat, c: Id, d: Id, raw: Token, other: Token)
    requires Run(states, steps) && i <= j < |states|
    requires c in states[i].calls && states[i].calls[c] == Finished(TokenIssued(raw))
    ensures states[j].row.Some? ==> states[j].row.value.tokenHash == Sha(raw)
    ensures d in states[j].calls && states[j].calls[d] == Finished(TokenIssued(other)) ==> d == c && other == raw
  {
    RunKeepsFair(states, steps, i);
    RunKeepsFair(states, steps, j);
    WinnerStays(states, steps, i, j);
  }

  /** If the sweep expired the hold first, no call ever returns a token. */
  lemma NoTokenAfterExpiry(states: seq<Race>, steps: seq<Step>, i: nat, j: nat, c: Id, raw: Token)
    requires Run(states, steps) && i < |steps| && j < |states|
    requires steps[i].Other? && steps[i].transition == ExpirePending
    requires states[i].row.Some? && states[i].row.value.state == PendingConfirmation
    ensures !(c in states[j].calls && states[j].calls[c] == Finished(TokenIssued(raw)))
  {
    assert states[i + 1].expired;
    RunKeepsFair(states, steps, j);
    if j <= i {
      WinnerStays(states, steps, j, i);
      RunKeepsFair(states, steps, i);
    } else {
      WinnerStays(states, steps, i + 1, j);
    }
  }

  /** The hold left the pending state either because the sweep expired it or because
      exactly one call got its token. */
  lemma LeftPendingMeans(states: seq<Race>, steps: seq<Step>, n: nat)
    requires Run(states, steps) && n < |states|
    requires states[n].row.Some? && states[n].row.value.state != PendingConfirmation
    ensures states[n].expired <==> states[n].won.None?
    ensures !states[n].expired <==>
              exists c: Id, raw: Token :: c in states[n].calls && states[n].calls[c] == Finished(TokenIssued(raw))
  {
    RunKeepsFair(states, steps, n);
    if states[n].won.Some? {
      var (c, raw) := states[n].won.value;
      assert c in states[n].calls && states[n].calls[c] == Finished(TokenIssued(raw));
    }
  }

  /** What a call that lost the race is answered: that the link is unknown exactly when the
      reservation is gone, and that it is confirmed already exactly when it is active, which
      it is only by another call's confirm. */
  lemma LoserAnswered(states: seq<Race>, steps: seq<Step>, n: nat)
    requires Run(states, steps) && n < |steps| && steps[n].Reread?
    ensures var answer := states[n + 1].calls[steps[n].call];
            && answer in {Finished(InvalidToken), Finished(AlreadyActive), Finished(WindowPassed)}
            && (answer == Finished(InvalidToken) <==> states[n].row.None?)
            && (answer == Finished(AlreadyActive) <==> states[n].row.Some? && states[n].row.value.state == Active)
            && (answer == Finished(AlreadyActive) ==> states[n].won.Some? && states[n].won.value.0 != steps[n].call)
  {
    RunKeepsFair(states, steps, n);
    assert Enabled(states[n], steps[n]) && states[n + 1] == Next(states[n], steps[n]);
    if states[n].won.Some? {
      var (c, raw) := states[n].won.value;
      assert states[n].calls[c] == Finished(TokenIssued(raw));
    }
  }

  /** A call that lost the race is told that the window passed although the sweep never
      expired the hold if and only if the row it re-reads was confirmed by the winner and
      has left the active state since. */
  lemma WrongWindowPassedIff(states: seq<Race>, steps: seq<Step>, n: nat)
    requires Run(states, steps) && n < |steps| && steps[n].Reread?
    ensures states[n + 1].calls[steps[n].call] == Finished(WindowPassed) && !states[n].expired <==>
              states[n].row.Some? && states[n].won.Some? && states[n].row.value.state != Active
  {
    RunKeepsFair(states, steps, n);
    assert states[n + 1] == Next(states[n], steps[n]);
  }

  /** The reservation beside its item, as a sweep finds them. */
  function Stored(row: Reservation, item: Decay.ItemRow): Decay.Store {
    Decay.Store(map[0 := Decay.Hold(0, row)], map[0 := item])
  }

  /** A sweep that finds the reservation reminds its giver. */
  ghost predicate Reminds(cfg: Decay.Config, at: Time, row: Reservation, item: Decay.ItemRow, reminder: Transition) {
    && Decay.IsCandidate(Stored(row, item), 0)
    && Decay.MoveOf(cfg, at, Decay.Snapshot(Stored(row, item), 0), true, 8, 9) == Some(reminder)
  }

  predicate Reachable(pending: Reservation, item: Decay.ItemRow) {
    && pending.state == PendingConfirmation && pending.giverEmail.Some? && pending.giverEmail.value != ""
    && item.listActive && !item.archived
  }

  /** Two clicks: the first wins at one instant; at a later one, when the item's decay
      period has passed, the sweep reminds its giver; only then does the second click get
      the row lock, and it is told that the window passed while the reservation is live. */
  lemma LoserToldWindowPassed(
    pending: Reservation, item: Decay.ItemRow, cfg: Decay.Config, confirmed: Time, chased: Time)
    returns (states: seq<Race>, steps: seq<Step>, reminder: Transition)
    requires Reachable(pending, item) && confirmed <= chased
    requires var days := Decay.Resolve(item.decayDays, cfg.defaultDecayDays);
             days > 0 && Decay.Sub(chased, confirmed) >= Decay.DaysDuration(days)
    ensures Run(states, steps) && |steps| == 6 && states[0].row == Some(pending)
    ensures steps == [Lookup(0), Lookup(1), Locked(0, confirmed), Other(reminder, chased), Locked(1, chased), Reread(1)]
    ensures states[3].row.Some? && Reminds(cfg, chased, states[3].row.value, item, reminder)
    ensures !states[6].expired && states[6].row.Some? && LiveReservation(states[6].row.value)
    ensures 1 in states[6].calls && states[6].calls[1] == Finished(WindowPassed)
  {
    reminder := Notify(Sha(8), Sha(9));
    var s0 := Race(Some(pending), 0, map[], None, false);
    steps := [Lookup(0), Lookup(1), Locked(0, confirmed), Other(reminder, chased), Locked(1, chased), Reread(1)];
    var s1 := Next(s0, steps[0]);
    var s2 := Next(s1, steps[1]);
    var s3 := Next(s2, steps[2]);
    var s4 := Next(s3, steps[3]);
    var s5 := Next(s4, steps[4]);
    states := [s0, s1, s2, s3, s4, s5, Next(s5, steps[5])];
  }

  /** With a period of one day the second click is in flight for a day ... */
  lemma LoserToldAfterADay(pending: Reservation, item: Decay.ItemRow, cfg: Decay.Config, confirmed: Time)
    returns (states: seq<Race>, steps: seq<Step>, reminder: Transition)
    requires Reachable(pending, item) && item.decayDays == Some(1)
    ensures Run(states, steps) && |steps| == 6
    ensures steps[2] == Locked(0, confirmed) && steps[3] == Other(reminder, confirmed + Decay.DAY)
    ensures states[3].row.Some? && Reminds(cfg, confirmed + Decay.DAY, states[3].row.value, item, reminder)
    ensures 1 in states[6].calls && states[6].calls[1] == Finished(WindowPassed) && !states[6].expired
  {
    states, steps, reminder := LoserToldWindowPassed(pending, item, cfg, confirmed, confirmed + Decay.DAY);
  }

  /** ... and with a period that wraps, for no time at all. */
  lemma LoserToldAtOnce(pending: Reservation, item: Decay.ItemRow, cfg: Decay.Config, confirmed: Time)
    returns (states: seq<Race>, steps: seq<Step>, reminder: Transition)
    requires Reachable(pending, item) && item.decayDays == Some(150000)
    ensures Run(states, steps) && |steps| == 6
    ensures steps[2] == Locked(0, confirmed) && steps[3] == Other(reminder, confirmed)
    ensures states[3].row.Some? && Reminds(cfg, confirmed, states[3].row.value, item, reminder)
    ensures 1 in states[6].calls && states[6].calls[1] == Finished(WindowPassed) && !states[6].expired
  {
    Decay.LongPeriodWraps();
    states, steps, reminder := LoserToldWindowPassed(pending, item, cfg, confirmed, confirmed);
  }
}
