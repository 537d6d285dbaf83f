/** Reservation rows and the row-locked transitions between their states. */
module Reservations {
  import opened Prelude

  datatype ReservationState = PendingConfirmation | Active | ReserverNotified | Expired

  datatype Reservation = Reservation(
    quantity: int, giverEmail: Option<string>, account: Option<Id>, tokenHash: Digest, confirmHash: Digest,
    state: ReservationState, lastActivityAt: Time, stateAt: Time, emailConfirmedAt: Option<Time>,
    keepHash: Digest, releaseHash: Digest)

  /** The three ways to reserve: anonymously, held until an emailed link is
      confirmed, and bound to an account. */
  datatype ReserveKind = Guest | EmailConfirmed | AccountBound(user: Id)

  predicate LiveReservation(r: Reservation) {
    r.state != Expired
  }

  /** Storage raises a quantity below one to one. */
  function AtLeastOne(quantity: int): int {
    if quantity < 1 then 1 else quantity
  }

  function NewReservation(
    kind: ReserveKind, id: Id, quantity: int, email: Option<string>, raw: Token, at: Time): Reservation
  {
    var base := Reservation(AtLeastOne(quantity), email, None, Sha(raw), NoDigest,
                            Active, at, at, None, NoDigest, NoDigest);
    match kind
    case Guest => base
    case EmailConfirmed =>
      base.(tokenHash := PendingSentinel(id), confirmHash := Sha(raw), state := PendingConfirmation)
    case AccountBound(user) => base.(tokenHash := AccountSentinel(id), account := Some(user))
  }

  /** The row-locked transitions, each with the data it stores. */
  datatype Transition =
    | Notify(keep: Digest, release: Digest)
    | ExpireNotified
    | ExpirePending
    | ConfirmHold(capability: Digest)
    | Renew

  function Source(t: Transition): ReservationState {
    match t
    case Notify(_, _) => Active
    case ExpireNotified => ReserverNotified
    case ExpirePending => PendingConfirmation
    case ConfirmHold(_) => PendingConfirmation
    case Renew => ReserverNotified
  }

  function Target(t: Transition): ReservationState {
    match t
    case Notify(_, _) => ReserverNotified
    case ExpireNotified => Expired
    case ExpirePending => Expired
    case ConfirmHold(_) => Active
    case Renew => Active
  }

  /** The update a transition applies when the row is still in its source state. */
  function Advance(r: Reservation, t: Transition, at: Time): Reservation {
    match t
    case Notify(keep, release) => r.(state := ReserverNotified, stateAt := at, keepHash := keep, releaseHash := release)
    case ExpireNotified => r.(state := Expired, stateAt := at)
    case ExpirePending => r.(state := Expired, stateAt := at)
    case ConfirmHold(capability) =>
      r.(state := Active, stateAt := at, lastActivityAt := at, tokenHash := capability, emailConfirmedAt := Some(at))
    case Renew =>
      r.(state := Active, stateAt := at, lastActivityAt := at, keepHash := NoDigest, releaseHash := NoDigest)
  }

  /** Single-winner: a row that already left the source state is not touched. */
  function TransitionRow(r: Reservation, t: Transition, at: Time): Reservation {
    if r.state == Source(t) then Advance(r, t, at) else r
  }

  /** The locked transition of a row: it moves only from its source state, and only the
      caller that moved it is told so. */
  method TryTransition(current: Reservation, t: Transition, at: Time) returns (moved: bool, row: Reservation)
    ensures moved <==> current.state == Source(t)
    ensures row == TransitionRow(current, t, at)
    ensures !moved ==> row == current
    ensures moved ==> row.state == Target(t) != Source(t) && row.stateAt == at
    ensures moved ==> row.lastActivityAt == if Target(t) == Active then at else current.lastActivityAt
    ensures row.quantity == current.quantity && row.giverEmail == current.giverEmail && row.account == current.account
    ensures row.tokenHash == if moved && t.ConfirmHold? then t.capability else current.tokenHash
    ensures row.confirmHash == current.confirmHash
    ensures row.emailConfirmedAt == if moved && t.ConfirmHold? then Some(at) else current.emailConfirmedAt
    ensures moved && t.Notify? ==> row.keepHash == t.keep && row.releaseHash == t.release
    ensures moved && t.Renew? ==> row.keepHash == NoDigest && row.releaseHash == NoDigest
    ensures !moved || (!t.Notify? && !t.Renew?) ==>
              row.keepHash == current.keepHash && row.releaseHash == current.releaseHash
  {
    moved, row := false, current;
    if current.state == Source(t) {
      row := Advance(current, t, at);
      moved := true;
    }
  }

  /** The edges of a reservation's life: it is confirmed or expires while pending, is
      reminded of while active, and is kept or expires after that. */
  lemma Lifecycle(t: Transition)
    ensures t.ConfirmHold? <==> (Source(t), Target(t)) == (PendingConfirmation, Active)
    ensures t.ExpirePending? <==> (Source(t), Target(t)) == (PendingConfirmation, Expired)
    ensures t.Notify? <==> (Source(t), Target(t)) == (Active, ReserverNotified)
    ensures t.Renew? <==> (Source(t), Target(t)) == (ReserverNotified, Active)
    ensures t.ExpireNotified? <==> (Source(t), Target(t)) == (ReserverNotified, Expired)
  {
  }

  /** What a new reservation holds. Its raw token is the giver's capability when it is
      made anonymously, the emailed confirm link when it waits for one -- and then no
      token is a capability yet -- and neither when it is bound to an account. */
  lemma NewReservationMeans(
    kind: ReserveKind, id: Id, quantity: int, email: Option<string>, raw: Token, at: Time, any: Token)
    ensures var r := NewReservation(kind, id, quantity, email, raw, at);
            && r.quantity == (if quantity < 1 then 1 else quantity) && r.giverEmail == email
            && r.state == (if kind.EmailConfirmed? then PendingConfirmation else Active)
            && r.lastActivityAt == r.stateAt == at && r.emailConfirmedAt.None?
            && (r.tokenHash == Sha(any) <==> kind.Guest? && any == raw)
            && (r.confirmHash == Sha(any) <==> kind.EmailConfirmed? && any == raw)
            && r.account == (if kind.AccountBound? then Some(kind.user) else None)
            && r.keepHash == r.releaseHash == NoDigest
  {
  }

  /** What a click on a confirm link is answered. */
  datatype ConfirmOutcome = TokenIssued(raw: Token) | AlreadyActive | WindowPassed | InvalidToken | StorageError

  function TransitionIn(rows: map<Id, Reservation>, id: Id, t: Transition, at: Time): map<Id, Reservation> {
    if id in rows then rows[id := TransitionRow(rows[id], t, at)] else rows
  }

  /** Un-archiving restarts both clocks of every live row. */
  function Restart(r: Reservation, at: Time): Reservation {
    if LiveReservation(r) then r.(lastActivityAt := at, stateAt := at) else r
  }

  function RestartAll(rows: map<Id, Reservation>, at: Time): map<Id, Reservation> {
    map id | id in rows :: Restart(rows[id], at)
  }
}
