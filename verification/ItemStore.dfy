/** The stored rows of one item, and the handlers that change them step by step.
    Each method is tied to the ledger function it carries out. */
module ItemStore {
  import opened Prelude
  import opened Reservations
  import opened Cobuying
  import opened ItemLedger
  import ProposalRace
  import Text

  datatype ReserveOutcome = Reserved(id: Id, raw: Token) | ReserveCrossTrack | ReserveOverCapacity | ReserveStorageError
  datatype PledgeOutcome = Pledged(id: Id, raw: Token) | PledgeCrossTrack | PledgeOverCapacity | PledgeStorageError

  datatype MatchResponse =
    | TokenRejected
    | TokenNotInMatch
    | MatchNotFound
    | AlreadyResolved
    | DeclineRecorded
    | ConfirmRecorded
    | Revealed(contacts: map<Id, string>)

  datatype LinkOutcome = Acted | LinkSpent | UnknownLink

  /** A mail telling a giver that the item has come off the list. */
  datatype Notice = Notice(to: string, reserved: bool)

  /** What makes two addresses the same; `lower` is Unicode lower-casing. */
  function AddressKey(lower: string -> string, to: string): string {
    lower(Text.TrimSpace(to))
  }

  function ReservedKeys(rows: map<Id, Reservation>, ids: set<Id>, lower: string -> string): set<string> {
    set id | id in ids && id in rows && LiveReservation(rows[id]) && rows[id].giverEmail.Some? ::
      AddressKey(lower, rows[id].giverEmail.value)
  }

  function PledgedKeys(rows: map<Id, Contribution>, ids: set<Id>, lower: string -> string): set<string> {
    set id | id in ids && id in rows && Live(rows[id]) :: AddressKey(lower, rows[id].contact)
  }

  /** One notice for each non-empty key, in the wording of its track. */
  ghost predicate NoticesFor(
    notices: seq<Notice>, reserved: set<string>, pledged: set<string>, lower: string -> string)
  {
    && (forall i, j :: 0 <= i < j < |notices| ==> AddressKey(lower, notices[i].to) != AddressKey(lower, notices[j].to))
    && (forall n :: n in notices ==>
          var key := AddressKey(lower, n.to);
          key != "" && key in reserved + pledged && (n.reserved <==> key in reserved))
    && (forall key :: key in reserved + pledged && key != "" ==>
          exists n :: n in notices && AddressKey(lower, n.to) == key)
  }

  /** Everyone who still holds a reservation under an address, or a pledge, is told at that
      address, letter case and padding aside, unless it is blank. */
  lemma GiversTold(notices: seq<Notice>, rows: map<Id, Reservation>, pledges: map<Id, Contribution>,
                   lower: string -> string, address: string)
    requires NoticesFor(notices, ReservedKeys(rows, rows.Keys, lower), PledgedKeys(pledges, pledges.Keys, lower), lower)
    requires forall text :: lower(text) == "" <==> text == ""
    requires (exists id :: id in rows && rows[id].state != Expired && rows[id].giverEmail == Some(address)) ||
             (exists id :: id in pledges && pledges[id].status in {Pending, Matched, Confirmed} &&
                           pledges[id].contact == address)
    requires !Text.AllSpace(address)
    ensures exists n :: n in notices && lower(Text.TrimSpace(n.to)) == lower(Text.TrimSpace(address))
  {
    var key := AddressKey(lower, address);
    assert key != "";
    assert key in ReservedKeys(rows, rows.Keys, lower) + PledgedKeys(pledges, pledges.Keys, lower);
  }

  /** A further address on the reservation track, or on the pledge track. */
  method AddNotice(notices: seq<Notice>, seen: set<string>, to: string, asReserved: bool, lower: string -> string,
                   ghost reserved: set<string>, ghost pledged: set<string>)
    returns (notices': seq<Notice>, seen': set<string>)
    requires NoticesFor(notices, reserved, pledged, lower) && seen == reserved + pledged - {""}
    requires asReserved ==> pledged == {}
    ensures var key := AddressKey(lower, to);
            var reserved' := if asReserved then reserved + {key} else reserved;
            var pledged' := if asReserved then pledged else pledged + {key};
            NoticesFor(notices', reserved', pledged', lower) && seen' == reserved' + pledged' - {""}
  {
    var key := AddressKey(lower, to);
    if key == "" || key in seen {
      return notices, seen;
    }
    var n := Notice(to, asReserved);
    notices', seen' := notices + [n], seen + {key};
    assert forall m :: m in notices' <==> m in notices || m == n;
  }

  /** No notice for an expired reservation, or one without an address. */
  method AddReservationNotice(notices: seq<Notice>, seen: set<string>, r: Reservation, lower: string -> string,
                              ghost reserved: set<string>)
    returns (notices': seq<Notice>, seen': set<string>)
    requires NoticesFor(notices, reserved, {}, lower) && seen == reserved - {""}
    ensures var told := LiveReservation(r) && r.giverEmail.Some?;
            var reserved' := reserved + if told then {AddressKey(lower, r.giverEmail.value)} else {};
            NoticesFor(notices', reserved', {}, lower) && seen' == reserved' - {""}
  {
    notices', seen' := notices, seen;
    if LiveReservation(r) && r.giverEmail.Some? {
      notices', seen' := AddNotice(notices, seen, r.giverEmail.value, true, lower, reserved, {});
    } else {
      assert reserved + {} == reserved;
    }
  }

  method ReservationNotices(rows: map<Id, Reservation>, lower: string -> string)
    returns (notices: seq<Notice>, seen: set<string>)
    ensures NoticesFor(notices, ReservedKeys(rows, rows.Keys, lower), {}, lower)
    ensures seen == ReservedKeys(rows, rows.Keys, lower) - {""}
  {
    notices, seen := [], {};
    var todo := rows.Keys;
    ghost var done: set<Id>, reserved: set<string> := {}, {};
    while todo != {}
      invariant done + todo == rows.Keys && reserved == ReservedKeys(rows, done, lower)
      invariant NoticesFor(notices, reserved, {}, lower) && seen == reserved - {""}
      decreases todo
    {
      var id :| id in todo;
      ReservedKeysGrow(rows, done, id, lower);
      notices, seen := AddReservationNotice(notices, seen, rows[id], lower, reserved);
      todo, done := todo - {id}, done + {id};
      reserved := ReservedKeys(rows, done, lower);
    }
    assert done == rows.Keys;
  }

  method PledgeNotices(rows: map<Id, Contribution>, before: seq<Notice>, seenBefore: set<string>,
                       lower: string -> string, ghost reserved: set<string>)
    returns (notices: seq<Notice>)
    requires NoticesFor(before, reserved, {}, lower) && seenBefore == reserved - {""}
    ensures NoticesFor(notices, reserved, PledgedKeys(rows, rows.Keys, lower), lower)
  {
    notices := before;
    var seen, todo := seenBefore, rows.Keys;
    ghost var done: set<Id>, pledged: set<string> := {}, {};
    while todo != {}
      invariant done + todo == rows.Keys && pledged == PledgedKeys(rows, done, lower)
      invariant NoticesFor(notices, reserved, pledged, lower) && seen == reserved + pledged - {""}
      decreases todo
    {
      var id :| id in todo;
      PledgedKeysGrow(rows, done, id, lower);
      if Live(rows[id]) {
        notices, seen := AddNotice(notices, seen, rows[id].contact, false, lower, reserved, pledged);
      }
      todo, done := todo - {id}, done + {id};
      pledged := PledgedKeys(rows, done, lower);
    }
    assert done == rows.Keys;
  }

  lemma ReservedKeysGrow(rows: map<Id, Reservation>, ids: set<Id>, id: Id, lower: string -> string)
    requires id in rows
    ensures ReservedKeys(rows, ids + {id}, lower) ==
              ReservedKeys(rows, ids, lower) +
              if LiveReservation(rows[id]) && rows[id].giverEmail.Some?
              then {AddressKey(lower, rows[id].giverEmail.value)} else {}
  {
  }

  lemma PledgedKeysGrow(rows: map<Id, Contribution>, ids: set<Id>, id: Id, lower: string -> string)
    requires id in rows
    ensures PledgedKeys(rows, ids + {id}, lower) ==
              PledgedKeys(rows, ids, lower) + if Live(rows[id]) then {AddressKey(lower, rows[id].contact)} else {}
  {
  }

  function MatchedRow(c: Contribution, mid: Id): Contribution {
    c.(status := Matched, matchId := Some(mid))
  }

  function WithToken(c: Contribution, hash: Digest, expiry: Option<Time>): Contribution {
    c.(actionHash := hash, actionExpiry := expiry)
  }

  function FreedRow(c: Contribution): Contribution {
    c.(status := Pending, matchId := None, actionHash := NoDigest, actionExpiry := None)
  }

  function Contacts(s: Cobuy, ids: set<Id>): map<Id, string> {
    map id | id in ids && id in s.contributions :: s.contributions[id].contact
  }

  /** The database's SUM over a column. */
  method Sum(column: map<Id, int>) returns (total: int)
    ensures total == Total(column)
  {
    total := 0;
    var rest := column;
    while rest != map[]
      invariant rest.Keys <= column.Keys && total + Total(rest) == Total(column)
      decreases |rest|
    {
      var k :| k in rest;
      TotalRemove(rest, k);
      total := total + rest[k];
      rest := rest - {k};
    }
  }

  class ItemStore {
    var price: Option<int>
    var quantityWanted: int
    var archivedAt: Option<Time>
    var reservations: map<Id, Reservation>
    var contributions: map<Id, Contribution>
    var matches: map<Id, Match>
    var minted: nat

    ghost function View(): Ledger
      reads this
    {
      Ledger(price, quantityWanted, archivedAt, reservations, Cobuy(contributions, matches), minted)
    }

    constructor (price: Option<int>, quantity: int)
      ensures View() == Ledger(price, AtLeastOne(quantity), None, map[], Cobuy(map[], map[]), 0)
    {
      this.price, this.archivedAt, this.minted := price, None, 0;
      this.quantityWanted := AtLeastOne(quantity);
      this.reservations, this.contributions, this.matches := map[], map[], map[];
    }

    /** The random source: every draw differs from the earlier ones. */
    method Mint() returns (drawn: nat)
      modifies this`minted
      ensures drawn == old(minted) && minted == old(minted) + 1
    {
      drawn := minted;
      minted := minted + 1;
    }

    // --------------------------------------------------------------- reserving

    /** The checks of a reserve, in their order; None lets it in. */
    method CheckReserve(quantity: int, wanted: int) returns (refusal: Option<ReserveOutcome>)
      ensures refusal.None? <==> CanReserve(View(), quantity, wanted)
      ensures refusal.Some? ==> !refusal.value.Reserved?
      ensures ReserveRight(View(), quantity, wanted, refusal.None?)
      ensures refusal == Some(ReserveCrossTrack) <==> LiveIds(View().cobuy) != {}
      ensures refusal == Some(ReserveStorageError) <==> LiveIds(View().cobuy) == {} && !FitsInt64(Units(View()))
    {
      var cobuying := set id | id in contributions && Live(contributions[id]);
      assert cobuying == LiveIds(View().cobuy);
      ReserveFits(View(), quantity, wanted);
      if cobuying != {} {
        return Some(ReserveCrossTrack);
      }
      var column := map id | id in reservations && LiveReservation(reservations[id]) :: reservations[id].quantity;
      assert column == UnitsColumn(View());
      var total := Sum(column);
      if !FitsInt64(total) {
        return Some(ReserveStorageError);
      }
      if Wrap64(total + AtLeastOne(quantity)) > wanted {
        return Some(ReserveOverCapacity);
      }
      return None;
    }

    method ReserveWithinCapacity(kind: ReserveKind, quantity: int, email: Option<string>, wanted: int, at: Time)
      returns (outcome: ReserveOutcome)
      modifies this
      ensures outcome.Reserved? <==> CanReserve(old(View()), quantity, wanted)
      ensures outcome.Reserved? ==> View() == Reserve(old(View()), kind, quantity, email, at)
      ensures outcome.Reserved? ==> outcome == Reserved(old(minted), old(minted) + 1)
      ensures ReserveRight(old(View()), quantity, wanted, outcome.Reserved?)
      ensures !outcome.Reserved? ==> View() == old(View())
      ensures outcome.ReserveCrossTrack? <==> LiveIds(old(View()).cobuy) != {}
      ensures outcome.ReserveStorageError? <==> LiveIds(old(View()).cobuy) == {} && !FitsInt64(Units(old(View())))
    {
      var refusal := CheckReserve(quantity, wanted);
      if refusal.Some? {
        return refusal.value;
      }
      var id := Mint();
      var raw := Mint();
      reservations := reservations[id := NewReservation(kind, id, quantity, email, raw, at)];
      outcome := Reserved(id, raw);
    }

    /** The shared row-locked transition; only the caller that moves the row acts on it. */
    method TransitionState(id: Id, t: Transition, at: Time) returns (moved: bool)
      modifies this`reservations
      ensures moved <==> id in old(reservations) && old(reservations)[id].state == Source(t)
      ensures reservations == TransitionIn(old(reservations), id, t, at)
    {
      moved := false;
      if id in reservations {
        var row;
        moved, row := TryTransition(reservations[id], t, at);
        reservations := reservations[id := row];
      }
    }

    method Release(id: Id) returns (found: bool)
      modifies this`reservations
      ensures found <==> id in old(reservations)
      ensures reservations == old(reservations) - {id}
    {
      found := id in reservations;
      reservations := reservations - {id};
    }

    /** The row a reserver's link names, if any: by its confirm, keep or release column. */
    method ByLink(column: Reservation -> Digest, raw: Token) returns (id: Option<Id>)
      ensures id.Some? ==> id.value in reservations && column(reservations[id.value]) == Sha(raw)
      ensures id.None? ==> forall k :: k in reservations ==> column(reservations[k]) != Sha(raw)
    {
      if k :| k in reservations && column(reservations[k]) == Sha(raw) {
        return Some(k);
      }
      return None;
    }

    /** The confirm handler when nothing else moves the row meanwhile: a capability token
        is issued exactly for a hold still pending, and is the one stored. */
    method ConfirmReservation(raw: Token, at: Time) returns (outcome: ConfirmOutcome, id: Option<Id>)
      modifies this`reservations, this`minted
      ensures id.None? <==> forall k :: k in old(reservations) ==> old(reservations)[k].confirmHash != Sha(raw)
      ensures id.Some? ==> id.value in old(reservations) && old(reservations)[id.value].confirmHash == Sha(raw)
      ensures outcome == if id.None? then InvalidToken
                         else match old(reservations)[id.value].state
                           case PendingConfirmation => TokenIssued(old(minted))
                           case Expired => WindowPassed
                           case _ => AlreadyActive
      ensures !outcome.TokenIssued? ==> reservations == old(reservations)
      ensures outcome.TokenIssued? ==>
                reservations == TransitionIn(old(reservations), id.value, ConfirmHold(Sha(outcome.raw)), at)
    {
      id := ByLink((r: Reservation) => r.confirmHash, raw);
      if id.None? {
        return InvalidToken, None;
      }
      match reservations[id.value].state {
        case Expired => return WindowPassed, id;
        case PendingConfirmation =>
          var capability := Mint();
          var moved := TransitionState(id.value, ConfirmHold(Sha(capability)), at);
          return TokenIssued(capability), id;
        case _ => return AlreadyActive, id;
      }
    }

    /** A keep link acts exactly on a chased reservation: it restarts the decay clock and
        spends both links. */
    method KeepByDecayToken(raw: Token, at: Time) returns (outcome: LinkOutcome, id: Option<Id>)
      modifies this`reservations
      ensures id.None? <==> forall k :: k in old(reservations) ==> old(reservations)[k].keepHash != Sha(raw)
      ensures id.Some? ==> id.value in old(reservations) && old(reservations)[id.value].keepHash == Sha(raw)
      ensures outcome == if id.None? then UnknownLink
                         else if old(reservations)[id.value].state == ReserverNotified then Acted else LinkSpent
      ensures reservations == if outcome.Acted? then TransitionIn(old(reservations), id.value, Renew, at)
                              else old(reservations)
      ensures outcome.Acted? ==> NoDigest == reservations[id.value].keepHash == reservations[id.value].releaseHash
    {
      id := ByLink((r: Reservation) => r.keepHash, raw);
      if id.None? {
        return UnknownLink, None;
      }
      if reservations[id.value].state == Expired {
        return LinkSpent, id;
      }
      var moved := TransitionState(id.value, Renew, at);
      return if moved then Acted else LinkSpent, id;
    }

    /** A release link gives up the reservation unless it has expired. */
    method ReleaseByDecayToken(raw: Token) returns (outcome: LinkOutcome, id: Option<Id>)
      modifies this`reservations
      ensures id.None? <==> forall k :: k in old(reservations) ==> old(reservations)[k].releaseHash != Sha(raw)
      ensures id.Some? ==> id.value in old(reservations) && old(reservations)[id.value].releaseHash == Sha(raw)
      ensures outcome == if id.None? then UnknownLink
                         else if LiveReservation(old(reservations)[id.value]) then Acted else LinkSpent
      ensures reservations == if outcome.Acted? then old(reservations) - {id.value} else old(reservations)
    {
      id := ByLink((r: Reservation) => r.releaseHash, raw);
      if id.None? {
        return UnknownLink, None;
      }
      if reservations[id.value].state == Expired {
        return LinkSpent, id;
      }
      var found := Release(id.value);
      return Acted, id;
    }

    // ------------------------------------------------------------------- owner

    /** Only the call that sets the mark tells the givers. */
    method ArchiveItem(at: Time, lower: string -> string)
      returns (archivedNow: bool, warned: bool, notices: seq<Notice>)
      modifies this`archivedAt
      ensures View() == Archive(old(View()), at)
      ensures archivedNow <==> old(archivedAt).None?
      ensures archivedAt == if archivedNow then Some(at) else old(archivedAt)
      ensures warned <==> exists mid :: mid in matches && matches[mid].state == Proposed
      ensures if archivedNow
              then NoticesFor(notices, ReservedKeys(reservations, reservations.Keys, lower),
                              PledgedKeys(contributions, contributions.Keys, lower), lower)
              else notices == []
    {
      warned := ArchiveWarnings();
      archivedNow, notices := archivedAt.None?, [];
      if archivedNow {
        archivedAt := Some(at);
        notices := NotifyGiversArchived(lower);
      }
    }

    /** One warning however many handshakes are in flight. */
    method ArchiveWarnings() returns (warned: bool)
      ensures warned <==> exists mid :: mid in matches && matches[mid].state == Proposed
    {
      warned := false;
      var todo := matches.Keys;
      while todo != {}
        invariant todo <= matches.Keys && !warned
        invariant forall mid :: mid in matches && mid !in todo ==> matches[mid].state != Proposed
        decreases todo
      {
        var mid :| mid in todo;
        todo := todo - {mid};
        if matches[mid].state == Proposed {
          warned := true;
          break;
        }
      }
    }

    /** Every giver still holding something on the item is told once, at one address,
        reservations first. */
    method NotifyGiversArchived(lower: string -> string) returns (notices: seq<Notice>)
      ensures NoticesFor(notices, ReservedKeys(reservations, reservations.Keys, lower),
                         PledgedKeys(contributions, contributions.Keys, lower), lower)
    {
      var seen;
      notices, seen := ReservationNotices(reservations, lower);
      ghost var reserved := ReservedKeys(reservations, reservations.Keys, lower);
      notices := PledgeNotices(contributions, notices, seen, lower, reserved);
    }

    method UnarchiveItem(at: Time) returns (unarchivedNow: bool)
      modifies this`archivedAt, this`reservations
      ensures View() == Unarchive(old(View()), at)
      ensures unarchivedNow <==> old(archivedAt).Some?
      ensures archivedAt.None? && reservations.Keys == old(reservations).Keys
      ensures forall id :: id in reservations ==>
                var r := old(reservations)[id];
                reservations[id] == if unarchivedNow && r.state != Expired then r.(lastActivityAt := at, stateAt := at)
                                    else r
    {
      unarchivedNow := archivedAt.Some?;
      if unarchivedNow {
        archivedAt := None;
        reservations := map id | id in reservations :: Restart(reservations[id], at);
      }
    }

    method Update(newPrice: Option<int>, quantity: int)
      modifies this`price, this`quantityWanted
      ensures View() == EditItem(old(View()), newPrice, quantity)
      ensures price == newPrice && quantityWanted == if quantity < 1 then 1 else quantity
    {
      price, quantityWanted := newPrice, AtLeastOne(quantity);
    }

    /** The edit handler when nothing else edits meanwhile: what the patch leaves out
        stays as it was. */
    method UpdateItem(patchPrice: Option<int>, patchQuantity: Option<int>)
      modifies this`price, this`quantityWanted
      ensures View() == EditItem(old(View()), if patchPrice.Some? then patchPrice else old(price),
                                 if patchQuantity.Some? then patchQuantity.value else old(quantityWanted))
    {
      var newPrice, quantity := price, quantityWanted;
      if patchPrice.Some? {
        newPrice := patchPrice;
      }
      if patchQuantity.Some? {
        quantity := patchQuantity.value;
      }
      Update(newPrice, quantity);
    }

    // --------------------------------------------------------------- co-buying

    /** The checks of a pledge, in their order; None lets it in. */
    method CheckPledge(pledged: int, priceRead: int) returns (refusal: Option<PledgeOutcome>)
      ensures refusal.None? <==> CanPledge(View(), pledged, priceRead)
      ensures refusal.Some? ==> !refusal.value.Pledged?
      ensures PledgeRight(View(), pledged, priceRead, refusal.None?)
      ensures refusal == Some(PledgeCrossTrack) <==> LiveReservations(View()) != {}
      ensures refusal == Some(PledgeStorageError) <==>
                LiveReservations(View()) == {} && !FitsInt64(Funded(View().cobuy))
    {
      var reserved := set id | id in reservations && LiveReservation(reservations[id]);
      assert reserved == LiveReservations(View());
      PledgeFits(View(), pledged, priceRead);
      if reserved != {} {
        return Some(PledgeCrossTrack);
      }
      var column := map id | id in contributions && Live(contributions[id]) :: contributions[id].pledged;
      assert column == Pledges(View().cobuy, LiveIds(View().cobuy));
      var total := Sum(column);
      if !FitsInt64(total) {
        return Some(PledgeStorageError);
      }
      if Wrap64(total + pledged) > priceRead {
        return Some(PledgeOverCapacity);
      }
      return None;
    }

    method PledgeWithinCapacity(pledged: int, contact: string, priceRead: int) returns (outcome: PledgeOutcome)
      modifies this`contributions, this`minted
      ensures outcome.Pledged? <==> CanPledge(old(View()), pledged, priceRead)
      ensures outcome.Pledged? ==> View() == Pledge(old(View()), pledged, contact)
      ensures outcome.Pledged? ==>
                && outcome == Pledged(old(minted), old(minted) + 1)
                && outcome.id in contributions && contributions[outcome.id].contact == contact
                && contributions[outcome.id].tokenHash == Sha(outcome.raw)
      ensures PledgeRight(old(View()), pledged, priceRead, outcome.Pledged?)
      ensures !outcome.Pledged? ==> View() == old(View())
      ensures outcome.PledgeCrossTrack? <==> LiveReservations(old(View())) != {}
      ensures outcome.PledgeStorageError? <==>
                LiveReservations(old(View())) == {} && !FitsInt64(Funded(old(View()).cobuy))
    {
      var refusal := CheckPledge(pledged, priceRead);
      if refusal.Some? {
        return refusal.value;
      }
      var id := Mint();
      var raw := Mint();
      contributions := contributions[id := NewPledge(pledged, contact, Sha(raw))];
      outcome := Pledged(id, raw);
    }

    /** The contribute handler: the pledge, then the attempt to form a match. */
    method CreateContribution(pledged: int, contact: string, priceRead: int, at: Time, window: int)
      returns (outcome: PledgeOutcome, proposed: Option<Id>, links: map<Id, Token>)
      modifies this
      ensures outcome.Pledged? <==> CanPledge(old(View()), pledged, priceRead)
      ensures !outcome.Pledged? ==> View() == old(View()) && proposed.None?
      ensures outcome.Pledged? ==>
                proposed == if Covered(Pledge(old(View()), pledged, contact).cobuy, priceRead)
                            then Some(old(minted) + 2) else None
      ensures var t := Pledge(old(View()), pledged, contact).cobuy;
              var sum := Total(Pledges(t, PendingIds(t)));
              outcome.Pledged? && FitsInt64(sum) ==> (proposed.Some? <==> |PendingIds(t)| >= 2 && sum >= priceRead)
      ensures PledgeRight(old(View()), pledged, priceRead, outcome.Pledged?)
      ensures outcome.Pledged? && proposed.None? ==> View() == Pledge(old(View()), pledged, contact)
      ensures outcome.Pledged? && proposed.Some? ==>
                && FreshTokens(Pledge(old(View()), pledged, contact), links)
                && View() == Contribute(old(View()), pledged, contact, priceRead, at, ExpiryOf(window, at), links)
    {
      proposed, links := None, map[];
      outcome := PledgeWithinCapacity(pledged, contact, priceRead);
      if outcome.Pledged? {
        proposed, links := MaybeProposeMatch(priceRead, at, window);
      }
    }

    method MaybeProposeMatch(priceRead: int, at: Time, window: int)
      returns (proposed: Option<Id>, links: map<Id, Token>)
      modifies this`contributions, this`matches, this`minted
      ensures proposed == if Covered(old(View()).cobuy, priceRead) then Some(old(minted)) else None
      ensures var pending := PendingIds(old(View()).cobuy);
              var sum := Total(Pledges(old(View()).cobuy, pending));
              FitsInt64(sum) ==> (proposed.Some? <==> |pending| >= 2 && sum >= priceRead)
      ensures proposed.None? ==> View() == old(View())
      ensures proposed.Some? ==>
                && FreshTokens(old(View()), links)
                && View() == ProposeIfCovered(old(View()), priceRead, at, ExpiryOf(window, at), links)
    {
      var pending, sum := PendingPledges();
      if |pending| < MIN_MATCH_CONTRIBUTIONS || sum < priceRead {
        return None, map[];
      }
      var mid;
      mid, links := ProposeMatch(pending, at, ExpiryOf(window, at));
      proposed := Some(mid);
    }

    /** The match row with its members stamped, then each member's token. */
    method ProposeMatch(pending: set<Id>, at: Time, expiry: Option<Time>) returns (mid: Id, links: map<Id, Token>)
      requires pending == PendingIds(View().cobuy)
      modifies this`contributions, this`matches, this`minted
      ensures mid == old(minted) && FreshTokens(old(View()), links)
      ensures View() == old(View()).(cobuy := Propose(old(View()).cobuy, mid, at, expiry, links),
                                     minted := mid + 1 + |pending|)
    {
      mid := Mint();
      CreateMatch(mid, pending, at);
      ghost var matched := contributions;
      links := MintActionTokens(pending, expiry);
      ProposedRows(old(View()).cobuy, matched, contributions, mid, at, expiry, links);
      LinksAreFresh(old(View()), links);
    }

    /** The pending pledges and their int64 sum. */
    method PendingPledges() returns (pending: set<Id>, sum: int)
      ensures pending == PendingIds(View().cobuy)
      ensures sum == Wrap64(Total(Pledges(View().cobuy, pending)))
    {
      ghost var s := View().cobuy;
      pending, sum := {}, 0;
      var todo := contributions.Keys;
      assert Pledges(s, {}) == map[];
      while todo != {}
        invariant todo <= contributions.Keys
        invariant pending == set id | id in contributions && id !in todo && contributions[id].status == Pending
        invariant sum == Wrap64(Total(Pledges(s, pending)))
        decreases todo
      {
        var id :| id in todo;
        todo := todo - {id};
        if contributions[id].status == Pending {
          var amount := contributions[id].pledged;
          TotalInsert(Pledges(s, pending), id, amount);
          assert Pledges(s, pending + {id}) == Pledges(s, pending)[id := amount];
          WrapSum(Total(Pledges(s, pending)), amount);
          pending, sum := pending + {id}, Wrap64(sum + amount);
        }
      }
    }

    /** Inserting the match row and stamping each member matched that is still stored,
        whatever its status. */
    method CreateMatch(mid: Id, members: set<Id>, at: Time)
      modifies this`contributions, this`matches
      ensures matches == old(matches)[mid := Match(Proposed, members, at)]
      ensures contributions.Keys == old(contributions).Keys
      ensures forall id :: id in contributions ==>
                contributions[id] == if id in members then MatchedRow(old(contributions)[id], mid)
                                     else old(contributions)[id]
      ensures View().cobuy == ProposalRace.CreateMatch(old(View()).cobuy, mid, members, at, None, map[])
    {
      matches := matches[mid := Match(Proposed, members, at)];
      ghost var inserted := matches;
      var todo := members;
      while todo != {}
        invariant todo <= members && matches == inserted && contributions.Keys == old(contributions).Keys
        invariant forall id :: id in contributions ==>
                    contributions[id] == if id in members - todo then MatchedRow(old(contributions)[id], mid)
                                         else old(contributions)[id]
        decreases todo
      {
        var id :| id in todo;
        todo := todo - {id};
        if id in contributions {
          contributions := contributions[id := MatchedRow(contributions[id], mid)];
        }
      }
    }

    method SetMatchActionToken(id: Id, hash: Digest, expiry: Option<Time>)
      modifies this`contributions
      ensures contributions.Keys == old(contributions).Keys
      ensures forall j :: j in contributions ==>
                contributions[j] == if j == id then WithToken(old(contributions)[j], hash, expiry)
                                    else old(contributions)[j]
    {
      if id in contributions {
        contributions := contributions[id := WithToken(contributions[id], hash, expiry)];
      }
    }

    /** A fresh token for each member, emailed as its own link. */
    method MintActionTokens(members: set<Id>, expiry: Option<Time>) returns (links: map<Id, Token>)
      requires members <= contributions.Keys
      modifies this`contributions, this`minted
      ensures links.Keys == members && minted == old(minted) + |members|
      ensures DistinctIn(links, old(minted), minted)
      ensures Stamped(contributions, old(contributions), links, expiry)
    {
      links := map[];
      var todo := members;
      while todo != {}
        invariant todo <= members && links.Keys == members - todo
        invariant old(minted) <= minted == old(minted) + |members| - |todo|
        invariant DistinctIn(links, old(minted), minted)
        invariant Stamped(contributions, old(contributions), links, expiry)
        decreases todo
      {
        var id :| id in todo;
        ghost var rows := contributions;
        var raw := Mint();
        SetMatchActionToken(id, Sha(raw), expiry);
        StampedMore(old(contributions), rows, contributions, links, id, raw, expiry);
        DistinctExtends(links, old(minted), raw, id);
        todo, links := todo - {id}, links[id := raw];
      }
    }

    /** Everyone but the excepted member goes back to pending. */
    method DissolveMatch(mid: Id, except: Id)
      requires mid in matches
      modifies this`contributions, this`matches
      ensures View().cobuy == Dissolve(old(View()).cobuy, mid, except)
    {
      var members := matches[mid].members;
      var todo := members;
      while todo != {}
        invariant todo <= members && contributions.Keys == old(contributions).Keys
        invariant matches == old(matches)
        invariant forall id :: id in contributions ==>
                    contributions[id] == if id in members - todo && id != except then FreedRow(old(contributions)[id])
                                         else old(contributions)[id]
        decreases todo
      {
        var id :| id in todo;
        todo := todo - {id};
        if id != except && id in contributions {
          contributions := contributions[id := contributions[id].(status := Pending, matchId := None)];
          SetMatchActionToken(id, NoDigest, None);
        }
      }
      matches := matches[mid := matches[mid].(state := MatchDeclined)];
    }

    method WithdrawContribution(cid: Id) returns (refused: bool)
      requires cid in contributions
      modifies this`contributions, this`matches
      ensures refused <==> WithdrawRefused(old(View()).cobuy, cid)
      ensures Consistent(old(View()).cobuy) ==>
                (refused <==> exists mid :: mid in old(matches) && old(matches)[mid].state == BothConfirmed &&
                                            cid in old(matches)[mid].members)
      ensures !refused ==> cid !in contributions
      ensures View().cobuy == Withdraw(old(View()).cobuy, cid)
    {
      if Consistent(View().cobuy) {
        WithdrawalRefusedIff(View().cobuy, cid);
      }
      refused := false;
      var link := contributions[cid].matchId;
      if link.Some? && link.value in matches {
        var m := matches[link.value];
        if m.state in {BothConfirmed, Done} {
          return true;
        }
        if m.state == Proposed {
          DissolveMatch(link.value, cid);
        }
      }
      contributions := contributions - {cid};
    }

    method ResolveMatchActor(raw: Token, mid: Id, now: Time) returns (r: ActorResult)
      ensures Authenticates(View().cobuy, raw, mid, now, r)
      ensures r.Unauthorized? <==>
                forall id :: id in contributions ==>
                  contributions[id].tokenHash != Sha(raw) && contributions[id].actionHash != Sha(raw)
      ensures r.Actor? ==>
                r.cid in contributions && Admits(contributions[r.cid], raw, mid, now)
      ensures r.NotInMatch? ==>
                exists id :: id in contributions && Holds(contributions[id], raw) &&
                             contributions[id].matchId != Some(mid)
      ensures r.ActionTokenExpired? ==>
                exists id :: id in contributions && Holds(contributions[id], raw) &&
                             contributions[id].matchId == Some(mid) && !Admits(contributions[id], raw, mid, now)
    {
      ghost var s := View().cobuy;
      if cid :| cid in contributions && contributions[cid].tokenHash == Sha(raw) {
        assert HoldsCapability(s, cid, raw);
        r := if contributions[cid].matchId == Some(mid) then Actor(cid) else NotInMatch;
      } else if cid :| cid in contributions && contributions[cid].actionHash == Sha(raw) {
        assert HoldsAction(s, cid, raw);
        var c := contributions[cid];
        if c.matchId != Some(mid) {
          r := NotInMatch;
        } else if c.actionExpiry.Some? && now >= c.actionExpiry.value {
          r := ActionTokenExpired;
        } else {
          r := Actor(cid);
        }
      } else {
        r := Unauthorized;
      }
    }

    /** The confirm/decline handler. Contacts are handed out only by the call that
        completes the match, and they are those of its members. */
    method ConfirmMatch(raw: Token, mid: Id, decline: bool, now: Time)
      returns (response: MatchResponse, ghost actor: ActorResult)
      modifies this`contributions, this`matches
      ensures Authenticates(old(View()).cobuy, raw, mid, now, actor)
      ensures response.TokenRejected? <==> actor.Unauthorized? || actor.ActionTokenExpired?
      ensures actor.Actor? ==>
                actor.cid in old(contributions) && Admits(old(contributions)[actor.cid], raw, mid, now)
      ensures (forall id :: id in old(contributions) && Holds(old(contributions)[id], raw) ==>
                 Admits(old(contributions)[id], raw, mid, now)) &&
              (exists id :: id in old(contributions) && Holds(old(contributions)[id], raw)) ==>
                actor.Actor?
      ensures actor.Actor? && mid in old(matches) && old(matches)[mid].state == Proposed ==>
                response == DeclineRecorded || response == ConfirmRecorded || response.Revealed?
      ensures !actor.Actor? ==>
                View() == old(View()) && response == if actor.NotInMatch? then TokenNotInMatch else TokenRejected
      ensures actor.Actor? && !Confirmable(old(View()).cobuy, actor.cid, mid) ==>
                View() == old(View()) && response == if mid in old(matches) then AlreadyResolved else MatchNotFound
      ensures actor.Actor? && Confirmable(old(View()).cobuy, actor.cid, mid) ==>
                var s := old(View()).cobuy;
                if decline then View().cobuy == Decline(s, actor.cid, mid) && response == DeclineRecorded
                else
                  && View().cobuy == Confirm(s, actor.cid, mid)
                  && response == if Completes(s, actor.cid, mid) then Revealed(Contacts(s, Linked(s, mid)))
                                 else ConfirmRecorded
    {
      var r := ResolveMatchActor(raw, mid, now);
      actor := r;
      match r {
        case Unauthorized => return TokenRejected, actor;
        case ActionTokenExpired => return TokenRejected, actor;
        case NotInMatch => return TokenNotInMatch, actor;
        case Actor(_) =>
      }
      assert r.cid in Linked(View().cobuy, mid);
      if mid !in matches {
        return MatchNotFound, actor;
      }
      if matches[mid].state != Proposed {
        return AlreadyResolved, actor;
      }
      if decline {
        RecordDecline(r.cid, mid);
        response := DeclineRecorded;
      } else {
        response := RecordConfirm(r.cid, mid);
      }
    }

    method RecordDecline(cid: Id, mid: Id)
      requires Confirmable(View().cobuy, cid, mid)
      modifies this`contributions, this`matches
      ensures View().cobuy == Decline(old(View()).cobuy, cid, mid)
    {
      ghost var s := View().cobuy;
      contributions := contributions[cid := contributions[cid].(status := Declined)];
      SetMatchActionToken(cid, NoDigest, None);
      assert contributions == s.contributions[cid := DeclinedRow(s.contributions[cid])];
      DissolveMatch(mid, cid);
    }

    method RecordConfirm(cid: Id, mid: Id) returns (response: MatchResponse)
      requires Confirmable(View().cobuy, cid, mid)
      modifies this`contributions, this`matches
      ensures View().cobuy == Confirm(old(View()).cobuy, cid, mid)
      ensures var s := old(View()).cobuy;
              response == if Completes(s, cid, mid) then Revealed(Contacts(s, Linked(s, mid))) else ConfirmRecorded
    {
      ghost var s := View().cobuy;
      var completedNow, linked := ConfirmContribution(cid, mid);
      if !completedNow {
        return ConfirmRecorded;
      }
      var contacts := ClearSpentTokens(linked);
      assert Linked(MarkConfirmed(s, cid), mid) == linked;
      assert contributions == Complete(MarkConfirmed(s, cid), mid).contributions;
      assert contacts == Contacts(s, linked);
      response := Revealed(contacts);
    }

    /** The locked confirm: mark this pledge, re-read the match's pledges, and complete
        the match if all of them are confirmed. */
    method ConfirmContribution(cid: Id, mid: Id) returns (completedNow: bool, linked: set<Id>)
      requires Confirmable(View().cobuy, cid, mid)
      modifies this`contributions, this`matches
      ensures completedNow <==> Completes(old(View()).cobuy, cid, mid)
      ensures linked == Linked(old(View()).cobuy, mid)
      ensures contributions == MarkConfirmed(old(View()).cobuy, cid).contributions
      ensures matches == if completedNow then old(matches)[mid := old(matches)[mid].(state := BothConfirmed)]
                         else old(matches)
    {
      ghost var s := View().cobuy;
      contributions := contributions[cid := contributions[cid].(status := Confirmed)];
      linked := set id | id in contributions && contributions[id].matchId == Some(mid);
      assert linked == Linked(s, mid);
      completedNow := true;
      var todo := linked;
      while todo != {}
        invariant todo <= linked && completedNow
        invariant forall id :: id in linked && id !in todo ==> contributions[id].status == Confirmed
        decreases todo
      {
        var id :| id in todo;
        todo := todo - {id};
        if contributions[id].status != Confirmed {
          completedNow := false;
          break;
        }
      }
      if completedNow {
        matches := matches[mid := matches[mid].(state := BothConfirmed)];
      }
    }

    /** Gathering the contacts to reveal, and clearing each spent token. */
    method ClearSpentTokens(linked: set<Id>) returns (contacts: map<Id, string>)
      requires linked <= contributions.Keys
      modifies this`contributions
      ensures contacts == map id | id in linked :: old(contributions)[id].contact
      ensures contributions.Keys == old(contributions).Keys
      ensures forall id :: id in contributions ==>
                contributions[id] == if id in linked then WithToken(old(contributions)[id], NoDigest, None)
                                     else old(contributions)[id]
    {
      contacts := map[];
      var todo := linked;
      while todo != {}
        invariant todo <= linked && contributions.Keys == old(contributions).Keys
        invariant contacts == map id | id in linked - todo :: old(contributions)[id].contact
        invariant forall id :: id in contributions ==>
                    contributions[id] == if id in linked - todo then WithToken(old(contributions)[id], NoDigest, None)
                                         else old(contributions)[id]
        decreases todo
      {
        var id :| id in todo;
        todo := todo - {id};
        contacts := contacts[id := contributions[id].contact];
        SetMatchActionToken(id, NoDigest, None);
      }
    }

    /** Reading a match hands out its contacts only once it is completed. */
    method GetMatch(raw: Token, mid: Id, now: Time) returns (r: ActorResult, contacts: map<Id, string>)
      ensures Authenticates(View().cobuy, raw, mid, now, r)
      ensures r.Actor? ==> r.cid in contributions && Admits(contributions[r.cid], raw, mid, now)
      ensures contacts == if r.Actor? && mid in matches && matches[mid].state == BothConfirmed
                          then Contacts(View().cobuy, matches[mid].members) else map[]
    {
      contacts := map[];
      r := ResolveMatchActor(raw, mid, now);
      if r.Actor? && mid in matches && matches[mid].state == BothConfirmed {
        contacts := map id | id in matches[mid].members && id in contributions :: contributions[id].contact;
      }
    }

    method ExpireMatch(mid: Id) returns (moved: bool)
      modifies this`contributions, this`matches
      ensures moved <==> mid in old(matches) && old(matches)[mid].state == Proposed
      ensures View().cobuy == ExpireIfProposed(old(View()).cobuy, mid)
    {
      moved := false;
      if mid in matches && matches[mid].state == Proposed {
        contributions := map id | id in contributions ::
          if contributions[id].matchId == Some(mid)
          then contributions[id].(status := PledgeExpired, actionHash := NoDigest, actionExpiry := None)
          else contributions[id];
        matches := matches[mid := matches[mid].(state := MatchExpired)];
        moved := true;
      }
    }

    /** The auto-expiry pass: exactly the matches whose confirm window has passed are
        expired, each with its pledges. */
    method SweepMatches(now: Time, window: int)
      modifies this`contributions, this`matches
      ensures View().cobuy == ExpireAll(old(View()).cobuy, OverdueMatches(old(View()).cobuy, now, window))
      ensures matches.Keys == old(matches).Keys && forall mid :: mid in matches ==>
                var m := old(matches)[mid];
                matches[mid].state == if m.state == Proposed && window > 0 && now > m.createdAt + window
                                      then MatchExpired else m.state
    {
      ghost var s := View().cobuy;
      ExpireNone(s);
      if window <= 0 {
        return;
      }
      var cutoff := now - window;
      var candidates := set mid | mid in matches && matches[mid].state == Proposed && matches[mid].createdAt < cutoff;
      assert candidates == OverdueMatches(s, now, window);
      ExpireEach(candidates);
    }

    method ExpireEach(candidates: set<Id>)
      requires forall mid :: mid in candidates ==> mid in matches && matches[mid].state == Proposed
      modifies this`contributions, this`matches
      ensures View().cobuy == ExpireAll(old(View()).cobuy, candidates)
    {
      ghost var s := View().cobuy;
      ExpireNone(s);
      var todo := candidates;
      ghost var done: set<Id> := {};
      while todo != {}
        invariant done + todo == candidates && done !! todo
        invariant View().cobuy == ExpireAll(s, done)
        decreases todo
      {
        var mid :| mid in todo;
        ExpireNext(s, done, mid);
        todo, done := todo - {mid}, done + {mid};
      }
    }

    method ExpireNext(ghost s: Cobuy, ghost done: set<Id>, mid: Id)
      requires View().cobuy == ExpireAll(s, done)
      requires mid in s.matches && mid !in done && s.matches[mid].state == Proposed
      modifies this`contributions, this`matches
      ensures View().cobuy == ExpireAll(s, done + {mid})
    {
      ExpireOneMore(s, done, mid);
      var moved := ExpireMatch(mid);
    }
  }

  /** The rows with a link have been given its token. */
  ghost predicate Stamped(
    rows: map<Id, Contribution>, before: map<Id, Contribution>, links: map<Id, Token>, expiry: Option<Time>)
  {
    && rows.Keys == before.Keys
    && forall id :: id in rows ==>
         rows[id] == if id in links then WithToken(before[id], Sha(links[id]), expiry) else before[id]
  }

  lemma StampedMore(
    before: map<Id, Contribution>, rows: map<Id, Contribution>, rows': map<Id, Contribution>, links: map<Id, Token>,
    id: Id, raw: Token, expiry: Option<Time>)
    requires Stamped(rows, before, links, expiry) && id !in links && rows'.Keys == rows.Keys
    requires forall j :: j in rows' ==>
               rows'[j] == if j == id then WithToken(rows[j], Sha(raw), expiry) else rows[j]
    ensures Stamped(rows', before, links[id := raw], expiry)
  {
  }

  /** Stamping the pending pledges, then giving each its token, is proposing them. */
  lemma ProposedRows(
    s: Cobuy, matched: map<Id, Contribution>, rows: map<Id, Contribution>, mid: Id, at: Time, expiry: Option<Time>,
    links: map<Id, Token>)
    requires links.Keys == PendingIds(s) && matched.Keys == s.contributions.Keys
    requires forall id :: id in matched ==>
               matched[id] == if id in links then MatchedRow(s.contributions[id], mid) else s.contributions[id]
    requires Stamped(rows, matched, links, expiry)
    ensures rows == Propose(s, mid, at, expiry, links).contributions
  {
  }

  /** Tokens drawn from a range, no two alike. */
  predicate DistinctIn(links: map<Id, Token>, from: nat, to: nat) {
    && (forall id :: id in links ==> from <= links[id] < to)
    && (forall i, j :: i in links && j in links && i != j ==> links[i] != links[j])
  }

  lemma LinksAreFresh(l: Ledger, links: map<Id, Token>)
    requires links.Keys == PendingIds(l.cobuy)
    requires DistinctIn(links, l.minted + 1, l.minted + 1 + |PendingIds(l.cobuy)|)
    ensures FreshTokens(l, links)
  {
  }

  lemma DistinctExtends(links: map<Id, Token>, from: nat, raw: Token, id: Id)
    requires DistinctIn(links, from, raw) && from <= raw && id !in links
    ensures DistinctIn(links[id := raw], from, raw + 1)
  {
  }
}
