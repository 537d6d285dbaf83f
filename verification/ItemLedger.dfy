/** One gift item with everything that is given toward it: the owner's price and
    quantity, the reservations, and the co-buying track. */
module ItemLedger {
  import opened Prelude
  import opened Reservations
  import opened Cobuying

  /** `minted` counts the ids and tokens drawn so far. */
  datatype Ledger = Ledger(
    price: Option<int>, quantityWanted: int, archivedAt: Option<Time>,
    reservations: map<Id, Reservation>, cobuy: Cobuy, minted: nat)

  function LiveReservations(l: Ledger): set<Id> {
    set id | id in l.reservations && LiveReservation(l.reservations[id])
  }

  function UnitsColumn(l: Ledger): map<Id, int> {
    map id | id in l.reservations && LiveReservation(l.reservations[id]) :: l.reservations[id].quantity
  }

  /** Units held by live reservations. */
  ghost function Units(l: Ledger): int {
    Total(UnitsColumn(l))
  }

  /** The capacity check of a reserve against the quantity its request read, made
      under the item lock with a wrapping addition. A sum that does not fit the
      database's 64-bit result is a storage error. */
  ghost predicate CanReserve(l: Ledger, quantity: int, wanted: int) {
    LiveIds(l.cobuy) == {} && FitsInt64(Units(l)) && Wrap64(Units(l) + AtLeastOne(quantity)) <= wanted
  }

  function Reserve(l: Ledger, kind: ReserveKind, quantity: int, email: Option<string>, at: Time): Ledger {
    l.(reservations := l.reservations[l.minted := NewReservation(kind, l.minted, quantity, email, l.minted + 1, at)],
       minted := l.minted + 2)
  }

  /** The checks of a pledge against the price its request read. */
  ghost predicate CanPledge(l: Ledger, pledged: int, price: int) {
    LiveReservations(l) == {} && FitsInt64(Funded(l.cobuy)) && Wrap64(Funded(l.cobuy) + pledged) <= price
  }

  function Pledge(l: Ledger, pledged: int, contact: string): Ledger {
    l.(cobuy := Insert(l.cobuy, l.minted, NewPledge(pledged, contact, Sha(l.minted + 1))), minted := l.minted + 2)
  }

  /** One fresh match-action token for each pending pledge. */
  ghost predicate FreshTokens(l: Ledger, tokens: map<Id, Token>) {
    && tokens.Keys == PendingIds(l.cobuy)
    && (forall id :: id in tokens ==> l.minted < tokens[id] <= l.minted + |PendingIds(l.cobuy)|)
    && (forall i, j :: i in tokens && j in tokens && i != j ==> tokens[i] != tokens[j])
  }

  ghost function ProposeIfCovered(l: Ledger, price: int, at: Time, expiry: Option<Time>, tokens: map<Id, Token>): Ledger
    requires FreshTokens(l, tokens)
  {
    if Covered(l.cobuy, price) then
      l.(cobuy := Propose(l.cobuy, l.minted, at, expiry, tokens), minted := l.minted + 1 + |PendingIds(l.cobuy)|)
    else l
  }

  /** The whole contribute request: the pledge if it fits, then the proposal. */
  ghost function Contribute(
    l: Ledger, pledged: int, contact: string, price: int, at: Time, expiry: Option<Time>, tokens: map<Id, Token>)
    : Ledger
    requires FreshTokens(Pledge(l, pledged, contact), tokens)
  {
    if CanPledge(l, pledged, price) then ProposeIfCovered(Pledge(l, pledged, contact), price, at, expiry, tokens) else l
  }

  function Archive(l: Ledger, at: Time): Ledger {
    if l.archivedAt.Some? then l else l.(archivedAt := Some(at))
  }

  function Unarchive(l: Ledger, at: Time): Ledger {
    if l.archivedAt.None? then l else l.(archivedAt := None, reservations := RestartAll(l.reservations, at))
  }

  /** An edit writes back the whole row it read, patched. */
  function EditItem(l: Ledger, price: Option<int>, quantity: int): Ledger {
    l.(price := price, quantityWanted := AtLeastOne(quantity))
  }

  // ------------------------------------------------------------- invariant

  /** The item is held by at most one of the two tracks. */
  ghost predicate Exclusive(l: Ledger) {
    LiveReservations(l) == {} || LiveIds(l.cobuy) == {}
  }

  ghost predicate IdsMinted(l: Ledger) {
    && (forall id :: id in l.reservations ==> id < l.minted)
    && (forall id :: id in l.cobuy.contributions ==> id < l.minted)
    && (forall mid :: mid in l.cobuy.matches ==> mid < l.minted)
    && (forall mid, id :: mid in l.cobuy.matches && id in l.cobuy.matches[mid].members ==> id < l.minted)
  }

  ghost predicate LedgerOk(l: Ledger) {
    && Exclusive(l)
    && IdsMinted(l)
    && Consistent(l.cobuy)
    && (forall id :: id in l.reservations ==> l.reservations[id].quantity >= 1)
  }

  /** Reservation rows are never revived and never change their quantity. */
  ghost predicate ReservationsAge(rows: map<Id, Reservation>, rows': map<Id, Reservation>) {
    forall id :: id in rows && id in rows' ==>
      && rows'[id].quantity == rows[id].quantity
      && (rows[id].state == Expired ==> rows'[id].state == Expired)
  }

  /** How a ledger may relate to a later one: rows are old or newly minted, an
      expired reservation stays expired, a terminal pledge keeps its status, a match
      keeps its members and its outcome. */
  ghost predicate Aged(l: Ledger, l': Ledger) {
    && l.minted <= l'.minted
    && (forall id :: id in l'.reservations ==> id in l.reservations || id >= l.minted)
    && (forall id :: id in l.reservations && id in l'.reservations && l.reservations[id].state == Expired ==>
          l'.reservations[id].state == Expired)
    && (forall id :: id in l'.cobuy.contributions ==> id in l.cobuy.contributions || id >= l.minted)
    && (forall id :: id in l.cobuy.contributions && id in l'.cobuy.contributions && !Live(l.cobuy.contributions[id]) ==>
          l'.cobuy.contributions[id].status == l.cobuy.contributions[id].status)
    && MatchesAdvance(l.cobuy, l'.cobuy)
  }

  lemma AgedTransitive(a: Ledger, b: Ledger, c: Ledger)
    requires Aged(a, b) && Aged(b, c) && IdsMinted(a)
    ensures Aged(a, c)
  {
  }

  /** A step that adds no reservation cannot raise the reserved units. */
  lemma UnitsShrink(l: Ledger, l': Ledger)
    requires LedgerOk(l)
    requires l'.reservations.Keys <= l.reservations.Keys && ReservationsAge(l.reservations, l'.reservations)
    ensures 0 <= Units(l') <= Units(l)
    ensures LiveReservations(l') <= LiveReservations(l)
  {
    TotalOfPart(UnitsColumn(l'), UnitsColumn(l));
  }

  lemma ReserveKeeps(l: Ledger, kind: ReserveKind, quantity: int, email: Option<string>, at: Time)
    requires LedgerOk(l) && quantity >= 1 && LiveIds(l.cobuy) == {}
    ensures var l' := Reserve(l, kind, quantity, email, at);
            LedgerOk(l') && Aged(l, l') && Units(l') == Units(l) + quantity
  {
    var l' := Reserve(l, kind, quantity, email, at);
    TotalInsert(UnitsColumn(l), l.minted, quantity);
    assert UnitsColumn(l') == UnitsColumn(l)[l.minted := quantity];
  }

  lemma PledgeKeeps(l: Ledger, pledged: int, contact: string)
    requires LedgerOk(l) && pledged > 0 && LiveReservations(l) == {}
    ensures var l' := Pledge(l, pledged, contact);
            LedgerOk(l') && Aged(l, l') && Funded(l'.cobuy) == Funded(l.cobuy) + pledged
  {
    PledgeInserts(l, pledged, contact);
    PledgeAddsOneRow(l, pledged, contact);
  }

  lemma PledgeInserts(l: Ledger, pledged: int, contact: string)
    requires IdsMinted(l) && Consistent(l.cobuy) && pledged > 0
    ensures Consistent(Pledge(l, pledged, contact).cobuy)
    ensures Funded(Pledge(l, pledged, contact).cobuy) == Funded(l.cobuy) + pledged
  {
    FreshInsertKeeps(l, pledged, contact);
    assert Pledge(l, pledged, contact).cobuy ==
           Insert(l.cobuy, l.minted, NewPledge(pledged, contact, Sha(l.minted + 1)));
  }

  lemma FreshInsertKeeps(l: Ledger, pledged: int, contact: string)
    requires IdsMinted(l) && Consistent(l.cobuy) && pledged > 0
    ensures var s' := Insert(l.cobuy, l.minted, NewPledge(pledged, contact, Sha(l.minted + 1)));
            Consistent(s') && Funded(s') == Funded(l.cobuy) + pledged
  {
    MintedIsNew(l);
    InsertKeeps(l.cobuy, l.minted, pledged, contact, Sha(l.minted + 1));
  }

  lemma MintedIsNew(l: Ledger)
    requires IdsMinted(l)
    ensures l.minted !in l.cobuy.contributions && l.minted !in l.cobuy.matches && l.minted !in l.reservations
    ensures forall mid :: mid in l.cobuy.matches ==> l.minted !in l.cobuy.matches[mid].members
  {
  }

  lemma PledgeAddsOneRow(l: Ledger, pledged: int, contact: string)
    requires IdsMinted(l)
    ensures IdsMinted(Pledge(l, pledged, contact)) && Aged(l, Pledge(l, pledged, contact))
    ensures LiveReservations(Pledge(l, pledged, contact)) == LiveReservations(l)
  {
  }

  lemma ProposalKeeps(l: Ledger, price: int, at: Time, expiry: Option<Time>, tokens: map<Id, Token>)
    requires LedgerOk(l) && FreshTokens(l, tokens)
    ensures var l' := ProposeIfCovered(l, price, at, expiry, tokens);
            LedgerOk(l') && Aged(l, l') && NoRevival(l.cobuy, l'.cobuy)
  {
    if Covered(l.cobuy, price) {
      ProposeKeeps(l.cobuy, l.minted, at, expiry, tokens);
      ProposalMints(l, price, at, expiry, tokens);
    }
  }

  lemma ProposalMints(l: Ledger, price: int, at: Time, expiry: Option<Time>, tokens: map<Id, Token>)
    requires IdsMinted(l) && FreshTokens(l, tokens)
    ensures IdsMinted(ProposeIfCovered(l, price, at, expiry, tokens))
  {
  }

  lemma ContributeKeeps(
    l: Ledger, pledged: int, contact: string, price: int, at: Time, expiry: Option<Time>, tokens: map<Id, Token>)
    requires LedgerOk(l) && pledged > 0 && FreshTokens(Pledge(l, pledged, contact), tokens)
    ensures var l' := Contribute(l, pledged, contact, price, at, expiry, tokens);
            LedgerOk(l') && Aged(l, l')
  {
    if CanPledge(l, pledged, price) {
      PledgeKeeps(l, pledged, contact);
      var funded := Pledge(l, pledged, contact);
      ProposalKeeps(funded, price, at, expiry, tokens);
      AgedTransitive(l, funded, ProposeIfCovered(funded, price, at, expiry, tokens));
    }
  }

  /** A step of the co-buying track alone: it adds no pledge, frees some, and draws
      no id. */
  lemma CobuyStepKeeps(l: Ledger, s': Cobuy)
    requires LedgerOk(l) && Consistent(s') && NoRevival(l.cobuy, s') && MatchesAdvance(l.cobuy, s')
    requires LiveIds(s') <= LiveIds(l.cobuy) && s'.matches.Keys == l.cobuy.matches.Keys
    ensures LedgerOk(l.(cobuy := s')) && Aged(l, l.(cobuy := s'))
  {
  }

  lemma ConfirmKeepsLedger(l: Ledger, cid: Id, mid: Id)
    requires LedgerOk(l)
    ensures LedgerOk(l.(cobuy := Confirm(l.cobuy, cid, mid))) && Aged(l, l.(cobuy := Confirm(l.cobuy, cid, mid)))
  {
    ConfirmKeeps(l.cobuy, cid, mid);
    ConfirmEffect(l.cobuy, cid, mid);
    CobuyStepKeeps(l, Confirm(l.cobuy, cid, mid));
  }

  lemma DeclineKeepsLedger(l: Ledger, cid: Id, mid: Id)
    requires LedgerOk(l) && cid in Linked(l.cobuy, mid) && mid in l.cobuy.matches
    requires l.cobuy.matches[mid].state == Proposed
    ensures LedgerOk(l.(cobuy := Decline(l.cobuy, cid, mid))) && Aged(l, l.(cobuy := Decline(l.cobuy, cid, mid)))
  {
    DeclineKeeps(l.cobuy, cid, mid);
    CobuyStepKeeps(l, Decline(l.cobuy, cid, mid));
  }

  lemma WithdrawKeepsLedger(l: Ledger, cid: Id)
    requires LedgerOk(l) && cid in l.cobuy.contributions
    ensures LedgerOk(l.(cobuy := Withdraw(l.cobuy, cid))) && Aged(l, l.(cobuy := Withdraw(l.cobuy, cid)))
  {
    WithdrawKeeps(l.cobuy, cid);
    CobuyStepKeeps(l, Withdraw(l.cobuy, cid));
  }

  lemma ExpireKeepsLedger(l: Ledger, mid: Id)
    requires LedgerOk(l)
    ensures var l' := l.(cobuy := ExpireIfProposed(l.cobuy, mid)); LedgerOk(l') && Aged(l, l')
  {
    ExpireKeeps(l.cobuy, mid);
    CobuyStepKeeps(l, ExpireIfProposed(l.cobuy, mid));
  }

  lemma ReservationStepKeeps(l: Ledger, rows': map<Id, Reservation>)
    requires LedgerOk(l)
    requires rows'.Keys <= l.reservations.Keys && ReservationsAge(l.reservations, rows')
    ensures LedgerOk(l.(reservations := rows')) && Aged(l, l.(reservations := rows'))
  {
  }

  lemma OwnerStepKeeps(l: Ledger, price: Option<int>, quantity: int, at: Time)
    requires LedgerOk(l)
    ensures LedgerOk(EditItem(l, price, quantity)) && Aged(l, EditItem(l, price, quantity))
    ensures LedgerOk(Archive(l, at)) && Aged(l, Archive(l, at))
    ensures LedgerOk(Unarchive(l, at)) && Aged(l, Unarchive(l, at))
  {
    ReservationStepKeeps(l, RestartAll(l.reservations, at));
  }

  // -------------------------------------------------------- bounds, exactly

  /** A reserve is let in if and only if no pledge holds the item and the units asked for
      are left, whenever the sum fits 64 bits. */
  ghost predicate ReserveRight(l: Ledger, quantity: int, wanted: int, letIn: bool) {
    LedgerOk(l) && quantity >= 1 && FitsInt64(Units(l) + quantity) ==>
      (letIn <==> NoPledgeHolds(l) && Units(l) + quantity <= wanted)
  }

  /** The same for a pledge and what is left of the price. */
  ghost predicate PledgeRight(l: Ledger, pledged: int, price: int, letIn: bool) {
    LedgerOk(l) && pledged > 0 && FitsInt64(Funded(l.cobuy) + pledged) ==>
      (letIn <==> NoReservationHolds(l) && Funded(l.cobuy) + pledged <= price)
  }

  lemma ReserveFits(l: Ledger, quantity: int, wanted: int)
    ensures ReserveRight(l, quantity, wanted, CanReserve(l, quantity, wanted))
  {
    if LedgerOk(l) {
      UnitsShrink(l, l);
    }
    assert forall id :: id in l.cobuy.contributions && Live(l.cobuy.contributions[id]) ==> id in LiveIds(l.cobuy);
  }

  lemma PledgeFits(l: Ledger, pledged: int, price: int)
    ensures PledgeRight(l, pledged, price, CanPledge(l, pledged, price))
  {
    if LedgerOk(l) {
      FundedShrinks(l.cobuy, l.cobuy);
    }
    assert forall id :: id in l.reservations && LiveReservation(l.reservations[id]) ==> id in LiveReservations(l);
  }

  /** Every pledge was declined, withdrawn or has expired. */
  predicate NoPledgeHolds(l: Ledger) {
    forall id :: id in l.cobuy.contributions ==>
      l.cobuy.contributions[id].status in {Declined, Withdrawn, PledgeExpired}
  }

  predicate NoReservationHolds(l: Ledger) {
    forall id :: id in l.reservations ==> l.reservations[id].state == Expired
  }

  /** A reserve that passes its check leaves the reserved units within the quantity
      it was checked against if and only if the checked sum fits 64 bits. */
  lemma ReserveWithinWantedIff(
    l: Ledger, kind: ReserveKind, quantity: int, email: Option<string>, at: Time, wanted: int)
    requires LedgerOk(l) && quantity >= 1 && FitsInt64(wanted) && CanReserve(l, quantity, wanted)
    ensures Units(Reserve(l, kind, quantity, email, at)) <= wanted <==> FitsInt64(Units(l) + quantity)
  {
    ReserveKeeps(l, kind, quantity, email, at);
    UnitsShrink(l, l);
  }

  /** The same for pledges and the price. */
  lemma PledgeWithinPriceIff(l: Ledger, pledged: int, contact: string, price: int)
    requires LedgerOk(l) && pledged > 0 && FitsInt64(price) && CanPledge(l, pledged, price)
    ensures Funded(Pledge(l, pledged, contact).cobuy) <= price <==> FitsInt64(Funded(l.cobuy) + pledged)
  {
    PledgeKeeps(l, pledged, contact);
    FundedShrinks(l.cobuy, l.cobuy);
  }

  /** One unit of two is reserved; a request for the largest int64 wraps past the
      check and oversells the item. */
  lemma OversellByOverflow()
    ensures var row := NewReservation(Guest, 0, 1, None, 1, 0);
            var l := Ledger(None, 2, None, map[0 := row], Cobuy(map[], map[]), 2);
            && LedgerOk(l) && Units(l) <= l.quantityWanted
            && CanReserve(l, MAX_INT64, l.quantityWanted)
            && Units(Reserve(l, Guest, MAX_INT64, None, 0)) > l.quantityWanted
  {
    var row := NewReservation(Guest, 0, 1, None, 1, 0);
    var l := Ledger(None, 2, None, map[0 := row], Cobuy(map[], map[]), 2);
    assert UnitsColumn(l) == map[][0 := 1];
    TotalInsert(map[], 0, 1);
    assert Units(l) == 1;
    assert Wrap64(1 + MAX_INT64) == MIN_INT64;
    ReserveKeeps(l, Guest, MAX_INT64, None, 0);
  }

  lemma OnePledgeSound()
    ensures LedgerOk(Ledger(Some(2), 1, None, map[], Cobuy(map[0 := NewPledge(1, "", Sha(1))], map[]), 2))
  {
    assert PledgeOk(Cobuy(map[0 := NewPledge(1, "", Sha(1))], map[]), 0);
  }

  /** The same for pledges: beside a pledge of one, the largest int64 wraps past the
      check and overfunds the item. */
  lemma OverfundByOverflow()
    ensures var l := Ledger(Some(2), 1, None, map[], Cobuy(map[0 := NewPledge(1, "", Sha(1))], map[]), 2);
            && LedgerOk(l) && Funded(l.cobuy) <= 2
            && CanPledge(l, MAX_INT64, 2)
            && Funded(Pledge(l, MAX_INT64, "").cobuy) > 2
  {
    var l := Ledger(Some(2), 1, None, map[], Cobuy(map[0 := NewPledge(1, "", Sha(1))], map[]), 2);
    OnePledgeSound();
    assert Pledges(l.cobuy, LiveIds(l.cobuy)) == map[][0 := 1];
    TotalInsert(map[], 0, 1);
    assert Funded(l.cobuy) == 1;
    assert Wrap64(1 + MAX_INT64) == MIN_INT64;
    PledgeKeeps(l, MAX_INT64, "");
  }
}
