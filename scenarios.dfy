/**
  Clients of the circulation service: one operation on a small, concrete
  store each, and what a caller can conclude from the contracts alone.
  Together they walk an asset through the whole lifecycle.
 */
module CirculationScenarios {
  import opened Wrappers
  import opened Sequences
  import opened Circulation

  /**
    A store of one asset holding one loan, its open record and holds on that
    asset only is consistent, and the lookups of check-in find the loan and
    the record.
   */
  lemma LentStore(a: Asset, loan: Checkout, open: CheckoutHistory, holds: seq<Hold>)
    requires open.asset == loan.asset && open.checkedIn.None?
    requires forall i :: 0 <= i < |holds| ==> holds[i].asset == loan.asset
    ensures StoreInvariant(map[loan.asset := a], [loan], [open], holds)
    ensures LoanIndex([loan], loan.asset) == Some(0) && RemoveAt([loan], 0) == []
    ensures OpenRecordIndex([open], loan.asset) == Some(0)
  {
    forall x
      ensures HasLoan([loan], x) <==> HasOpenRecord([open], x)
    {
      if x == loan.asset {
        assert [loan][0].asset == x && [open][0].asset == x;
      }
    }
  }

  /** Of two holds on one asset, stored latest first, the earliest is the second, and removing it leaves the first. */
  lemma EarlierHoldStoredSecond(later: Hold, earlier: Hold)
    requires later.asset == earlier.asset && earlier.placed < later.placed
    ensures EarliestHoldIndex([later, earlier], later.asset).Some?
    ensures RemoveAt([later, earlier], EarliestHoldIndex([later, earlier], later.asset).value) == [later]
  {
    assert [later, earlier][1..] == [earlier];
    assert EarliestHoldIndex([later, earlier], later.asset) == Some(1);
  }

  /** Checking out an available asset lends it for thirty days and opens its record. */
  method CheckoutAvailable(id: AssetId, card: CardId, out: Time)
    returns (status: Status, lentOut: bool, loans: seq<Checkout>, records: seq<CheckoutHistory>)
    ensures status == CheckedOut && lentOut
    ensures loans == [Checkout(id, card, out, out + 30)]
    ensures records == [CheckoutHistory(id, card, out, None)]
  {
    var service := new CheckoutService(map[id := Asset(Available)], [], [], []);
    service.CheckoutItem(id, card, out);
    status, lentOut := service.assets[id].status, service.IsCheckedOut(id);
    loans, records := service.checkouts, service.histories;
  }

  /** Checking out an asset already on loan keeps the first loan and its patron. */
  method CheckoutLent(id: AssetId, first: CardId, second: CardId, out: Time, again: Time, displayName: CardId -> string)
    returns (status: Status, loans: seq<Checkout>, records: seq<CheckoutHistory>, patron: string)
    ensures status == CheckedOut
    ensures loans == [Checkout(id, first, out, out + 30)]
    ensures records == [CheckoutHistory(id, first, out, None)]
    ensures patron == displayName(first)
  {
    var loan, open := Checkout(id, first, out, out + LoanPeriodDays), CheckoutHistory(id, first, out, None);
    LentStore(Asset(CheckedOut), loan, open, []);
    var service := new CheckoutService(map[id := Asset(CheckedOut)], [loan], [open], []);
    service.CheckoutItem(id, second, again);
    status, loans, records := service.assets[id].status, service.checkouts, service.histories;
    patron := service.GetCurrentPatron(id, displayName);
  }

  /** Checking in a lent asset with no holds ends the loan, closes the record and frees the asset. */
  method CheckInLent(id: AssetId, card: CardId, out: Time, back: Time)
    returns (status: Status, lentOut: bool, loans: seq<Checkout>, records: seq<CheckoutHistory>, patron: string)
    ensures status == Available && !lentOut && loans == []
    ensures records == [CheckoutHistory(id, card, out, Some(back))]
    ensures patron == NotCheckedOut
  {
    var loan, open := Checkout(id, card, out, out + LoanPeriodDays), CheckoutHistory(id, card, out, None);
    LentStore(Asset(CheckedOut), loan, open, []);
    var service := new CheckoutService(map[id := Asset(CheckedOut)], [loan], [open], []);
    service.CheckInItem(id, back);
    status, lentOut := service.assets[id].status, service.IsCheckedOut(id);
    loans, records := service.checkouts, service.histories;
    patron := service.GetCurrentPatron(id, (c: CardId) => "");
  }

  /**
    Checking in a lent asset with two holds, stored latest first: the hold
    placed earlier goes, the other stays, and the status stays Checked Out
    although no checkout remains.
   */
  method CheckInWithHolds(id: AssetId, card: CardId, early: CardId, late: CardId, out: Time, t1: Time, t2: Time, back: Time)
    returns (status: Status, lentOut: bool, remaining: seq<Hold>, records: seq<CheckoutHistory>)
    requires t1 < t2
    ensures status == CheckedOut && !lentOut
    ensures remaining == [Hold(id, late, t2)]
    ensures records == [CheckoutHistory(id, card, out, Some(back))]
  {
    var loan, open := Checkout(id, card, out, out + LoanPeriodDays), CheckoutHistory(id, card, out, None);
    var queue := [Hold(id, late, t2), Hold(id, early, t1)];
    LentStore(Asset(CheckedOut), loan, open, queue);
    EarlierHoldStoredSecond(Hold(id, late, t2), Hold(id, early, t1));
    var service := new CheckoutService(map[id := Asset(CheckedOut)], [loan], [open], queue);
    service.CheckInItem(id, back);
    status, lentOut := service.assets[id].status, service.IsCheckedOut(id);
    remaining, records := service.holds, service.histories;
  }

  /**
    Checking in a lent asset that was marked lost, with a hold waiting: the
    loan ends and the hold goes, but the status stays Lost.
   */
  method CheckInLostWithHold(id: AssetId, card: CardId, waiting: CardId, out: Time, placed: Time, back: Time)
    returns (status: Status, lentOut: bool, remaining: seq<Hold>)
    ensures status == Lost && !lentOut && remaining == []
  {
    var loan, open := Checkout(id, card, out, out + LoanPeriodDays), CheckoutHistory(id, card, out, None);
    var hold := Hold(id, waiting, placed);
    LentStore(Asset(Lost), loan, open, [hold]);
    assert EarliestHoldIndex([hold], id) == Some(0);
    var service := new CheckoutService(map[id := Asset(Lost)], [loan], [open], [hold]);
    service.CheckInItem(id, back);
    status, lentOut, remaining := service.assets[id].status, service.IsCheckedOut(id), service.holds;
  }

  /** Marking a lent asset lost changes its status only: the loan stays. */
  method MarkLostLent(id: AssetId, card: CardId, out: Time)
    returns (status: Status, lentOut: bool, records: seq<CheckoutHistory>)
    ensures status == Lost && lentOut
    ensures records == [CheckoutHistory(id, card, out, None)]
  {
    var loan, open := Checkout(id, card, out, out + LoanPeriodDays), CheckoutHistory(id, card, out, None);
    LentStore(Asset(CheckedOut), loan, open, []);
    var service := new CheckoutService(map[id := Asset(CheckedOut)], [loan], [open], []);
    service.MarkLost(id);
    status, lentOut, records := service.assets[id].status, service.IsCheckedOut(id), service.histories;
  }

  /**
    Marking a lost asset found frees it, ends its loan and closes its record,
    and leaves a hold placed meanwhile where it is.
   */
  method MarkFoundLost(id: AssetId, card: CardId, waiting: CardId, out: Time, placed: Time, found: Time)
    returns (status: Status, lentOut: bool, records: seq<CheckoutHistory>, queue: seq<Hold>)
    ensures status == Available && !lentOut
    ensures records == [CheckoutHistory(id, card, out, Some(found))]
    ensures queue == [Hold(id, waiting, placed)]
  {
    var loan, open := Checkout(id, card, out, out + LoanPeriodDays), CheckoutHistory(id, card, out, None);
    LentStore(Asset(Lost), loan, open, [Hold(id, waiting, placed)]);
    var service := new CheckoutService(map[id := Asset(Lost)], [loan], [open], [Hold(id, waiting, placed)]);
    service.MarkFound(id, found);
    status, lentOut := service.assets[id].status, service.IsCheckedOut(id);
    records, queue := service.histories, service.holds;
  }

  /** A hold placed on an available asset is the one hold the holds query then returns. */
  method PlaceHoldAvailable(id: AssetId, card: CardId, now: Time)
    returns (status: Status, holdsOn: seq<Hold>)
    ensures status == Available
    ensures holdsOn == [Hold(id, card, now)]
  {
    var service := new CheckoutService(map[id := Asset(Available)], [], [], []);
    assert service.GetCurrentHolds(id) == [];
    service.PlaceHold(id, card, now);
    status, holdsOn := service.assets[id].status, service.GetCurrentHolds(id);
  }

  /**
    Checking an available asset out and back in with no holds on it restores
    the loans, the holds and every other asset, leaves the asset available
    and adds one closed record to the history.
   */
  method CheckoutThenCheckIn(service: CheckoutService, id: AssetId, card: CardId, out: Time, back: Time)
    requires service.Valid() && id in service.assets && !service.IsCheckedOut(id)
    requires EarliestHoldIndex(service.holds, id).None?
    modifies service
    ensures service.Valid()
    ensures service.checkouts == old(service.checkouts) && service.holds == old(service.holds)
    ensures service.histories == old(service.histories) + [CheckoutHistory(id, card, out, Some(back))]
    ensures service.assets == old(service.assets)[id := old(service.assets)[id].(status := Available)]
  {
    ghost var cs, hs := service.checkouts, service.histories;
    assert !HasOpenRecord(hs, id);
    service.CheckoutItem(id, card, out);
    AppendedLoanIsFound(cs, Checkout(id, card, out, out + LoanPeriodDays));
    AppendedRecordIsFound(hs, CheckoutHistory(id, card, out, None));
    service.CheckInItem(id, back);
  }
}
