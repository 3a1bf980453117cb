/**
  The circulation lifecycle of the library: assets with a status, active
  checkouts, the checkout history and holds, kept in one in-memory store and
  changed by check-out, check-in, mark-lost, mark-found and place-hold.

  Time is a whole number of days supplied by the caller; the loan period is
  thirty of them. Every collection is kept in insertion order, which is the
  order in which a query without an ordering meets the records.
 */
module Circulation {
  import opened Wrappers
  import opened Sequences

  type AssetId = int
  type CardId = int
  type Time = int

  /** Length of a loan, in days. */
  const LoanPeriodDays: int := 30

  /** What the current-patron query answers for an asset nobody has. */
  const NotCheckedOut: string := "Not checked out"

  datatype Status = Available | CheckedOut | Lost

  /** The name under which a status is stored in the status table. */
  function StatusName(s: Status): string {
    match s
    case Available => "Available"
    case CheckedOut => "Checked Out"
    case Lost => "Lost"
  }

  /** Looking a status up in the status table by its name. */
  function StatusNamed(name: string): (r: Option<Status>)
    ensures forall s :: r == Some(s) <==> StatusName(s) == name
  {
    if name == "Available" then Some(Available)
    else if name == "Checked Out" then Some(CheckedOut)
    else if name == "Lost" then Some(Lost)
    else None
  }

  /** A catalogued item, reduced to the one attribute circulation changes. */
  datatype Asset = Asset(status: Status)

  /** An active loan of an asset on a library card. */
  datatype Checkout = Checkout(asset: AssetId, card: CardId, since: Time, until: Time)

  /** The record of one loan period; open while `checkedIn` is None. */
  datatype CheckoutHistory = CheckoutHistory(asset: AssetId, card: CardId, checkedOut: Time, checkedIn: Option<Time>)

  /** A reservation of an asset on a library card. */
  datatype Hold = Hold(asset: AssetId, card: CardId, placed: Time)

  // ---------------------------------------------------------------------------
  // Queries over the collections

  /** Whether some checkout is a loan of `id`. */
  predicate HasLoan(cs: seq<Checkout>, id: AssetId) {
    exists i :: 0 <= i < |cs| && cs[i].asset == id
  }

  /** Whether some history record of `id` is still open. */
  predicate HasOpenRecord(hs: seq<CheckoutHistory>, id: AssetId) {
    exists i :: 0 <= i < |hs| && hs[i].asset == id && hs[i].checkedIn.None?
  }

  /** The position of the first checkout of `id`. */
  function LoanIndex(cs: seq<Checkout>, id: AssetId): (r: Option<nat>)
    ensures r.None? <==> !HasLoan(cs, id)
    ensures r.Some? ==> r.value < |cs| && cs[r.value].asset == id
    ensures r.Some? ==> forall i :: 0 <= i < r.value ==> cs[i].asset != id
  {
    if |cs| == 0 then None
    else if cs[0].asset == id then Some(0)
    else
      var rest := LoanIndex(cs[1..], id);
      assert HasLoan(cs, id) ==> HasLoan(cs[1..], id) by {
        if HasLoan(cs, id) {
          var i :| 0 <= i < |cs| && cs[i].asset == id;
          assert cs[1..][i - 1].asset == id;
        }
      }
      match rest
      case None => None
      case Some(k) => Some(k + 1)
  }

  /** The position of the first open history record of `id`. */
  function OpenRecordIndex(hs: seq<CheckoutHistory>, id: AssetId): (r: Option<nat>)
    ensures r.None? <==> !HasOpenRecord(hs, id)
    ensures r.Some? ==> r.value < |hs| && hs[r.value].asset == id && hs[r.value].checkedIn.None?
    ensures r.Some? ==> forall i :: 0 <= i < r.value ==> !(hs[i].asset == id && hs[i].checkedIn.None?)
  {
    if |hs| == 0 then None
    else if hs[0].asset == id && hs[0].checkedIn.None? then Some(0)
    else
      var rest := OpenRecordIndex(hs[1..], id);
      assert HasOpenRecord(hs, id) ==> HasOpenRecord(hs[1..], id) by {
        if HasOpenRecord(hs, id) {
          var i :| 0 <= i < |hs| && hs[i].asset == id && hs[i].checkedIn.None?;
          assert hs[1..][i - 1] == hs[i];
        }
      }
      match rest
      case None => None
      case Some(k) => Some(k + 1)
  }

  /** The holds on `id`, in store order. */
  function HoldsOn(hs: seq<Hold>, id: AssetId): (r: seq<Hold>)
    ensures forall h {:trigger multiset(r)[h]} :: multiset(r)[h] == if h.asset == id then multiset(hs)[h] else 0
  {
    if |hs| == 0 then []
    else
      assert hs == [hs[0]] + hs[1..];
      (if hs[0].asset == id then [hs[0]] else []) + HoldsOn(hs[1..], id)
  }

  /**
    The history records of `id`, in store order. The same filter as `HoldsOn`,
    written out for the history's record type rather than made generic over a
    selector function.
   */
  function RecordsOf(hs: seq<CheckoutHistory>, id: AssetId): (r: seq<CheckoutHistory>)
    ensures forall h {:trigger multiset(r)[h]} :: multiset(r)[h] == if h.asset == id then multiset(hs)[h] else 0
  {
    if |hs| == 0 then []
    else
      assert hs == [hs[0]] + hs[1..];
      (if hs[0].asset == id then [hs[0]] else []) + RecordsOf(hs[1..], id)
  }

  /** The holds on `id` in a concatenation are those of each part, in order. */
  lemma {:induction false} HoldsOnAppend(a: seq<Hold>, b: seq<Hold>, id: AssetId)
    ensures HoldsOn(a + b, id) == HoldsOn(a, id) + HoldsOn(b, id)
  {
    if |a| == 0 {
      assert a + b == b;
    } else {
      var head := if a[0].asset == id then [a[0]] else [];
      assert (a + b)[0] == a[0] && (a + b)[1..] == a[1..] + b;
      assert HoldsOn(a + b, id) == head + HoldsOn(a[1..] + b, id);
      HoldsOnAppend(a[1..], b, id);
      assert head + (HoldsOn(a[1..], id) + HoldsOn(b, id)) == (head + HoldsOn(a[1..], id)) + HoldsOn(b, id);
    }
  }

  /** The records of `id` in a concatenation are those of each part, in order. */
  lemma {:induction false} RecordsOfAppend(a: seq<CheckoutHistory>, b: seq<CheckoutHistory>, id: AssetId)
    ensures RecordsOf(a + b, id) == RecordsOf(a, id) + RecordsOf(b, id)
  {
    if |a| == 0 {
      assert a + b == b;
    } else {
      var head := if a[0].asset == id then [a[0]] else [];
      assert (a + b)[0] == a[0] && (a + b)[1..] == a[1..] + b;
      assert RecordsOf(a + b, id) == head + RecordsOf(a[1..] + b, id);
      RecordsOfAppend(a[1..], b, id);
      assert head + (RecordsOf(a[1..], id) + RecordsOf(b, id)) == (head + RecordsOf(a[1..], id)) + RecordsOf(b, id);
    }
  }

  /**
    The position of the hold on `id` placed earliest; among holds placed at
    the same time, the one stored first.
   */
  function EarliestHoldIndex(hs: seq<Hold>, id: AssetId): (r: Option<nat>)
    ensures r.None? <==> forall i :: 0 <= i < |hs| ==> hs[i].asset != id
    ensures r.Some? ==> r.value < |hs| && hs[r.value].asset == id
    ensures r.Some? ==> forall i :: 0 <= i < |hs| && hs[i].asset == id ==> hs[r.value].placed <= hs[i].placed
    ensures r.Some? ==> forall i :: 0 <= i < r.value && hs[i].asset == id ==> hs[r.value].placed < hs[i].placed
  {
    if |hs| == 0 then None
    else
      var rest := EarliestHoldIndex(hs[1..], id);
      if hs[0].asset != id then
        (match rest case None => None case Some(k) => Some(k + 1))
      else if rest.None? || hs[0].placed <= hs[1 + rest.value].placed then Some(0)
      else Some(rest.value + 1)
  }

  /**
    The position of the checkout of `id` that started last; among checkouts
    started at the same time, the one stored first.
   */
  function LatestCheckoutIndex(cs: seq<Checkout>, id: AssetId): (r: Option<nat>)
    ensures r.None? <==> forall i :: 0 <= i < |cs| ==> cs[i].asset != id
    ensures r.Some? ==> r.value < |cs| && cs[r.value].asset == id
    ensures r.Some? ==> forall i :: 0 <= i < |cs| && cs[i].asset == id ==> cs[i].since <= cs[r.value].since
    ensures r.Some? ==> forall i :: 0 <= i < r.value && cs[i].asset == id ==> cs[i].since < cs[r.value].since
  {
    if |cs| == 0 then None
    else
      var rest := LatestCheckoutIndex(cs[1..], id);
      if cs[0].asset != id then
        (match rest case None => None case Some(k) => Some(k + 1))
      else if rest.None? || cs[0].since >= cs[1 + rest.value].since then Some(0)
      else Some(rest.value + 1)
  }

  // ---------------------------------------------------------------------------
  // The store invariant

  /** At most one active checkout per asset. */
  ghost predicate OneLoanPerAsset(cs: seq<Checkout>) {
    forall i, j :: 0 <= i < j < |cs| ==> cs[i].asset != cs[j].asset
  }

  /** At most one open history record per asset. */
  ghost predicate OneOpenRecordPerAsset(hs: seq<CheckoutHistory>) {
    forall i, j :: 0 <= i < j < |hs| && hs[i].checkedIn.None? && hs[j].checkedIn.None? ==> hs[i].asset != hs[j].asset
  }

  /** An asset has an active checkout exactly when it has an open history record. */
  ghost predicate LoansMatchOpenRecords(cs: seq<Checkout>, hs: seq<CheckoutHistory>) {
    forall id :: HasLoan(cs, id) <==> HasOpenRecord(hs, id)
  }

  /** Every checkout, history record and hold refers to a catalogued asset. */
  ghost predicate RefersToCatalog(assets: map<AssetId, Asset>, cs: seq<Checkout>, hs: seq<CheckoutHistory>, holds: seq<Hold>) {
    && (forall i :: 0 <= i < |cs| ==> cs[i].asset in assets)
    && (forall i :: 0 <= i < |hs| ==> hs[i].asset in assets)
    && (forall i :: 0 <= i < |holds| ==> holds[i].asset in assets)
  }

  ghost predicate StoreInvariant(assets: map<AssetId, Asset>, cs: seq<Checkout>, hs: seq<CheckoutHistory>, holds: seq<Hold>) {
    && OneLoanPerAsset(cs)
    && OneOpenRecordPerAsset(hs)
    && LoansMatchOpenRecords(cs, hs)
    && RefersToCatalog(assets, cs, hs, holds)
  }

  /**
    `after` keeps every record of `before` in its place, and differs from it
    only in records that were open in `before` and are closed in `after`.
   */
  ghost predicate HistoryGrows(before: seq<CheckoutHistory>, after: seq<CheckoutHistory>) {
    && |before| <= |after|
    && forall i :: 0 <= i < |before| ==>
         || after[i] == before[i]
         || (before[i].checkedIn.None? && after[i].checkedIn.Some? && after[i] == before[i].(checkedIn := after[i].checkedIn))
  }

  /** Over any series of operations the history only grows: no record is lost and no closed record changes. */
  lemma HistoryGrowsTransitive(a: seq<CheckoutHistory>, b: seq<CheckoutHistory>, c: seq<CheckoutHistory>)
    requires HistoryGrows(a, b) && HistoryGrows(b, c)
    ensures HistoryGrows(a, c)
    ensures forall i :: 0 <= i < |a| && a[i].checkedIn.Some? ==> c[i] == a[i]
  {
  }

  // ---------------------------------------------------------------------------
  // What each step of an operation does to the invariant and to the queries

  /** Removing the loan of `id` leaves no loan of `id` and every other asset's loan as it was. */
  lemma RemoveLoan(cs: seq<Checkout>, id: AssetId, k: nat)
    requires OneLoanPerAsset(cs) && k < |cs| && cs[k].asset == id
    ensures OneLoanPerAsset(RemoveAt(cs, k))
    ensures !HasLoan(RemoveAt(cs, k), id)
    ensures forall other :: other != id ==> (HasLoan(RemoveAt(cs, k), other) <==> HasLoan(cs, other))
  {
    var r := RemoveAt(cs, k);
    forall other | other != id
      ensures HasLoan(r, other) <==> HasLoan(cs, other)
    {
      if HasLoan(cs, other) {
        var j :| 0 <= j < |cs| && cs[j].asset == other;
        if j < k {
          assert r[j] == cs[j];
        } else {
          assert r[j - 1] == cs[j];
        }
      }
      if HasLoan(r, other) {
        var j :| 0 <= j < |r| && r[j].asset == other;
        if j < k {
          assert r[j] == cs[j];
        } else {
          assert r[j] == cs[j + 1];
        }
      }
    }
    forall j | 0 <= j < |r|
      ensures r[j].asset != id
    {
      if j < k {
        assert r[j] == cs[j];
      } else {
        assert r[j] == cs[j + 1];
      }
    }
  }

  /** Closing the open record of `id` leaves no open record of `id` and every other asset's open record as it was. */
  lemma CloseRecord(hs: seq<CheckoutHistory>, id: AssetId, k: nat, now: Time)
    requires OneOpenRecordPerAsset(hs) && k < |hs| && hs[k].asset == id && hs[k].checkedIn.None?
    ensures OneOpenRecordPerAsset(hs[k := hs[k].(checkedIn := Some(now))])
    ensures !HasOpenRecord(hs[k := hs[k].(checkedIn := Some(now))], id)
    ensures forall other :: other != id ==>
              (HasOpenRecord(hs[k := hs[k].(checkedIn := Some(now))], other) <==> HasOpenRecord(hs, other))
  {
    var r := hs[k := hs[k].(checkedIn := Some(now))];
    forall other | other != id
      ensures HasOpenRecord(r, other) <==> HasOpenRecord(hs, other)
    {
      if HasOpenRecord(hs, other) {
        var j :| 0 <= j < |hs| && hs[j].asset == other && hs[j].checkedIn.None?;
        assert r[j] == hs[j];
      }
      if HasOpenRecord(r, other) {
        var j :| 0 <= j < |r| && r[j].asset == other && r[j].checkedIn.None?;
        assert r[j] == hs[j];
      }
    }
  }

  /** Appending a loan of an asset that has none gives it one and changes no other asset's. */
  lemma AddLoan(cs: seq<Checkout>, c: Checkout)
    requires OneLoanPerAsset(cs) && !HasLoan(cs, c.asset)
    ensures OneLoanPerAsset(cs + [c])
    ensures HasLoan(cs + [c], c.asset)
    ensures forall other :: other != c.asset ==> (HasLoan(cs + [c], other) <==> HasLoan(cs, other))
  {
    var r := cs + [c];
    assert r[|cs|] == c;
    forall other | other != c.asset
      ensures HasLoan(r, other) <==> HasLoan(cs, other)
    {
      if HasLoan(cs, other) {
        var j :| 0 <= j < |cs| && cs[j].asset == other;
        assert r[j] == cs[j];
      }
      if HasLoan(r, other) {
        var j :| 0 <= j < |r| && r[j].asset == other;
        assert r[j] == cs[j];
      }
    }
  }

  /** Appending an open record of an asset that has none gives it one and changes no other asset's. */
  lemma AddOpenRecord(hs: seq<CheckoutHistory>, h: CheckoutHistory)
    requires OneOpenRecordPerAsset(hs) && !HasOpenRecord(hs, h.asset) && h.checkedIn.None?
    ensures OneOpenRecordPerAsset(hs + [h])
    ensures HasOpenRecord(hs + [h], h.asset)
    ensures forall other :: other != h.asset ==> (HasOpenRecord(hs + [h], other) <==> HasOpenRecord(hs, other))
  {
    var r := hs + [h];
    assert r[|hs|] == h;
    forall other | other != h.asset
      ensures HasOpenRecord(r, other) <==> HasOpenRecord(hs, other)
    {
      if HasOpenRecord(hs, other) {
        var j :| 0 <= j < |hs| && hs[j].asset == other && hs[j].checkedIn.None?;
        assert r[j] == hs[j];
      }
      if HasOpenRecord(r, other) {
        var j :| 0 <= j < |r| && r[j].asset == other && r[j].checkedIn.None?;
        assert r[j] == hs[j];
      }
    }
  }

  /** A loan appended for an asset that had none is the one that asset's lookup finds; removing it restores the loans. */
  lemma AppendedLoanIsFound(cs: seq<Checkout>, c: Checkout)
    requires !HasLoan(cs, c.asset)
    ensures LoanIndex(cs + [c], c.asset) == Some(|cs|)
    ensures RemoveAt(cs + [c], |cs|) == cs
  {
    var r := cs + [c];
    assert r[|cs|] == c;
    forall i | 0 <= i < |cs|
      ensures r[i].asset != c.asset
    {
      assert r[i] == cs[i];
    }
    assert r[..|cs|] == cs && r[|cs| + 1..] == [];
  }

  /** An open record appended for an asset that had none is the one that asset's lookup finds. */
  lemma AppendedRecordIsFound(hs: seq<CheckoutHistory>, h: CheckoutHistory)
    requires !HasOpenRecord(hs, h.asset) && h.checkedIn.None?
    ensures OpenRecordIndex(hs + [h], h.asset) == Some(|hs|)
  {
    var r := hs + [h];
    assert r[|hs|] == h;
    forall i | 0 <= i < |hs|
      ensures !(r[i].asset == h.asset && r[i].checkedIn.None?)
    {
      assert r[i] == hs[i];
    }
  }

  /** With one loan per asset, the latest checkout of an asset is its only one. */
  lemma LatestCheckoutIsTheLoan(cs: seq<Checkout>, id: AssetId)
    requires OneLoanPerAsset(cs)
    ensures LatestCheckoutIndex(cs, id) == LoanIndex(cs, id)
  {
  }

  /** Ending the loan of `id` and closing its open record keeps the store consistent. */
  lemma EndLoanKeepsInvariant(
    assets: map<AssetId, Asset>, cs: seq<Checkout>, cs': seq<Checkout>,
    hs: seq<CheckoutHistory>, hs': seq<CheckoutHistory>, holds: seq<Hold>, id: AssetId)
    requires StoreInvariant(assets, cs, hs, holds)
    requires OneLoanPerAsset(cs') && !HasLoan(cs', id)
    requires forall other :: other != id ==> (HasLoan(cs', other) <==> HasLoan(cs, other))
    requires forall c :: c in cs' ==> c in cs
    requires OneOpenRecordPerAsset(hs') && !HasOpenRecord(hs', id)
    requires forall other :: other != id ==> (HasOpenRecord(hs', other) <==> HasOpenRecord(hs, other))
    requires |hs'| == |hs| && forall i :: 0 <= i < |hs| ==> hs'[i].asset == hs[i].asset
    ensures StoreInvariant(assets, cs', hs', holds)
  {
    forall i | 0 <= i < |cs'|
      ensures cs'[i].asset in assets
    {
      assert cs'[i] in cs;
    }
  }

  /** Removing a hold on `id` takes exactly that hold out of the holds on `id`. */
  lemma HoldsOnRemoveMatching(hs: seq<Hold>, k: nat, id: AssetId)
    requires k < |hs| && hs[k].asset == id
    ensures multiset(HoldsOn(RemoveAt(hs, k), id)) == multiset(HoldsOn(hs, id)) - multiset{hs[k]}
  {
    var r, y := RemoveAt(hs, k), hs[k];
    forall x
      ensures multiset(HoldsOn(r, id))[x] == (multiset(HoldsOn(hs, id)) - multiset{y})[x]
    {
      if x == y {
        assert multiset(r)[x] == multiset(hs)[x] - 1;
      } else {
        assert multiset(r)[x] == multiset(hs)[x];
      }
    }
  }

  /** Removing a hold on one asset leaves the holds on every other asset, in order, as they were. */
  lemma HoldsOnRemoveOther(hs: seq<Hold>, k: nat, other: AssetId)
    requires k < |hs| && hs[k].asset != other
    ensures HoldsOn(RemoveAt(hs, k), other) == HoldsOn(hs, other)
  {
    var front, back := hs[..k], hs[k + 1..];
    var rest := [hs[k]] + back;
    assert hs[k..] == rest;
    assert hs == front + hs[k..];
    assert rest[1..] == back;
    assert HoldsOn(rest, other) == HoldsOn(back, other);
    HoldsOnAppend(front, rest, other);
    HoldsOnAppend(front, back, other);
  }

  /**
    Removing the earliest hold on `id` takes exactly that hold out of the
    holds on `id` and leaves the holds on every other asset as they were.
   */
  lemma RemoveEarliestHold(hs: seq<Hold>, id: AssetId)
    requires EarliestHoldIndex(hs, id).Some?
    ensures var k := EarliestHoldIndex(hs, id).value;
            multiset(HoldsOn(RemoveAt(hs, k), id)) == multiset(HoldsOn(hs, id)) - multiset{hs[k]}
    ensures var k := EarliestHoldIndex(hs, id).value;
            forall other :: other != id ==> HoldsOn(RemoveAt(hs, k), other) == HoldsOn(hs, other)
  {
    var k := EarliestHoldIndex(hs, id).value;
    HoldsOnRemoveMatching(hs, k, id);
    forall other | other != id
      ensures HoldsOn(RemoveAt(hs, k), other) == HoldsOn(hs, other)
    {
      HoldsOnRemoveOther(hs, k, other);
    }
  }

  // ---------------------------------------------------------------------------
  // The service

  /** The circulation service over its store. */
  class CheckoutService {
    var assets: map<AssetId, Asset>
    var checkouts: seq<Checkout>
    var histories: seq<CheckoutHistory>
    var holds: seq<Hold>

    ghost predicate Valid()
      reads this
    {
      StoreInvariant(assets, checkouts, histories, holds)
    }

    constructor (assets: map<AssetId, Asset>, checkouts: seq<Checkout>, histories: seq<CheckoutHistory>, holds: seq<Hold>)
      requires StoreInvariant(assets, checkouts, histories, holds)
      ensures Valid()
      ensures this.assets == assets && this.checkouts == checkouts
      ensures this.histories == histories && this.holds == holds
    {
      this.assets := assets;
      this.checkouts := checkouts;
      this.histories := histories;
      this.holds := holds;
    }

    /** Whether the asset is on loan. */
    function IsCheckedOut(id: AssetId): (b: bool)
      reads this
      ensures b <==> exists c :: c in checkouts && c.asset == id
    {
      HasLoan(checkouts, id)
    }

    /** The holds on the asset, in the order they were stored. */
    function GetCurrentHolds(id: AssetId): (r: seq<Hold>)
      reads this
      ensures forall h :: multiset(r)[h] == if h.asset == id then multiset(holds)[h] else 0
    {
      HoldsOn(holds, id)
    }

    /** Every history record of the asset, open or closed, in the order they were stored. */
    function GetCheckoutHistory(id: AssetId): (r: seq<CheckoutHistory>)
      reads this
      ensures forall h :: multiset(r)[h] == if h.asset == id then multiset(histories)[h] else 0
    {
      RecordsOf(histories, id)
    }

    /** The checkout of the asset with the greatest start time, if it has one. */
    function GetLatestCheckout(id: AssetId): (r: Option<Checkout>)
      reads this
      ensures r.None? <==> !IsCheckedOut(id)
      ensures r.Some? ==> r.value in checkouts && r.value.asset == id
      ensures r.Some? ==> forall c :: c in checkouts && c.asset == id ==> c.since <= r.value.since
    {
      match LatestCheckoutIndex(checkouts, id)
      case None => None
      case Some(k) => Some(checkouts[k])
    }

    /** The first checkout of the asset in the store, if it has one. */
    function GetCheckoutByAssetId(id: AssetId): (r: Option<Checkout>)
      reads this
      ensures r.None? <==> !IsCheckedOut(id)
      ensures r.Some? ==> r.value in checkouts && r.value.asset == id
      ensures Valid() ==> forall c :: c in checkouts && c.asset == id ==> r == Some(c)
    {
      match LoanIndex(checkouts, id)
      case None => None
      case Some(k) => Some(checkouts[k])
    }

    /**
      The display name of the patron holding the asset, or the sentinel when
      it is not on loan; `displayName` is the patron table's name for a card.
     */
    function GetCurrentPatron(id: AssetId, displayName: CardId -> string): (r: string)
      reads this
      ensures !IsCheckedOut(id) ==> r == NotCheckedOut
      ensures IsCheckedOut(id) ==> exists c :: c in checkouts && c.asset == id && r == displayName(c.card)
      ensures Valid() ==> forall c :: c in checkouts && c.asset == id ==> r == displayName(c.card)
    {
      match GetCheckoutByAssetId(id)
      case None => NotCheckedOut
      case Some(c) => displayName(c.card)
    }

    /** Sets the asset's status to the one the status table lists under `name`. */
    method UpdateAssetStatus(id: AssetId, name: string)
      requires id in assets && StatusNamed(name).Some?
      modifies this`assets
      ensures assets.Keys == old(assets).Keys
      ensures StatusName(assets[id].status) == name
      ensures assets == old(assets)[id := old(assets)[id].(status := assets[id].status)]
    {
      assets := assets[id := assets[id].(status := StatusNamed(name).value)];
    }

    /** Removes the first checkout of the asset, if there is one. */
    method RemoveExistingCheckouts(id: AssetId)
      modifies this`checkouts
      ensures LoanIndex(old(checkouts), id).None? ==> checkouts == old(checkouts)
      ensures LoanIndex(old(checkouts), id).Some? ==> checkouts == RemoveAt(old(checkouts), LoanIndex(old(checkouts), id).value)
      ensures forall c :: c in checkouts ==> c in old(checkouts)
      ensures OneLoanPerAsset(old(checkouts)) ==> OneLoanPerAsset(checkouts) && !HasLoan(checkouts, id)
      ensures OneLoanPerAsset(old(checkouts)) ==>
                forall other :: other != id ==> (HasLoan(checkouts, other) <==> HasLoan(old(checkouts), other))
    {
      match LoanIndex(checkouts, id)
      case None =>
      case Some(k) =>
        if OneLoanPerAsset(checkouts) {
          RemoveLoan(checkouts, id, k);
        }
        checkouts := RemoveAt(checkouts, k);
    }

    /** Closes the first open history record of the asset, if there is one, on `now`. */
    method CloseExistingCheckoutHistory(id: AssetId, now: Time)
      modifies this`histories
      ensures OpenRecordIndex(old(histories), id).None? ==> histories == old(histories)
      ensures OpenRecordIndex(old(histories), id).Some? ==>
                var k := OpenRecordIndex(old(histories), id).value;
                histories == old(histories)[k := old(histories)[k].(checkedIn := Some(now))]
      ensures |histories| == |old(histories)| && HistoryGrows(old(histories), histories)
      ensures forall i :: 0 <= i < |histories| ==> histories[i].asset == old(histories)[i].asset
      ensures OneOpenRecordPerAsset(old(histories)) ==> OneOpenRecordPerAsset(histories) && !HasOpenRecord(histories, id)
      ensures OneOpenRecordPerAsset(old(histories)) ==>
                forall other :: other != id ==> (HasOpenRecord(histories, other) <==> HasOpenRecord(old(histories), other))
    {
      match OpenRecordIndex(histories, id)
      case None =>
      case Some(k) =>
        if OneOpenRecordPerAsset(histories) {
          CloseRecord(histories, id, k, now);
        }
        histories := histories[k := histories[k].(checkedIn := Some(now))];
    }

    /** Removes the earliest hold on the asset; nothing else changes. */
    method CheckoutToEarliestHold(id: AssetId)
      requires EarliestHoldIndex(holds, id).Some?
      modifies this`holds
      ensures holds == RemoveAt(old(holds), EarliestHoldIndex(old(holds), id).value)
    {
      holds := RemoveAt(holds, EarliestHoldIndex(holds, id).value);
    }

    /**
      Lends the asset on the card from `now` for the loan period; an asset
      already on loan is left exactly as it was.
     */
    method CheckoutItem(id: AssetId, card: CardId, now: Time)
      requires Valid() && id in assets
      modifies this
      ensures Valid()
      ensures IsCheckedOut(id)
      ensures old(IsCheckedOut(id)) ==>
                assets == old(assets) && checkouts == old(checkouts) && histories == old(histories) && holds == old(holds)
      ensures !old(IsCheckedOut(id)) ==>
                && assets == old(assets)[id := old(assets)[id].(status := CheckedOut)]
                && checkouts == old(checkouts) + [Checkout(id, card, now, now + LoanPeriodDays)]
                && histories == old(histories) + [CheckoutHistory(id, card, now, None)]
                && holds == old(holds)
      ensures !old(IsCheckedOut(id)) ==> GetCheckoutByAssetId(id) == Some(Checkout(id, card, now, now + LoanPeriodDays))
      ensures HistoryGrows(old(histories), histories)
    {
      if IsCheckedOut(id) {
        return;
      }
      UpdateAssetStatus(id, "Checked Out");
      var checkout := Checkout(id, card, now, now + LoanPeriodDays);
      AddLoan(checkouts, checkout);
      var record := CheckoutHistory(id, card, now, None);
      AddOpenRecord(histories, record);
      checkouts := checkouts + [checkout];
      histories := histories + [record];
      assert GetCheckoutByAssetId(id).value == checkout;
    }

    /**
      Takes the asset back on `now`: its loan ends and its open history
      record is closed; with holds on it, the earliest hold is removed and
      the status stays as it was, otherwise the asset becomes available.
     */
    method CheckInItem(id: AssetId, now: Time)
      requires Valid() && id in assets
      modifies this
      ensures Valid()
      ensures !IsCheckedOut(id)
      ensures forall other :: other != id ==> IsCheckedOut(other) == old(IsCheckedOut(other))
      ensures old(IsCheckedOut(id)) ==> checkouts == RemoveAt(old(checkouts), LoanIndex(old(checkouts), id).value)
      ensures !old(IsCheckedOut(id)) ==> checkouts == old(checkouts)
      ensures !HasOpenRecord(histories, id)
      ensures old(HasOpenRecord(histories, id)) ==>
                var k := OpenRecordIndex(old(histories), id).value;
                histories == old(histories)[k := old(histories)[k].(checkedIn := Some(now))]
      ensures !old(HasOpenRecord(histories, id)) ==> histories == old(histories)
      ensures HistoryGrows(old(histories), histories)
      ensures EarliestHoldIndex(old(holds), id).None? ==>
                holds == old(holds) && assets == old(assets)[id := old(assets)[id].(status := Available)]
      ensures EarliestHoldIndex(old(holds), id).Some? ==>
                holds == RemoveAt(old(holds), EarliestHoldIndex(old(holds), id).value) && assets == old(assets)
    {
      ghost var cs, hs := checkouts, histories;
      RemoveExistingCheckouts(id);
      CloseExistingCheckoutHistory(id, now);
      EndLoanKeepsInvariant(assets, cs, checkouts, hs, histories, holds, id);
      if EarliestHoldIndex(holds, id).Some? {
        CheckoutToEarliestHold(id);
        return;
      }
      UpdateAssetStatus(id, "Available");
    }

    /** Marks the asset lost, whatever its status; no record changes. */
    method MarkLost(id: AssetId)
      requires Valid() && id in assets
      modifies this`assets
      ensures Valid()
      ensures assets == old(assets)[id := old(assets)[id].(status := Lost)]
      ensures checkouts == old(checkouts) && histories == old(histories) && holds == old(holds)
    {
      UpdateAssetStatus(id, "Lost");
    }

    /**
      Marks the asset found on `now`: it becomes available, its loan ends and
      its open history record is closed; holds are not consulted.
     */
    method MarkFound(id: AssetId, now: Time)
      requires Valid() && id in assets
      modifies this
      ensures Valid()
      ensures assets == old(assets)[id := old(assets)[id].(status := Available)]
      ensures !IsCheckedOut(id)
      ensures forall other :: other != id ==> IsCheckedOut(other) == old(IsCheckedOut(other))
      ensures old(IsCheckedOut(id)) ==> checkouts == RemoveAt(old(checkouts), LoanIndex(old(checkouts), id).value)
      ensures !old(IsCheckedOut(id)) ==> checkouts == old(checkouts)
      ensures !HasOpenRecord(histories, id)
      ensures old(HasOpenRecord(histories, id)) ==>
                var k := OpenRecordIndex(old(histories), id).value;
                histories == old(histories)[k := old(histories)[k].(checkedIn := Some(now))]
      ensures !old(HasOpenRecord(histories, id)) ==> histories == old(histories)
      ensures HistoryGrows(old(histories), histories)
      ensures holds == old(holds)
    {
      UpdateAssetStatus(id, "Available");
      ghost var cs, hs := checkouts, histories;
      RemoveExistingCheckouts(id);
      CloseExistingCheckoutHistory(id, now);
      EndLoanKeepsInvariant(assets, cs, checkouts, hs, histories, holds, id);
    }

    /** Places a hold on the asset for the card on `now`, whatever the asset's status and existing holds. */
    method PlaceHold(assetId: AssetId, card: CardId, now: Time)
      requires Valid() && assetId in assets
      modifies this`holds
      ensures Valid()
      ensures holds == old(holds) + [Hold(assetId, card, now)]
      ensures GetCurrentHolds(assetId) == old(GetCurrentHolds(assetId)) + [Hold(assetId, card, now)]
      ensures forall other :: other != assetId ==> GetCurrentHolds(other) == old(GetCurrentHolds(other))
      ensures assets == old(assets) && checkouts == old(checkouts) && histories == old(histories)
    {
      var hold := Hold(assetId, card, now);
      forall other
        ensures HoldsOn(holds + [hold], other) == HoldsOn(holds, other) + (if other == assetId then [hold] else [])
      {
        HoldsOnAppend(holds, [hold], other);
        assert [hold][1..] == [];
      }
      holds := holds + [hold];
    }
  }
}
