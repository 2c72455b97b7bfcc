/** src/components/PurchaseManagement.tsx: the purchase list page. The list
    shown is a filter by search text, payment status and payment method; the
    summary cards show the total value of all purchases and the numbers of paid
    and pending ones. The modal and bill-view handlers live in a class. */
module PurchaseManagement {
  import opened Types
  import opened Strings
  import opened Seqs

  const All := "all"

  datatype PurchaseCriteria = PurchaseCriteria(search: string, status: string, paymentMethod: string)

  const NoPurchaseCriteria := PurchaseCriteria("", All, All)

  /** Search looks at the equipment name, the vendor name and the bill number. */
  predicate MatchesSearch(p: Purchase, term: string)
  {
    ContainsIgnoreCase(p.equipmentName, term) || ContainsIgnoreCase(p.vendorName, term)
    || ContainsIgnoreCase(p.billNumber, term)
  }

  predicate Matches(c: PurchaseCriteria, p: Purchase)
  {
    MatchesSearch(p, c.search)
    && (c.status == All || PaymentStatusLabel(p.paymentStatus) == c.status)
    && (c.paymentMethod == All || PaymentMethodLabel(p.paymentMethod) == c.paymentMethod)
  }

  /** `filteredPurchases`. */
  function FilteredPurchases(purchases: seq<Purchase>, c: PurchaseCriteria): seq<Purchase>
  {
    Filter(purchases, (p: Purchase) => Matches(c, p))
  }

  /** The list shown is the order-preserving subsequence of the purchases meeting
      all three criteria, each as often as it occurs. */
  lemma {:induction false} FilteredPurchasesSpec(purchases: seq<Purchase>, c: PurchaseCriteria)
    ensures var r := FilteredPurchases(purchases, c);
      && IsSubsequence(r, purchases)
      && (forall i :: 0 <= i < |r| ==> Matches(c, r[i]))
      && (forall p :: p in r <==> p in purchases && Matches(c, p))
      && (forall p :: multiset(r)[p] == if Matches(c, p) then multiset(purchases)[p] else 0)
  {
    FilterSpec(purchases, (p: Purchase) => Matches(c, p));
  }

  /** With no search and both selections at 'all', every purchase is listed in
      its order. */
  lemma {:induction false} DefaultsShowAll(purchases: seq<Purchase>)
    ensures FilteredPurchases(purchases, NoPurchaseCriteria) == purchases
  {
    forall i | 0 <= i < |purchases| ensures Matches(NoPurchaseCriteria, purchases[i]) {
      ContainsIgnoreCaseEmpty(purchases[i].equipmentName);
    }
    FilterAll(purchases, (p: Purchase) => Matches(NoPurchaseCriteria, p));
  }

  /** A status or method selection keeps exactly the purchases with that value. */
  lemma {:induction false} SelectionsSpec(p: Purchase, s: PaymentStatus, m: PaymentMethod)
    ensures Matches(PurchaseCriteria("", PaymentStatusLabel(s), All), p) <==> p.paymentStatus == s
    ensures Matches(PurchaseCriteria("", All, PaymentMethodLabel(m)), p) <==> p.paymentMethod == m
  {
    ContainsIgnoreCaseEmpty(p.equipmentName);
    LabelsInjective();
  }

  // ---------------------------------------------------------------------------
  // The summary cards

  /** `purchases.reduce((sum, p) => sum + p.totalAmount, 0)`; integer addition
      is associative, so summing from the front gives the same value. No
      purchase with a negative amount means no negative total. */
  function TotalValue(purchases: seq<Purchase>): (r: int)
    ensures (forall i :: 0 <= i < |purchases| ==> purchases[i].totalAmount >= 0) ==> r >= 0
  {
    if purchases == [] then 0 else purchases[0].totalAmount + TotalValue(purchases[1..])
  }

  /** The total splits along any condition: the purchases meeting it plus those
      not meeting it. In particular it does not depend on what the filters show. */
  lemma {:induction false} TotalValueSplits(purchases: seq<Purchase>, q: Purchase -> bool)
    ensures TotalValue(purchases)
      == TotalValue(Filter(purchases, q)) + TotalValue(Filter(purchases, (p: Purchase) => !q(p)))
  {
    if purchases != [] {
      TotalValueSplits(purchases[1..], q);
      var nq := (p: Purchase) => !q(p);
      if q(purchases[0]) {
        assert Filter(purchases, q) == [purchases[0]] + Filter(purchases[1..], q);
        assert ([purchases[0]] + Filter(purchases[1..], q))[1..] == Filter(purchases[1..], q);
      } else {
        assert Filter(purchases, nq) == [purchases[0]] + Filter(purchases[1..], nq);
        assert ([purchases[0]] + Filter(purchases[1..], nq))[1..] == Filter(purchases[1..], nq);
      }
    }
  }

  function HasPaymentStatus(s: PaymentStatus): Purchase -> bool
  {
    (p: Purchase) => p.paymentStatus == s
  }

  /** `purchases.filter(p => p.paymentStatus === status).length`. */
  function StatusCount(purchases: seq<Purchase>, s: PaymentStatus): nat
  {
    Count(purchases, HasPaymentStatus(s))
  }

  /** Every purchase is paid, pending or partial, so the three counts add up to
      the list; the paid and pending cards leave out exactly the partial ones. */
  lemma {:induction false} StatusCountsAddUp(purchases: seq<Purchase>)
    ensures StatusCount(purchases, Paid) + StatusCount(purchases, PaymentPending)
      + StatusCount(purchases, Partial) == |purchases|
    ensures StatusCount(purchases, Paid) + StatusCount(purchases, PaymentPending) <= |purchases|
  {
    if purchases != [] {
      StatusCountsAddUp(purchases[1..]);
    }
  }

  // ---------------------------------------------------------------------------
  // The page's state

  class PurchasePageState {
    var searchTerm: string
    var statusFilter: string
    var paymentMethodFilter: string
    var showAddModal: bool
    var selectedPurchase: Option<Purchase>
    var showBillGenerator: bool

    constructor ()
      ensures searchTerm == "" && statusFilter == All && paymentMethodFilter == All
      ensures !showAddModal && selectedPurchase.None? && !showBillGenerator
    {
      searchTerm := "";
      statusFilter := All;
      paymentMethodFilter := All;
      showAddModal := false;
      selectedPurchase := None;
      showBillGenerator := false;
    }

    function Criteria(): PurchaseCriteria
      reads this
    {
      PurchaseCriteria(searchTerm, statusFilter, paymentMethodFilter)
    }

    method TypeSearch(text: string)
      modifies this
      ensures Criteria() == old(Criteria()).(search := text)
      ensures showAddModal == old(showAddModal) && selectedPurchase == old(selectedPurchase)
      ensures showBillGenerator == old(showBillGenerator)
    {
      searchTerm := text;
    }

    method SelectStatus(s: string)
      modifies this
      ensures Criteria() == old(Criteria()).(status := s)
      ensures showAddModal == old(showAddModal) && selectedPurchase == old(selectedPurchase)
      ensures showBillGenerator == old(showBillGenerator)
    {
      statusFilter := s;
    }

    method SelectPaymentMethod(m: string)
      modifies this
      ensures Criteria() == old(Criteria()).(paymentMethod := m)
      ensures showAddModal == old(showAddModal) && selectedPurchase == old(selectedPurchase)
      ensures showBillGenerator == old(showBillGenerator)
    {
      paymentMethodFilter := m;
    }

    method OpenAdd()
      modifies this
      ensures showAddModal && Criteria() == old(Criteria())
      ensures selectedPurchase == old(selectedPurchase) && showBillGenerator == old(showBillGenerator)
    {
      showAddModal := true;
    }

    /** `handleViewBill`. */
    method ViewBill(p: Purchase)
      modifies this
      ensures selectedPurchase == Some(p) && showBillGenerator
      ensures showAddModal == old(showAddModal) && Criteria() == old(Criteria())
    {
      selectedPurchase := Some(p);
      showBillGenerator := true;
    }

    /** `handleModalClose`. */
    method ModalClose()
      modifies this
      ensures !showAddModal
      ensures Criteria() == old(Criteria()) && selectedPurchase == old(selectedPurchase)
      ensures showBillGenerator == old(showBillGenerator)
    {
      showAddModal := false;
    }

    /** `handleModalSubmit`: the purchase goes to the parent and the form closes. */
    method ModalSubmit(p: Purchase) returns (added: Purchase)
      modifies this
      ensures added == p && !showAddModal
      ensures Criteria() == old(Criteria()) && selectedPurchase == old(selectedPurchase)
      ensures showBillGenerator == old(showBillGenerator)
    {
      added := p;
      showAddModal := false;
    }

    /** `handleBillClose`. */
    method BillClose()
      modifies this
      ensures !showBillGenerator && selectedPurchase.None?
      ensures showAddModal == old(showAddModal) && Criteria() == old(Criteria())
    {
      showBillGenerator := false;
      selectedPurchase := None;
    }
  }
}
