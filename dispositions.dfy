/** The disposition-code page (`src/pages/Dispositions.tsx`): search plus
    category filter, per-category counters, the active switch, category
    labels and the rule that default codes cannot be deleted. */
module Dispositions {
  import opened Text
  import opened Seqs

  datatype Category = Contact | NoContact | Outcome

  /** The string each category has in the source (`disp.category`). */
  function CategoryKey(c: Category): string
  {
    match c
    case Contact => "contact"
    case NoContact => "no_contact"
    case Outcome => "outcome"
  }

  datatype Disposition = Disposition(
    id: string,
    key: string,
    labelText: string,
    description: string,
    color: string,
    category: Category,
    isDefault: bool,
    isActive: bool,
    usageCount: int)

  const MockDispositions: seq<Disposition> := [
    Disposition("1", "PAYMENT_ARRANGED", "Payment Arranged", "Customer agreed to payment plan", "success", Outcome, true, true, 245),
    Disposition("2", "PAYMENT_FULL", "Payment in Full", "Customer paid entire balance", "success", Outcome, true, true, 189),
    Disposition("3", "REFUSED_PAYMENT", "Refused to Pay", "Customer declined payment arrangement", "destructive", Contact, true, true, 156),
    Disposition("4", "NO_ANSWER", "No Answer", "Phone rang but no one answered", "warning", NoContact, true, true, 423),
    Disposition("5", "VOICEMAIL_LEFT", "Voicemail Left", "Left detailed voicemail message", "accent", NoContact, true, true, 312),
    Disposition("6", "DISCONNECTED", "Phone Disconnected", "Number is no longer in service", "destructive", NoContact, false, true, 89),
    Disposition("7", "CALLBACK_REQUESTED", "Callback Requested", "Customer requested specific callback time", "accent", Contact, false, true, 134),
    Disposition("8", "DISPUTE_CLAIM", "Dispute Claim", "Customer disputes the debt amount", "warning", Contact, false, true, 67)
  ]

  /** Label or key contains the query, ignoring case. */
  predicate MatchesSearch(d: Disposition, query: string)
  {
    Contains(Lower(d.labelText), Lower(query)) || Contains(Lower(d.key), Lower(query))
  }

  /** The category select is "all" or names this record's category. */
  predicate MatchesCategory(d: Disposition, selectedCategory: string)
  {
    selectedCategory == "all" || CategoryKey(d.category) == selectedCategory
  }

  predicate Shown(d: Disposition, query: string, selectedCategory: string)
  {
    MatchesSearch(d, query) && MatchesCategory(d, selectedCategory)
  }

  /** `filteredDispositions`: the records passing both the search and the category filter. */
  function FilteredDispositions(ds: seq<Disposition>, query: string, selectedCategory: string): (r: seq<Disposition>)
    ensures |r| <= |ds|
    ensures forall d :: d in r <==> d in ds && MatchesSearch(d, query) && MatchesCategory(d, selectedCategory)
  {
    FilterMembershipAll(ds, d => Shown(d, query, selectedCategory));
    Filter(ds, d => Shown(d, query, selectedCategory))
  }

  /** An empty query with category "all" shows every record in its original order. */
  lemma EmptyQueryAllShowsEverything(ds: seq<Disposition>)
    ensures FilteredDispositions(ds, "", "all") == ds
  {
    forall k | 0 <= k < |ds| ensures MatchesSearch(ds[k], "") {
      ContainsEmpty(Lower(ds[k].labelText));
    }
    FilterAllPass(ds, d => Shown(d, "", "all"));
  }

  /** The filtered list is an order-preserving subsequence of the full list. */
  lemma FilteredIsSubsequence(ds: seq<Disposition>, query: string, selectedCategory: string)
    ensures exists idx :: EmbedsBy(FilteredDispositions(ds, query, selectedCategory), ds, idx)
  {
    var p := d => Shown(d, query, selectedCategory);
    FilterIsSubsequence(ds, p);
    assert FilteredDispositions(ds, query, selectedCategory) == Filter(ds, p);
    assert EmbedsBy(FilteredDispositions(ds, query, selectedCategory), ds, KeptIndices(ds, p));
  }

  /** A category string naming none of the three categories leaves nothing. */
  lemma UnknownCategoryShowsNothing(ds: seq<Disposition>, query: string, selectedCategory: string)
    requires selectedCategory !in {"all", "contact", "no_contact", "outcome"}
    ensures FilteredDispositions(ds, query, selectedCategory) == []
  {
    FilterNonePass(ds, d => Shown(d, query, selectedCategory));
  }

  datatype CategoryStats = CategoryStats(contact: nat, noContact: nat, outcome: nat, total: nat)

  function IsIn(c: Category): Disposition -> bool
  {
    (d: Disposition) => d.category == c
  }

  /** `categoryStats`: records per category and in all. */
  function Stats(ds: seq<Disposition>): (r: CategoryStats)
    ensures r.total == |ds|
    ensures r.contact <= r.total && r.noContact <= r.total && r.outcome <= r.total
  {
    CategoryStats(Count(ds, IsIn(Contact)), Count(ds, IsIn(NoContact)), Count(ds, IsIn(Outcome)), |ds|)
  }

  /** Every record falls in exactly one of the three categories, so the three
      counters add up to the total. */
  lemma {:induction false} StatsAddUp(ds: seq<Disposition>)
    ensures Stats(ds).contact + Stats(ds).noContact + Stats(ds).outcome == Stats(ds).total
    decreases |ds|
  {
    if ds != [] {
      StatsAddUp(ds[1..]);
    }
  }

  /** `toggleActive(id)`: flips `isActive` on the records with that id. */
  function ToggleActive(ds: seq<Disposition>, id: string): (r: seq<Disposition>)
    ensures |r| == |ds|
    ensures forall k :: 0 <= k < |ds| && ds[k].id != id ==> r[k] == ds[k]
    ensures forall k :: 0 <= k < |ds| && ds[k].id == id ==>
      r[k].isActive == !ds[k].isActive && r[k].(isActive := ds[k].isActive) == ds[k]
  {
    seq(|ds|, k requires 0 <= k < |ds| =>
      if ds[k].id == id then ds[k].(isActive := !ds[k].isActive) else ds[k])
  }

  /** Toggling the same id twice restores the list. */
  lemma ToggleTwiceIsIdentity(ds: seq<Disposition>, id: string)
    ensures ToggleActive(ToggleActive(ds, id), id) == ds
  {
    var r := ToggleActive(ToggleActive(ds, id), id);
    assert forall k :: 0 <= k < |ds| ==> r[k] == ds[k];
  }

  /** An id no record carries leaves the list unchanged. */
  lemma ToggleUnknownIdIsIdentity(ds: seq<Disposition>, id: string)
    requires forall k :: 0 <= k < |ds| ==> ds[k].id != id
    ensures ToggleActive(ds, id) == ds
  {
  }

  /** Toggling never moves a record between categories, so the counters stay put. */
  lemma ToggleKeepsStats(ds: seq<Disposition>, id: string)
    ensures Stats(ToggleActive(ds, id)) == Stats(ds)
  {
    var r := ToggleActive(ds, id);
    forall c: Category ensures Count(r, IsIn(c)) == Count(ds, IsIn(c)) {
      ToggleKeepsCount(ds, id, c);
    }
  }

  lemma {:induction false} ToggleKeepsCount(ds: seq<Disposition>, id: string, c: Category)
    ensures Count(ToggleActive(ds, id), IsIn(c)) == Count(ds, IsIn(c))
    decreases |ds|
  {
    if ds != [] {
      ToggleKeepsCount(ds[1..], id, c);
      assert ToggleActive(ds, id)[1..] == ToggleActive(ds[1..], id);
    }
  }

  /** The delete button is disabled exactly for default codes. */
  predicate DeleteDisabled(d: Disposition)
  {
    d.isDefault
  }

  /** Toggling a code on or off never changes which codes can be deleted. */
  lemma ToggleKeepsDeleteRule(ds: seq<Disposition>, id: string, k: int)
    requires 0 <= k < |ds|
    ensures DeleteDisabled(ToggleActive(ds, id)[k]) <==> ds[k].isDefault
  {
  }

  /** `getCategoryLabel`; the source's `default: "Other"` branch is unreachable
      for a value of the three-valued category type. */
  function CategoryLabel(c: Category): (r: string)
    ensures r in {"Contact Made", "No Contact", "Positive Outcome"}
    ensures r != "Other"
  {
    match c
    case Contact => "Contact Made"
    case NoContact => "No Contact"
    case Outcome => "Positive Outcome"
  }

  /** Different categories get different labels. */
  lemma CategoryLabelInjective(c1: Category, c2: Category)
    ensures CategoryLabel(c1) == CategoryLabel(c2) <==> c1 == c2
  {
  }
}
