/** The account directory page (`src/pages/Accounts.tsx`): a constant list
    of accounts, a free-text search that replaces the shown list wholesale,
    the delinquent counter and the "no accounts found" message. */
module Accounts {
  import opened Text
  import opened Seqs

  datatype AccountStatus = Active | Delinquent | Paid | Pending

  datatype Account = Account(
    id: string,
    name: string,
    phone: string,
    balance: real,
    dueDate: string,
    status: AccountStatus,
    lastContact: string,
    assignedTo: string)

  /** The page's seed data, in display order. */
  const MockAccounts: seq<Account> := [
    Account("ACC-001", "John Smith", "(555) 123-4567", 2500.00, "2024-01-15", Delinquent, "2024-01-10", "Agent A"),
    Account("ACC-002", "Sarah Johnson", "(555) 234-5678", 1200.00, "2024-01-20", Active, "2024-01-12", "Agent B"),
    Account("ACC-003", "Michael Brown", "(555) 345-6789", 0.00, "2024-01-05", Paid, "2024-01-08", "Agent A"),
    Account("ACC-004", "Emily Davis", "(555) 456-7890", 3200.00, "2024-01-25", Pending, "Never", "Agent C")
  ]

  /** The search predicate for a non-blank query: name and id are compared
      case-insensitively, the phone number case-sensitively against the raw query. */
  predicate Matches(a: Account, query: string)
  {
    || Contains(Lower(a.name), Lower(query))
    || Contains(a.phone, query)
    || Contains(Lower(a.id), Lower(query))
  }

  /** The list `handleSearch` computes from `accounts` for `query`: never
      longer than the input, and made of input accounts only. */
  function Search(accounts: seq<Account>, query: string): (r: seq<Account>)
    ensures |r| <= |accounts|
    ensures forall a :: a in r ==> a in accounts
  {
    if IsBlank(query) then accounts
    else Filter(accounts, a => Matches(a, query))
  }

  /** The page state: the raw text of the search box and the shown list. */
  datatype AccountsView = AccountsView(searchQuery: string, filteredAccounts: seq<Account>)

  /** The state on mount: empty query, every account shown. */
  const InitialView := AccountsView("", MockAccounts)

  /** `handleSearch(query)`: stores the query verbatim and recomputes the list
      from the seed data, never from the previously shown list. */
  function HandleSearch(view: AccountsView, query: string): (r: AccountsView)
    ensures r.searchQuery == query
    ensures IsBlank(query) ==> r.filteredAccounts == MockAccounts
    ensures !IsBlank(query) ==>
      forall a :: a in r.filteredAccounts <==> a in MockAccounts && Matches(a, query)
  {
    FilterMembershipAll(MockAccounts, a => Matches(a, query));
    AccountsView(query, Search(MockAccounts, query))
  }

  /** The shown list depends on the latest query only. */
  lemma SearchForgetsHistory(v1: AccountsView, v2: AccountsView, query: string)
    ensures HandleSearch(v1, query).filteredAccounts == HandleSearch(v2, query).filteredAccounts
  {
  }

  /** A blank query (empty or only whitespace) shows every account in order. */
  lemma BlankQueryShowsAll(accounts: seq<Account>, query: string)
    requires AllWhitespace(query)
    ensures Search(accounts, query) == accounts
  {
    BlankIff(query);
  }

  /** For a query with some non-whitespace character, an account is shown iff
      it is in the list and matches on name, phone or id. */
  lemma SearchMembership(accounts: seq<Account>, query: string, a: Account)
    requires !AllWhitespace(query)
    ensures a in Search(accounts, query) <==>
      a in accounts && (Contains(Lower(a.name), Lower(query)) || Contains(a.phone, query) || Contains(Lower(a.id), Lower(query)))
  {
    BlankIff(query);
    FilterMembership(accounts, a => Matches(a, query), a);
  }

  /** The result is an order-preserving subsequence of the input. */
  lemma SearchIsSubsequence(accounts: seq<Account>, query: string)
    ensures |Search(accounts, query)| <= |accounts|
    ensures exists idx :: EmbedsBy(Search(accounts, query), accounts, idx)
  {
    if IsBlank(query) {
      var idx: seq<nat> := seq(|accounts|, i requires 0 <= i < |accounts| => i);
      assert EmbedsBy(accounts, accounts, idx);
    } else {
      var p := a => Matches(a, query);
      assert Search(accounts, query) == Filter(accounts, p);
      FilterIsSubsequence(accounts, p);
    }
  }

  /** Searching the result again with the same query changes nothing. */
  lemma SearchIdempotent(accounts: seq<Account>, query: string)
    ensures Search(Search(accounts, query), query) == Search(accounts, query)
  {
    if !IsBlank(query) {
      FilterIdempotent(accounts, a => Matches(a, query));
    }
  }

  /** The mount state is what a blank search produces. */
  lemma InitialViewIsBlankSearch(view: AccountsView)
    ensures HandleSearch(view, "") == InitialView
  {
    BlankIff("");
  }

  /** "No accounts found matching your search." is rendered when the shown list is empty. */
  predicate ShowsNoResults(view: AccountsView)
  {
    |view.filteredAccounts| == 0
  }

  /** The empty state appears iff the query is not blank and no seed account matches it. */
  lemma NoResultsIff(view: AccountsView, query: string)
    ensures ShowsNoResults(HandleSearch(view, query)) <==>
      !AllWhitespace(query) && forall k :: 0 <= k < |MockAccounts| ==> !Matches(MockAccounts[k], query)
  {
    BlankIff(query);
    FilterEmptyIff(MockAccounts, a => Matches(a, query));
  }

  predicate IsDelinquent(a: Account)
  {
    a.status == Delinquent
  }

  /** The "Delinquent" stat card: `mockAccounts.filter(status === 'delinquent').length`. */
  function DelinquentCount(accounts: seq<Account>): (r: nat)
    ensures r <= |accounts|
  {
    Count(accounts, IsDelinquent)
  }

  /** The delinquent count never exceeds the list length, and an account is
      counted iff its status is delinquent. */
  lemma DelinquentCountCounts(accounts: seq<Account>, a: Account)
    ensures DelinquentCount(accounts) <= |accounts|
    ensures a in Filter(accounts, IsDelinquent) <==> a in accounts && a.status == Delinquent
  {
    FilterMembership(accounts, IsDelinquent, a);
  }

  /** An account none of whose fields contains the query's first character
      (case-folded for name and id) does not match. */
  lemma MissingFirstCharNoMatch(a: Account, query: string)
    requires query != []
    requires forall i :: 0 <= i < |a.name| ==> LowerChar(a.name[i]) != LowerChar(query[0])
    requires forall i :: 0 <= i < |a.id| ==> LowerChar(a.id[i]) != LowerChar(query[0])
    requires forall i :: 0 <= i < |a.phone| ==> a.phone[i] != query[0]
    ensures !Matches(a, query)
  {
    MissingChar(Lower(a.name), Lower(query), 0);
    MissingChar(Lower(a.id), Lower(query), 0);
    MissingChar(a.phone, query, 0);
  }

  /** Searching the seed data for "555" keeps all four accounts: every phone
      number has the 555 area code. */
  lemma Search555ShowsAll(query: string)
    requires query == "555"
    ensures Search(MockAccounts, query) == MockAccounts
  {
    assert !IsBlank(query) by {
      BlankIff(query);
      assert !IsJsWhitespace(query[0]);
    }
    MockAccountsMatch555(query);
    FilterAllPass(MockAccounts, a => Matches(a, query));
  }

  lemma MockAccountsMatch555(query: string)
    requires query == "555"
    ensures forall k :: 0 <= k < |MockAccounts| ==> Matches(MockAccounts[k], query)
  {
    forall k | 0 <= k < |MockAccounts| ensures Matches(MockAccounts[k], query) {
      var phone := MockAccounts[k].phone;
      assert OccursAt(phone, query, 1);
      ContainsIff(phone, query);
    }
  }

  lemma MockAccountsMissZzz()
    ensures forall k :: 0 <= k < |MockAccounts| ==> !Matches(MockAccounts[k], "zzz")
  {
    forall k | 0 <= k < |MockAccounts| ensures !Matches(MockAccounts[k], "zzz") {
      MissingFirstCharNoMatch(MockAccounts[k], "zzz");
    }
  }

  /** Searching the seed data for "zzz" shows the empty state. */
  lemma SearchZzzShowsNone(view: AccountsView)
    ensures ShowsNoResults(HandleSearch(view, "zzz"))
  {
    BlankIff("zzz");
    assert !IsJsWhitespace("zzz"[0]);
    MockAccountsMissZzz();
    NoResultsIff(view, "zzz");
  }

  /** Exactly one seed account is delinquent. */
  lemma MockDelinquentCount()
    ensures DelinquentCount(MockAccounts) == 1
  {
  }
}
