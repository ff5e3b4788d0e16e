/** The search box of the banker's customer list: a case-insensitive substring
    filter over first name, last name and e-mail, switched off by a blank term. */
module BankerDashboard {
  import opened Text
  import Ledger

  type Customer = Ledger.CustomerSummary

  /** The lowercased first name, last name or e-mail contains `needle`. */
  predicate Matches(c: Customer, needle: string) {
    || Contains(ToLower(c.firstName), needle)
    || Contains(ToLower(c.lastName), needle)
    || Contains(ToLower(c.email), needle)
  }

  /** `idx` picks the elements of `r` out of `s`, in increasing positions. */
  ghost predicate Embeds(idx: seq<nat>, r: seq<Customer>, s: seq<Customer>) {
    && |idx| == |r|
    && (forall i :: 0 <= i < |idx| ==> idx[i] < |s| && s[idx[i]] == r[i])
    && (forall i, j :: 0 <= i < j < |idx| ==> idx[i] < idx[j])
  }

  /** `r` is `s` with some elements dropped and the rest in their original order. */
  ghost predicate IsSubsequence(r: seq<Customer>, s: seq<Customer>) {
    exists idx: seq<nat> :: Embeds(idx, r, s)
  }

  /** `customers.filter(...)` with the lowercased term as needle: the customers
      that match, each as often as in the input, and nothing else. */
  function Keep(customers: seq<Customer>, needle: string): (r: seq<Customer>)
    ensures forall c :: c in r ==> Matches(c, needle)
    ensures forall c :: Matches(c, needle) ==> multiset(r)[c] == multiset(customers)[c]
  {
    if |customers| == 0 then []
    else
      var rest := Keep(customers[1..], needle);
      assert customers == [customers[0]] + customers[1..];
      if Matches(customers[0], needle) then [customers[0]] + rest else rest
  }

  /** The search-filter effect: a term that trims to nothing shows the whole
      list; any other term, lowercased but not trimmed, filters it. */
  function FilterCustomers(customers: seq<Customer>, searchTerm: string): (r: seq<Customer>)
    ensures IsBlank(searchTerm) ==> r == customers
    ensures !IsBlank(searchTerm) ==>
              forall c :: c in r <==> c in customers && Matches(c, ToLower(searchTerm))
    ensures !IsBlank(searchTerm) ==>
              forall c :: Matches(c, ToLower(searchTerm)) ==> multiset(r)[c] == multiset(customers)[c]
  {
    TrimEmptyIffBlank(searchTerm);
    if Trim(searchTerm) == "" then
      customers
    else
      var r := Keep(customers, ToLower(searchTerm));
      assert forall c :: c in customers && Matches(c, ToLower(searchTerm)) ==> multiset(r)[c] > 0;
      r
  }

  /** The filtered list keeps the order of the customer list. */
  lemma {:induction false} KeepIsSubsequence(customers: seq<Customer>, needle: string)
    ensures IsSubsequence(Keep(customers, needle), customers)
  {
    var idx := KeptPositions(customers, needle);
    assert Embeds(idx, Keep(customers, needle), customers);
  }

  /** The positions in `customers` that `Keep` takes, in increasing order. */
  lemma {:induction false} KeptPositions(customers: seq<Customer>, needle: string) returns (idx: seq<nat>)
    ensures Embeds(idx, Keep(customers, needle), customers)
  {
    if |customers| == 0 {
      idx := [];
    } else {
      var tail := KeptPositions(customers[1..], needle);
      var rest := Keep(customers[1..], needle);
      var shifted := Shift(tail);
      EmbedsInTail(tail, rest, customers);
      if Matches(customers[0], needle) {
        EmbedsWithHead(tail, rest, customers);
        idx := [0] + shifted;
      } else {
        idx := shifted;
      }
    }
  }

  function Shift(idx: seq<nat>): (r: seq<nat>)
    ensures |r| == |idx| && forall i :: 0 <= i < |idx| ==> r[i] == idx[i] + 1
  {
    seq(|idx|, i requires 0 <= i < |idx| => idx[i] + 1)
  }

  /** An embedding into the tail of `s` is one into `s`, one position further on. */
  lemma EmbedsInTail(idx: seq<nat>, r: seq<Customer>, s: seq<Customer>)
    requires |s| > 0 && Embeds(idx, r, s[1..])
    ensures Embeds(Shift(idx), r, s)
  {
  }

  /** ... and the head of `s` can be put in front of it. */
  lemma EmbedsWithHead(idx: seq<nat>, r: seq<Customer>, s: seq<Customer>)
    requires |s| > 0 && Embeds(idx, r, s[1..])
    ensures Embeds([0] + Shift(idx), [s[0]] + r, s)
  {
    var idx' := [0] + Shift(idx);
    forall i | 0 < i < |idx'| ensures idx'[i] < |s| && s[idx'[i]] == ([s[0]] + r)[i] {
      assert idx'[i] == idx[i - 1] + 1;
    }
  }

  lemma FilterIsSubsequence(customers: seq<Customer>, searchTerm: string)
    ensures IsSubsequence(FilterCustomers(customers, searchTerm), customers)
  {
    TrimEmptyIffBlank(searchTerm);
    if IsBlank(searchTerm) {
      assert Embeds(seq(|customers|, i requires 0 <= i < |customers| => i), customers, customers);
    } else {
      KeepIsSubsequence(customers, ToLower(searchTerm));
    }
  }

  /** Terms that differ only in the case of their letters give the same list. */
  lemma FilterIgnoresCase(customers: seq<Customer>, t1: string, t2: string)
    requires ToLower(t1) == ToLower(t2)
    ensures FilterCustomers(customers, t1) == FilterCustomers(customers, t2)
  {
    LowerKeepsBlank(t1);
    LowerKeepsBlank(t2);
    TrimEmptyIffBlank(t1);
    TrimEmptyIffBlank(t2);
  }

  /** The term is not trimmed before matching: a leading space makes "ann"
      miss a customer called "ann". */
  lemma LeadingSpaceIsMatched()
    ensures var c := Ledger.CustomerSummary(0, "ann", "", "", 30, "1990-01-01", 0);
            FilterCustomers([c], "ann") == [c] && FilterCustomers([c], " ann") == []
  {
    var c := Ledger.CustomerSummary(0, "ann", "", "", 30, "1990-01-01", 0);
    assert ToLower("ann") == "ann";
    assert ToLower(" ann") == " ann";
    assert !IsWhitespace('a');
    assert OccursAt(ToLower(c.firstName), "ann", 0);
    assert !Matches(c, " ann");
  }
}
