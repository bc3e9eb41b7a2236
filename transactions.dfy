/** The transaction list of src/pages/Transactions.tsx: a case-insensitive
    search over transaction id and merchant, and the status badge. */
module Transactions {
  import opened Text

  datatype Status = Success | Failed | Pending

  /** The string literal each status is in the source. */
  function StatusName(s: Status): string
  {
    match s
    case Success => "success"
    case Failed => "failed"
    case Pending => "pending"
  }

  /** The `Transaction` record; the `timestamp` field is left out. */
  datatype Transaction = Transaction(
    id: string,
    merchant: string,
    amount: real,
    status: Status,
    paymentMethod: string)

  // ---------------------------------------------------------------------------
  // Status badge
  // ---------------------------------------------------------------------------

  datatype BadgeVariant = Default | Destructive | Secondary | Outline

  /** `getStatusVariant`: each known status has its own variant, and any other
      string falls through to `outline`. */
  function GetStatusVariant(status: string): (v: BadgeVariant)
    ensures v == Default <==> status == "success"
    ensures v == Destructive <==> status == "failed"
    ensures v == Secondary <==> status == "pending"
    ensures v == Outline <==> status !in {"success", "failed", "pending"}
  {
    match status
    case "success" => Default
    case "failed" => Destructive
    case "pending" => Secondary
    case _ => Outline
  }

  /** Distinct statuses get distinct badges, and none gets the fallback. */
  lemma StatusVariantInjective(s: Status, t: Status)
    ensures GetStatusVariant(StatusName(s)) != Outline
    ensures GetStatusVariant(StatusName(s)) == GetStatusVariant(StatusName(t)) <==> s == t
  {
  }

  /** `getStatusLabel`. */
  function GetStatusLabel(status: string): (text: string)
    ensures |text| == |status|
    ensures |status| > 0 ==> text[0] == UpperChar(status[0]) && text[1..] == status[1..]
  {
    Capitalize(status)
  }

  lemma StatusLabels()
    ensures GetStatusLabel(StatusName(Success)) == "Success"
    ensures GetStatusLabel(StatusName(Failed)) == "Failed"
    ensures GetStatusLabel(StatusName(Pending)) == "Pending"
  {
  }

  // ---------------------------------------------------------------------------
  // Search
  // ---------------------------------------------------------------------------

  /** The predicate of `filteredTransactions`: the lower-cased query occurs in
      the lower-cased id or in the lower-cased merchant. */
  function Matches(txn: Transaction, query: string): (m: bool)
    ensures query == [] ==> m
    ensures m ==> |query| <= |txn.id| || |query| <= |txn.merchant|
  {
    Includes(ToLower(txn.id), ToLower(query)) || Includes(ToLower(txn.merchant), ToLower(query))
  }

  /** `transactions.filter(txn => Matches(txn, query))`. */
  function FilterTransactions(txns: seq<Transaction>, query: string): (r: seq<Transaction>)
    ensures |r| <= |txns|
    ensures forall i :: 0 <= i < |r| ==> r[i] in txns && Matches(r[i], query)
  {
    if txns == [] then []
    else (if Matches(txns[0], query) then [txns[0]] else []) + FilterTransactions(txns[1..], query)
  }

  /** `a` is `b` with some elements removed, the rest in their order. */
  predicate IsSubsequence(a: seq<Transaction>, b: seq<Transaction>)
    decreases |b|
  {
    a == [] || (b != [] && ((a[0] == b[0] && IsSubsequence(a[1..], b[1..])) || IsSubsequence(a, b[1..])))
  }

  /** The filtered list keeps transactions in their original order. */
  lemma {:induction false} FilterIsSubsequence(txns: seq<Transaction>, query: string)
    ensures IsSubsequence(FilterTransactions(txns, query), txns)
  {
    if txns != [] {
      FilterIsSubsequence(txns[1..], query);
      var rest := FilterTransactions(txns[1..], query);
      if Matches(txns[0], query) {
        assert FilterTransactions(txns, query) == [txns[0]] + rest;
        assert ([txns[0]] + rest)[1..] == rest;
      } else {
        assert FilterTransactions(txns, query) == rest;
        SubsequenceOfTail(rest, txns);
      }
    }
  }

  /** A subsequence of the tail of `b` is a subsequence of `b`: the step
      `FilterIsSubsequence` takes when the filter drops the head. */
  lemma SubsequenceOfTail(a: seq<Transaction>, b: seq<Transaction>)
    requires b != [] && IsSubsequence(a, b[1..])
    ensures IsSubsequence(a, b)
  {
  }

  /** Each transaction occurs in the result as often as in the input when it
      matches, and not at all otherwise. */
  lemma {:induction false} FilterCounts(txns: seq<Transaction>, query: string)
    ensures forall t :: multiset(FilterTransactions(txns, query))[t]
                        == if Matches(t, query) then multiset(txns)[t] else 0
  {
    if txns != [] {
      FilterCounts(txns[1..], query);
      assert txns == [txns[0]] + txns[1..];
    }
  }

  /** A transaction is kept exactly when it is listed and matches the query. */
  lemma FilterMembership(txns: seq<Transaction>, query: string, t: Transaction)
    ensures t in FilterTransactions(txns, query) <==> t in txns && Matches(t, query)
  {
    FilterCounts(txns, query);
    assert t in FilterTransactions(txns, query) <==> multiset(FilterTransactions(txns, query))[t] > 0;
    assert t in txns <==> multiset(txns)[t] > 0;
  }

  /** A transaction matches exactly when the lower-cased query occurs at some
      position of its lower-cased id or of its lower-cased merchant. */
  lemma MatchesIff(txn: Transaction, query: string)
    ensures Matches(txn, query)
            <==> Occurs(ToLower(txn.id), ToLower(query)) || Occurs(ToLower(txn.merchant), ToLower(query))
  {
    IncludesIff(ToLower(txn.id), ToLower(query));
    IncludesIff(ToLower(txn.merchant), ToLower(query));
  }

  /** The search box starts empty, and the empty query keeps every transaction. */
  lemma {:induction false} FilterEmptyQuery(txns: seq<Transaction>)
    ensures FilterTransactions(txns, "") == txns
  {
    if txns != [] {
      FilterEmptyQuery(txns[1..]);
    }
  }

  /** Filtering a filtered list again with the same query changes nothing. */
  lemma {:induction false} FilterIdempotent(txns: seq<Transaction>, query: string)
    ensures FilterTransactions(FilterTransactions(txns, query), query) == FilterTransactions(txns, query)
  {
    if txns != [] {
      FilterIdempotent(txns[1..], query);
      var rest := FilterTransactions(txns[1..], query);
      if Matches(txns[0], query) {
        var kept := [txns[0]] + rest;
        assert FilterTransactions(txns, query) == kept;
        assert kept[0] == txns[0] && kept[1..] == rest;
        assert FilterTransactions(kept, query) == [txns[0]] + FilterTransactions(rest, query);
      } else {
        assert FilterTransactions(txns, query) == rest;
      }
    }
  }

  /** The query's letter case does not matter. */
  lemma QueryCaseIgnored(txns: seq<Transaction>, query: string)
    ensures FilterTransactions(txns, ToLower(query)) == FilterTransactions(txns, query)
  {
    ToLowerIdempotent(query);
  }
}
