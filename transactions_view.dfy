/** The transaction table: month, type and text filters, then newest first. */
module TransactionsView {
  import opened Seqs
  import opened Calendar
  import opened Types

  /** The month selector: `'all'` or a month index `"0"`..`"11"`, compared without the year. */
  datatype MonthFilter = AllMonths | InMonth(month: int)

  /** The type selector. */
  datatype TypeFilter = AllTypes | OfType(kind: TransactionType)

  /** `toLowerCase` on the ASCII letters. */
  function ToLower(s: string): (r: string)
    ensures |r| == |s|
    ensures forall i :: 0 <= i < |s| ==> r[i] == (if 'A' <= s[i] <= 'Z' then (s[i] as int + 32) as char else s[i])
  {
    if s == [] then []
    else [if 'A' <= s[0] <= 'Z' then (s[0] as int + 32) as char else s[0]] + ToLower(s[1..])
  }

  /** `needle` occurs in `haystack` starting at position `i`. */
  predicate OccursAt(haystack: string, needle: string, i: nat) {
    i + |needle| <= |haystack| && haystack[i..i + |needle|] == needle
  }

  /** `needle` occurs somewhere in `haystack`. */
  ghost predicate Occurs(haystack: string, needle: string) {
    exists i: nat :: OccursAt(haystack, needle, i)
  }

  /** `haystack.includes(needle)`. */
  function Includes(haystack: string, needle: string): (r: bool)
    ensures r <==> Occurs(haystack, needle)
    decreases |haystack|
  {
    if |needle| > |haystack| then false
    else if haystack[..|needle|] == needle then (assert OccursAt(haystack, needle, 0); true)
    else
      var r := Includes(haystack[1..], needle);
      IncludesShift(haystack, needle);
      r
  }

  /** An occurrence past the first position is an occurrence in the tail, and back. */
  lemma IncludesShift(haystack: string, needle: string)
    requires |needle| <= |haystack| && haystack[..|needle|] != needle
    ensures Occurs(haystack, needle) <==> Occurs(haystack[1..], needle)
  {
    if exists i: nat :: OccursAt(haystack, needle, i) {
      var i: nat :| OccursAt(haystack, needle, i);
      assert i != 0;
      assert haystack[1..][i - 1..i - 1 + |needle|] == haystack[i..i + |needle|];
      assert OccursAt(haystack[1..], needle, i - 1);
    }
    if exists i: nat :: OccursAt(haystack[1..], needle, i) {
      var i: nat :| OccursAt(haystack[1..], needle, i);
      assert haystack[1..][i..i + |needle|] == haystack[i + 1..i + 1 + |needle|];
      assert OccursAt(haystack, needle, i + 1);
    }
  }

  /**
   * The row filter of the table: the month and type selectors pass the row, and
   * the lower-cased term occurs in the lower-cased description or category.
   */
  function Matches(t: Transaction, monthFilter: MonthFilter, typeFilter: TypeFilter, searchTerm: string): (b: bool)
    ensures b <==>
              (monthFilter.InMonth? ==> t.date.month == monthFilter.month)
              && (typeFilter.OfType? ==> t.kind == typeFilter.kind)
              && (Occurs(ToLower(t.description), ToLower(searchTerm)) || Occurs(ToLower(t.category), ToLower(searchTerm)))
  {
    var matchesMonth := monthFilter.AllMonths? || t.date.month == monthFilter.month;
    var matchesType := typeFilter.AllTypes? || t.kind == typeFilter.kind;
    var term := ToLower(searchTerm);
    var matchesSearch := Includes(ToLower(t.description), term) || Includes(ToLower(t.category), term);
    matchesMonth && matchesType && matchesSearch
  }

  /** Rows listed before `b`: a later date, or the same date. */
  predicate NewerOrSame(a: Transaction, b: Transaction) {
    DateLe(b.date, a.date)
  }

  /** Newest first. */
  predicate SortedNewestFirst(s: seq<Transaction>) {
    forall i, j :: 0 <= i < j < |s| ==> NewerOrSame(s[i], s[j])
  }

  /** Puts `t` in front of the first row strictly older than it, so ties keep their order. */
  function Insert(t: Transaction, s: seq<Transaction>): (r: seq<Transaction>)
    ensures multiset(r) == multiset(s) + multiset{t}
  {
    if s == [] then [t]
    else if NewerOrSame(t, s[0]) then [t] + s
    else
      assert s == [s[0]] + s[1..];
      [s[0]] + Insert(t, s[1..])
  }

  /** A row newer than or as new as every row of a sorted list can head it. */
  lemma ConsSorted(x: Transaction, s: seq<Transaction>)
    requires SortedNewestFirst(s)
    requires forall y :: y in s ==> NewerOrSame(x, y)
    ensures SortedNewestFirst([x] + s)
  {
    var r := [x] + s;
    forall i, j | 0 <= i < j < |r| ensures NewerOrSame(r[i], r[j]) {
      assert r[j] == s[j - 1];
      if i > 0 {
        assert r[i] == s[i - 1];
      }
    }
  }

  /** Inserting into a sorted list keeps it sorted. */
  lemma {:induction false} InsertKeepsSorted(t: Transaction, s: seq<Transaction>)
    requires SortedNewestFirst(s)
    ensures SortedNewestFirst(Insert(t, s))
  {
    if s != [] {
      if NewerOrSame(t, s[0]) {
        forall y | y in s ensures NewerOrSame(t, y) {
          var j :| 0 <= j < |s| && s[j] == y;
          if j > 0 {
            assert NewerOrSame(s[0], s[j]);
          }
        }
        ConsSorted(t, s);
      } else {
        var tail := s[1..];
        assert SortedNewestFirst(tail) by {
          forall i, j | 0 <= i < j < |tail| ensures NewerOrSame(tail[i], tail[j]) {
            assert tail[i] == s[i + 1] && tail[j] == s[j + 1];
          }
        }
        InsertKeepsSorted(t, tail);
        var rest := Insert(t, tail);
        forall y | y in rest ensures NewerOrSame(s[0], y) {
          assert y in multiset(rest);
          if y != t {
            var j :| 0 <= j < |tail| && tail[j] == y;
            assert s[j + 1] == y;
          }
        }
        ConsSorted(s[0], rest);
      }
    }
  }

  /** `.sort((a, b) => b.date - a.date)`: a permutation of the input. */
  function SortNewestFirst(s: seq<Transaction>): (r: seq<Transaction>)
    ensures multiset(r) == multiset(s)
  {
    if s == [] then []
    else
      assert s == [s[0]] + s[1..];
      Insert(s[0], SortNewestFirst(s[1..]))
  }

  /** The sort puts newer rows first. */
  lemma {:induction false} SortIsNewestFirst(s: seq<Transaction>)
    ensures SortedNewestFirst(SortNewestFirst(s))
  {
    if s != [] {
      SortIsNewestFirst(s[1..]);
      InsertKeepsSorted(s[0], SortNewestFirst(s[1..]));
    }
  }

  /**
   * `filteredTransactions`: the rows passing the filters, each as often as it
   * occurs in the ledger, in the order of the sort.
   */
  function FilteredTransactions(transactions: seq<Transaction>, monthFilter: MonthFilter, typeFilter: TypeFilter, searchTerm: string): (r: seq<Transaction>)
    ensures forall t :: multiset(r)[t] == if Matches(t, monthFilter, typeFilter, searchTerm) then multiset(transactions)[t] else 0
  {
    FilterMultiplicity(transactions, (t: Transaction) => Matches(t, monthFilter, typeFilter, searchTerm));
    SortNewestFirst(Filter(transactions, (t: Transaction) => Matches(t, monthFilter, typeFilter, searchTerm)))
  }

  /** Each shown row passes all three filters, and each row of the ledger that passes them is shown, once per occurrence. */
  lemma ShownAreExactlyTheMatches(transactions: seq<Transaction>, monthFilter: MonthFilter, typeFilter: TypeFilter, searchTerm: string)
    ensures var r := FilteredTransactions(transactions, monthFilter, typeFilter, searchTerm);
            multiset(r) == multiset(Filter(transactions, (t: Transaction) => Matches(t, monthFilter, typeFilter, searchTerm)))
            && SortedNewestFirst(r)
            && forall t :: t in r <==> t in transactions && Matches(t, monthFilter, typeFilter, searchTerm)
  {
    var p := (t: Transaction) => Matches(t, monthFilter, typeFilter, searchTerm);
    var r := FilteredTransactions(transactions, monthFilter, typeFilter, searchTerm);
    SortIsNewestFirst(Filter(transactions, p));
    forall t ensures t in r <==> t in Filter(transactions, p) {
      assert t in r <==> t in multiset(r);
      assert t in Filter(transactions, p) <==> t in multiset(Filter(transactions, p));
    }
  }

  /** The empty search term occurs in every text. */
  lemma EmptySearchMatchesEverything(text: string)
    ensures Includes(ToLower(text), ToLower(""))
  {
    assert OccursAt(ToLower(text), "", 0);
  }

  /** The month filter looks at the month index only: the same month of another year passes too. */
  lemma MonthFilterIgnoresYear(t: Transaction, year: int, typeFilter: TypeFilter, searchTerm: string)
    ensures Matches(t, InMonth(t.date.month), typeFilter, searchTerm)
            == Matches(t.(date := Date(year, t.date.month, t.date.day)), InMonth(t.date.month), typeFilter, searchTerm)
  {
  }

  /** The search ignores the case of ASCII letters. */
  lemma SearchIgnoresCase(t: Transaction, monthFilter: MonthFilter, typeFilter: TypeFilter, searchTerm: string)
    ensures Matches(t, monthFilter, typeFilter, searchTerm) == Matches(t, monthFilter, typeFilter, ToLower(searchTerm))
  {
    LowerIdempotent(searchTerm);
  }

  lemma LowerIdempotent(s: string)
    ensures ToLower(ToLower(s)) == ToLower(s)
  {
  }

  /** With every filter off the table shows the whole ledger, newest first. */
  lemma NoFilterShowsAll(transactions: seq<Transaction>)
    ensures multiset(FilteredTransactions(transactions, AllMonths, AllTypes, "")) == multiset(transactions)
  {
    var p := (t: Transaction) => Matches(t, AllMonths, AllTypes, "");
    forall t | t in transactions ensures p(t) {
      EmptySearchMatchesEverything(t.description);
    }
    FilterAll(transactions, p);
  }
}
