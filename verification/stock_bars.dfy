/**
  The `stocks` collection shared by the API server and the ingest server:
  one daily price bar per (symbol, date), with dates held as `YYYY-MM-DD`
  strings. The database compares such strings character by character, which
  for this format is chronological order; `DateLe` is that comparison.
 */
module StockBars {

  /** One stored document of the `stocks` collection; prices in cents. */
  datatype StockBar = StockBar(
    symbol: string,
    date: string,
    open: int,
    high: int,
    low: int,
    close: int,
    volume: int)

  /** Lexicographic comparison of two strings (`a <= b`). */
  predicate DateLe(a: string, b: string)
    decreases |a|
  {
    if a == [] then true
    else if b == [] then false
    else if a[0] != b[0] then a[0] < b[0]
    else DateLe(a[1..], b[1..])
  }

  lemma {:induction false} DateLeReflexive(a: string)
    ensures DateLe(a, a)
  {
    if a != [] {
      DateLeReflexive(a[1..]);
    }
  }

  lemma {:induction false} DateLeTotal(a: string, b: string)
    ensures DateLe(a, b) || DateLe(b, a)
    decreases |a|
  {
    if a != [] && b != [] && a[0] == b[0] {
      DateLeTotal(a[1..], b[1..]);
    }
  }

  lemma {:induction false} DateLeAntisymmetric(a: string, b: string)
    requires DateLe(a, b) && DateLe(b, a)
    ensures a == b
    decreases |a|
  {
    if a != [] && b != [] {
      DateLeAntisymmetric(a[1..], b[1..]);
      assert a == [a[0]] + a[1..];
      assert b == [b[0]] + b[1..];
    }
  }

  lemma {:induction false} DateLeTransitive(a: string, b: string, c: string)
    requires DateLe(a, b) && DateLe(b, c)
    ensures DateLe(a, c)
    decreases |a|
  {
    if a != [] && b != [] && c != [] && a[0] == b[0] && b[0] == c[0] {
      DateLeTransitive(a[1..], b[1..], c[1..]);
    }
  }

  /** Every pair of bars is in ascending date order. */
  ghost predicate SortedByDate(s: seq<StockBar>)
  {
    forall i, j :: 0 <= i < j < |s| ==> DateLe(s[i].date, s[j].date)
  }

  /** Insertion of one bar into a date-sorted list, after bars of equal date. */
  function InsertByDate(b: StockBar, s: seq<StockBar>): seq<StockBar>
  {
    if s == [] then [b]
    else if DateLe(s[0].date, b.date) then [s[0]] + InsertByDate(b, s[1..])
    else [b] + s
  }

  /**
    The order the query's `sort({ date: 1 })` produces. The database does not
    fix the order of equal dates; this model keeps their stored order, and
    unique (symbol, date) keys rule such ties out within one symbol.
   */
  function SortByDate(s: seq<StockBar>): seq<StockBar>
  {
    if s == [] then [] else InsertByDate(s[|s| - 1], SortByDate(s[..|s| - 1]))
  }

  lemma {:induction false} InsertByDatePermutes(b: StockBar, s: seq<StockBar>)
    ensures multiset(InsertByDate(b, s)) == multiset(s) + multiset{b}
  {
    if s != [] && DateLe(s[0].date, b.date) {
      InsertByDatePermutes(b, s[1..]);
      assert s == [s[0]] + s[1..];
    }
  }

  lemma {:induction false} InsertByDateSorted(b: StockBar, s: seq<StockBar>)
    requires SortedByDate(s)
    ensures SortedByDate(InsertByDate(b, s))
  {
    if s != [] && DateLe(s[0].date, b.date) {
      var rest := InsertByDate(b, s[1..]);
      InsertByDateSorted(b, s[1..]);
      InsertByDatePermutes(b, s[1..]);
      forall k | 0 <= k < |rest|
        ensures DateLe(s[0].date, rest[k].date)
      {
        assert rest[k] in multiset(rest);
        if rest[k] != b {
          assert rest[k] in multiset(s[1..]);
          var m :| 0 <= m < |s[1..]| && s[1..][m] == rest[k];
          assert s[m + 1] == rest[k];
        }
      }
    } else if s != [] {
      DateLeTotal(s[0].date, b.date);
      forall k | 0 < k < |s|
        ensures DateLe(b.date, s[k].date)
      {
        DateLeTransitive(b.date, s[0].date, s[k].date);
      }
    }
  }

  lemma {:induction false} SortByDateCorrect(s: seq<StockBar>)
    ensures SortedByDate(SortByDate(s))
    ensures multiset(SortByDate(s)) == multiset(s)
  {
    if s != [] {
      var init := s[..|s| - 1];
      SortByDateCorrect(init);
      InsertByDateSorted(s[|s| - 1], SortByDate(init));
      InsertByDatePermutes(s[|s| - 1], SortByDate(init));
      assert s == init + [s[|s| - 1]];
    }
  }

  /** Some stored bar has the key (symbol, date). */
  predicate HasKey(bars: seq<StockBar>, symbol: string, date: string)
  {
    exists i :: 0 <= i < |bars| && bars[i].symbol == symbol && bars[i].date == date
  }

  /** No two stored bars share a (symbol, date) key. */
  ghost predicate UniqueKeys(bars: seq<StockBar>)
  {
    forall i, j :: 0 <= i < j < |bars| ==>
      bars[i].symbol != bars[j].symbol || bars[i].date != bars[j].date
  }
}
