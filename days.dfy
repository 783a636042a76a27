/** Weekday lists (0 = Sunday … 6 = Saturday): sorting, the day toggle of the
    reminder form, and the facts about sorted, duplicate-free lists that the
    toggle relies on. */
module Days {
  import opened Seqs

  predicate Sorted(s: seq<int>) {
    forall i, j :: 0 <= i < j < |s| ==> s[i] <= s[j]
  }

  predicate NoDuplicates(s: seq<int>) {
    forall i, j :: 0 <= i < j < |s| ==> s[i] != s[j]
  }

  predicate StrictlySorted(s: seq<int>) {
    forall i, j :: 0 <= i < j < |s| ==> s[i] < s[j]
  }

  // ---------------------------------------------------------------------------
  // Sorting

  /** Inserts `x` into a sorted list before the first element not below it. */
  function Insert(x: int, s: seq<int>): (r: seq<int>)
    requires Sorted(s)
    ensures Sorted(r)
    ensures multiset(r) == multiset(s) + multiset{x}
  {
    if s == [] then [x]
    else if x <= s[0] then [x] + s
    else
      var rest := Insert(x, s[1..]);
      assert s == [s[0]] + s[1..];
      HeadBelowRest(s[0], s[1..], x, rest);
      [s[0]] + rest
  }

  /** The head of a sorted list is below everything inserted after it. */
  lemma HeadBelowRest(h: int, tail: seq<int>, x: int, rest: seq<int>)
    requires forall k :: 0 <= k < |tail| ==> h <= tail[k]
    requires h <= x
    requires multiset(rest) == multiset(tail) + multiset{x}
    ensures forall k :: 0 <= k < |rest| ==> h <= rest[k]
  {
    forall k | 0 <= k < |rest|
      ensures h <= rest[k]
    {
      assert rest[k] in multiset(rest);
      if rest[k] != x {
        assert rest[k] in multiset(tail);
        assert rest[k] in tail;
      }
    }
  }

  /** `days.sort()`: the same elements in ascending order. */
  function Sort(s: seq<int>): (r: seq<int>)
    ensures Sorted(r)
    ensures multiset(r) == multiset(s)
  {
    if s == [] then []
    else
      assert s == [s[0]] + s[1..];
      Insert(s[0], Sort(s[1..]))
  }

  // ---------------------------------------------------------------------------
  // Duplicates and multiplicities

  lemma {:induction false} NoDuplicatesAtMostOnce(s: seq<int>)
    requires NoDuplicates(s)
    ensures forall x :: multiset(s)[x] <= 1
  {
    if s != [] {
      assert NoDuplicates(s[1..]) by {
        forall i, j | 0 <= i < j < |s[1..]|
          ensures s[1..][i] != s[1..][j]
        {
          assert s[1..][i] == s[i + 1] && s[1..][j] == s[j + 1];
        }
      }
      NoDuplicatesAtMostOnce(s[1..]);
      assert s == [s[0]] + s[1..];
      assert s[0] !in s[1..] by {
        forall k | 0 <= k < |s[1..]|
          ensures s[1..][k] != s[0]
        {
          assert s[1..][k] == s[k + 1];
        }
      }
    }
  }

  lemma AtMostOnceNoDuplicates(s: seq<int>)
    requires forall x :: multiset(s)[x] <= 1
    ensures NoDuplicates(s)
  {
    forall i, j | 0 <= i < j < |s|
      ensures s[i] != s[j]
    {
      assert s == s[..j] + s[j..];
      assert s[i] in s[..j];
      assert s[j] in s[j..];
      assert multiset(s)[s[j]] == multiset(s[..j])[s[j]] + multiset(s[j..])[s[j]];
    }
  }

  lemma SortedNoDuplicatesStrict(s: seq<int>)
    requires Sorted(s) && NoDuplicates(s)
    ensures StrictlySorted(s)
  {
  }

  /** Filtering keeps a list sorted. */
  lemma {:induction false} FilterSorted(s: seq<int>, p: int -> bool)
    requires Sorted(s)
    ensures Sorted(Filter(s, p))
    decreases |s|
  {
    if s != [] {
      FilterSorted(s[1..], p);
      var rest := Filter(s[1..], p);
      forall k | 0 <= k < |rest|
        ensures s[0] <= rest[k]
      {
        assert rest[k] in s[1..];
      }
    }
  }

  /** Two strictly sorted lists with the same elements are equal. */
  lemma {:induction false} StrictlySortedUnique(a: seq<int>, b: seq<int>)
    requires StrictlySorted(a) && StrictlySorted(b)
    requires forall x :: x in a <==> x in b
    ensures a == b
    decreases |a|
  {
    assert |b| == 0 || b[0] in b;
    if a != [] {
      SameHead(a, b);
      SameTail(a, b);
      StrictlySortedUnique(a[1..], b[1..]);
      assert a == [a[0]] + a[1..] && b == [b[0]] + b[1..];
    }
  }

  /** Strictly sorted lists with the same elements start alike. */
  lemma SameHead(a: seq<int>, b: seq<int>)
    requires StrictlySorted(a) && StrictlySorted(b) && a != []
    requires forall x :: x in a <==> x in b
    ensures b != [] && a[0] == b[0]
  {
    assert a[0] in a;
    var k :| 0 <= k < |b| && b[k] == a[0];
    assert b[0] <= b[k];
    assert b[0] in b;
    var m :| 0 <= m < |a| && a[m] == b[0];
    assert a[0] <= a[m];
  }

  /** ... and so have the same elements after the first. */
  lemma SameTail(a: seq<int>, b: seq<int>)
    requires StrictlySorted(a) && StrictlySorted(b) && a != [] && b != [] && a[0] == b[0]
    requires forall x :: x in a <==> x in b
    ensures forall x :: x in a[1..] <==> x in b[1..]
  {
    forall x
      ensures x in a[1..] ==> x in b[1..]
    {
      if x in a[1..] {
        var i :| 1 <= i < |a| && a[i] == x;
        assert a[0] < a[i];
        assert x in b;
        var j :| 0 <= j < |b| && b[j] == x;
        assert b[1..][j - 1] == x;
      }
    }
    forall x
      ensures x in b[1..] ==> x in a[1..]
    {
      if x in b[1..] {
        var j :| 1 <= j < |b| && b[j] == x;
        assert b[0] < b[j];
        assert x in a;
        var i :| 0 <= i < |a| && a[i] == x;
        assert a[1..][i - 1] == x;
      }
    }
  }

  // ---------------------------------------------------------------------------
  // toggleDay

  /** Removes every occurrence of a selected day; otherwise adds the day and
      sorts the result. */
  function ToggleDay(days: seq<int>, day: int): seq<int> {
    if day in days then Filter(days, (d: int) => d != day)
    else Sort(days + [day])
  }

  /** The toggled day's membership flips; every other day's is unchanged. */
  lemma ToggleDayMembership(days: seq<int>, day: int, d: int)
    ensures d in ToggleDay(days, day) <==> (if d == day then day !in days else d in days)
  {
    var r := ToggleDay(days, day);
    if day !in days {
      assert multiset(r) == multiset(days + [day]);
      assert d in r <==> d in multiset(r);
      assert d in days + [day] <==> d in days || d == day;
    } else if d in days && d != day {
      var k :| 0 <= k < |days| && days[k] == d;
      assert days[k] in r;
    }
  }

  /** Adding a day yields a sorted list; removing one keeps a sorted list sorted. */
  lemma ToggleDayKeepsSorted(days: seq<int>, day: int)
    requires day in days ==> Sorted(days)
    ensures Sorted(ToggleDay(days, day))
  {
    if day in days {
      FilterSorted(days, (d: int) => d != day);
    }
  }

  /** A duplicate-free list stays duplicate-free. */
  lemma ToggleDayKeepsNoDuplicates(days: seq<int>, day: int)
    requires NoDuplicates(days)
    ensures NoDuplicates(ToggleDay(days, day))
  {
    NoDuplicatesAtMostOnce(days);
    var r := ToggleDay(days, day);
    if day in days {
      FilterSubMultiset(days, (d: int) => d != day);
    } else {
      assert multiset(r) == multiset(days) + multiset{day};
    }
    assert forall x :: multiset(r)[x] <= 1;
    AtMostOnceNoDuplicates(r);
  }

  /** On a sorted list without duplicates (the form's own lists), toggling the
      same day twice gives the original list back. */
  lemma ToggleDayTwice(days: seq<int>, day: int)
    requires StrictlySorted(days)
    ensures ToggleDay(ToggleDay(days, day), day) == days
  {
    var once := ToggleDay(days, day);
    var twice := ToggleDay(once, day);
    assert NoDuplicates(days);
    ToggleDayKeepsNoDuplicates(days, day);
    ToggleDayKeepsSorted(days, day);
    SortedNoDuplicatesStrict(once);
    ToggleDayKeepsNoDuplicates(once, day);
    ToggleDayKeepsSorted(once, day);
    SortedNoDuplicatesStrict(twice);
    forall x
      ensures x in twice <==> x in days
    {
      ToggleDayMembership(days, day, x);
      ToggleDayMembership(once, day, x);
    }
    StrictlySortedUnique(twice, days);
  }
}
