/** The period history of App.tsx as sequence operations: the sorted insertion
    of a new record, the edit by period key, the delete by index, the search
    for the active period and the fallback for the displayed record. */
module Records {
  import opened Types

  /** Ascending by period; records of the same period may follow each other. */
  ghost predicate Sorted(s: seq<FinancialData>)
  {
    forall i, j :: 0 <= i < j < |s| ==> s[i].period <= s[j].period
  }

  // ---------------------------------------------------------------------------
  // Adding a record: `[...history, formData].sort(byDate)`
  // ---------------------------------------------------------------------------

  /** Places `x` just before the first record dated strictly later than it. */
  function Insert(t: seq<FinancialData>, x: FinancialData): (r: seq<FinancialData>)
    ensures |r| == |t| + 1
  {
    if t == [] || x.period < t[0].period then [x] + t
    else [t[0]] + Insert(t[1..], x)
  }

  /** The index of the first record dated strictly later than `p`, or the length. */
  function FirstLater(s: seq<FinancialData>, p: Period): (k: nat)
    ensures k <= |s|
    ensures forall i :: 0 <= i < k ==> s[i].period <= p
    ensures k < |s| ==> p < s[k].period
  {
    if s == [] || p < s[0].period then 0 else 1 + FirstLater(s[1..], p)
  }

  /** Insertion splits the list at its first record dated later than `x`. */
  lemma {:induction false} InsertSplits(t: seq<FinancialData>, x: FinancialData)
    ensures var k := FirstLater(t, x.period); Insert(t, x) == t[..k] + [x] + t[k..]
  {
    if t != [] && !(x.period < t[0].period) {
      InsertSplits(t[1..], x);
      var k := FirstLater(t[1..], x.period);
      assert t[..k + 1] == [t[0]] + t[1..][..k];
      assert t[k + 1..] == t[1..][k..];
    }
  }

  /** Insertion adds exactly the new record. */
  lemma InsertPermutes(t: seq<FinancialData>, x: FinancialData)
    ensures multiset(Insert(t, x)) == multiset(t) + multiset{x}
  {
    var k := FirstLater(t, x.period);
    InsertSplits(t, x);
    assert t == t[..k] + t[k..];
  }

  /** Insertion into a sorted list keeps it sorted. */
  lemma InsertSorted(t: seq<FinancialData>, x: FinancialData)
    requires Sorted(t)
    ensures Sorted(Insert(t, x))
  {
    var k := FirstLater(t, x.period);
    InsertSplits(t, x);
    var r := Insert(t, x);
    assert forall i :: 0 <= i < |r| ==> r[i] == (if i < k then t[i] else if i == k then x else t[i - 1]);
    forall i, j | 0 <= i < j < |r| ensures r[i].period <= r[j].period {
      if j > k && i >= k {
        assert k < |t| && x.period < t[k].period <= t[j - 1].period;
      }
    }
  }

  /** Sorting by ascending date with a stable sort (`Array.prototype.sort` is
      stable): records are taken in list order and each one is inserted after
      every earlier record of the same or an earlier date. */
  function SortByPeriod(s: seq<FinancialData>): (r: seq<FinancialData>)
    ensures |r| == |s|
  {
    if s == [] then [] else Insert(SortByPeriod(s[..|s| - 1]), s[|s| - 1])
  }

  /** The sort returns a sorted permutation of its input. */
  lemma {:induction false} SortSortsAndPermutes(s: seq<FinancialData>)
    ensures Sorted(SortByPeriod(s))
    ensures multiset(SortByPeriod(s)) == multiset(s)
  {
    if s != [] {
      var init, last := s[..|s| - 1], s[|s| - 1];
      SortSortsAndPermutes(init);
      InsertSorted(SortByPeriod(init), last);
      InsertPermutes(SortByPeriod(init), last);
      assert s == init + [last];
    }
  }

  /** The history after a new record is submitted. */
  function AddRecord(history: seq<FinancialData>, x: FinancialData): (r: seq<FinancialData>)
    ensures |r| == |history| + 1
  {
    SortByPeriod(history + [x])
  }

  /** An add yields a sorted list holding the old records plus the new one. */
  lemma AddRecordSortedPermutation(history: seq<FinancialData>, x: FinancialData)
    ensures Sorted(AddRecord(history, x))
    ensures multiset(AddRecord(history, x)) == multiset(history) + multiset{x}
    ensures |AddRecord(history, x)| == |history| + 1
  {
    SortSortsAndPermutes(history + [x]);
  }

  /** The records of one period, in list order. */
  function WithPeriod(s: seq<FinancialData>, p: Period): seq<FinancialData>
  {
    if s == [] then []
    else (if s[0].period == p then [s[0]] else []) + WithPeriod(s[1..], p)
  }

  /** The records of one period in a joined list are those of each part, in order. */
  lemma {:induction false} WithPeriodAppend(a: seq<FinancialData>, b: seq<FinancialData>, p: Period)
    ensures WithPeriod(a + b, p) == WithPeriod(a, p) + WithPeriod(b, p)
  {
    if a == [] {
      assert a + b == b;
    } else {
      var head := if a[0].period == p then [a[0]] else [];
      assert (a + b)[0] == a[0];
      assert (a + b)[1..] == a[1..] + b;
      assert WithPeriod(a + b, p) == head + WithPeriod(a[1..] + b, p);
      WithPeriodAppend(a[1..], b, p);
      Associative(head, WithPeriod(a[1..], p), WithPeriod(b, p));
    }
  }

  lemma Associative<T>(x: seq<T>, y: seq<T>, z: seq<T>)
    ensures x + (y + z) == (x + y) + z
  {
  }

  /** No record of period `p` in a list whose records all come later. */
  lemma {:induction false} WithPeriodOfLater(s: seq<FinancialData>, p: Period)
    requires forall k :: 0 <= k < |s| ==> p < s[k].period
    ensures WithPeriod(s, p) == []
  {
    if s != [] {
      WithPeriodOfLater(s[1..], p);
    }
  }

  /** Inserting into a sorted list puts the new record after every record of its period. */
  lemma {:induction false} InsertStable(t: seq<FinancialData>, x: FinancialData, p: Period)
    requires Sorted(t)
    ensures WithPeriod(Insert(t, x), p) == WithPeriod(t, p) + (if x.period == p then [x] else [])
  {
    if t == [] || x.period < t[0].period {
      if x.period == p {
        WithPeriodOfLater(t, p);
      }
      assert ([x] + t)[1..] == t;
    } else {
      var rest := Insert(t[1..], x);
      InsertStable(t[1..], x, p);
      assert ([t[0]] + rest)[1..] == rest;
    }
  }

  /** The sort is stable: the records of each period keep their relative order. */
  lemma {:induction false} SortStable(s: seq<FinancialData>, p: Period)
    ensures WithPeriod(SortByPeriod(s), p) == WithPeriod(s, p)
  {
    if s != [] {
      var init, last := s[..|s| - 1], s[|s| - 1];
      SortStable(init, p);
      SortSortsAndPermutes(init);
      InsertStable(SortByPeriod(init), last, p);
      assert s == init + [last];
      WithPeriodAppend(init, [last], p);
    }
  }

  /** After an add, the records of each period are those before it, in their
      old order, with the new record last among those of its own period. */
  lemma AddRecordStable(history: seq<FinancialData>, x: FinancialData, p: Period)
    ensures WithPeriod(AddRecord(history, x), p) == WithPeriod(history, p) + (if x.period == p then [x] else [])
  {
    SortStable(history + [x], p);
    WithPeriodAppend(history, [x], p);
  }

  /** Inserting behind records no later than `x` appends. */
  lemma {:induction false} InsertAtEnd(t: seq<FinancialData>, x: FinancialData)
    requires forall k :: 0 <= k < |t| ==> t[k].period <= x.period
    ensures Insert(t, x) == t + [x]
  {
    if t != [] {
      InsertAtEnd(t[1..], x);
      assert t == [t[0]] + t[1..];
    }
  }

  /** Sorting a sorted list changes nothing. */
  lemma {:induction false} SortSortedIsIdentity(s: seq<FinancialData>)
    requires Sorted(s)
    ensures SortByPeriod(s) == s
  {
    if s != [] {
      var init, last := s[..|s| - 1], s[|s| - 1];
      assert Sorted(init) by {
        forall i, j | 0 <= i < j < |init| ensures init[i].period <= init[j].period {
          assert init[i] == s[i] && init[j] == s[j];
        }
      }
      assert forall k :: 0 <= k < |init| ==> init[k].period <= last.period by {
        forall k | 0 <= k < |init| ensures init[k].period <= last.period {
          assert init[k] == s[k];
        }
      }
      SortSortedIsIdentity(init);
      InsertAtEnd(init, last);
      assert s == init + [last];
    }
  }

  /** Adding to a date-sorted history is a plain insertion: the new record goes
      right after every record dated on or before it, and nothing else moves. */
  lemma AddToSortedInserts(history: seq<FinancialData>, x: FinancialData)
    requires Sorted(history)
    ensures var k := FirstLater(history, x.period);
      AddRecord(history, x) == history[..k] + [x] + history[k..]
  {
    assert history + [x] == (history + [x])[..|history|] + [x];
    assert (history + [x])[..|history|] == history;
    SortSortedIsIdentity(history);
    InsertSplits(history, x);
  }

  // ---------------------------------------------------------------------------
  // Editing a record: `history.map(h => h.period === formData.period ? formData : h)`
  // ---------------------------------------------------------------------------

  /** Every record of the form's period is replaced by the form's record. */
  function ReplaceByPeriod(history: seq<FinancialData>, form: FinancialData): (r: seq<FinancialData>)
    ensures |r| == |history|
    ensures forall i :: 0 <= i < |history| ==>
      r[i] == (if history[i].period == form.period then form else history[i])
  {
    if history == [] then []
    else [if history[0].period == form.period then form else history[0]] + ReplaceByPeriod(history[1..], form)
  }

  /** An edit keeps every period at its position, so the list stays sorted. */
  lemma EditKeepsPeriods(history: seq<FinancialData>, form: FinancialData)
    ensures forall i :: 0 <= i < |history| ==> ReplaceByPeriod(history, form)[i].period == history[i].period
    ensures Sorted(history) ==> Sorted(ReplaceByPeriod(history, form))
  {
  }

  /** An edit whose period matches no record (the date was changed in the form) changes nothing. */
  lemma EditOfUnknownPeriod(history: seq<FinancialData>, form: FinancialData)
    requires forall i :: 0 <= i < |history| ==> history[i].period != form.period
    ensures ReplaceByPeriod(history, form) == history
  {
  }

  // ---------------------------------------------------------------------------
  // The active period
  // ---------------------------------------------------------------------------

  /** `findIndex(h => h.period === p)`: the first index of period `p`, or -1. */
  function FindPeriodIndex(s: seq<FinancialData>, p: Period): (r: int)
    ensures -1 <= r < |s|
    ensures r == -1 <==> forall i :: 0 <= i < |s| ==> s[i].period != p
    ensures r != -1 ==> s[r].period == p && forall j :: 0 <= j < r ==> s[j].period != p
  {
    if s == [] then -1
    else if s[0].period == p then 0
    else
      var r := FindPeriodIndex(s[1..], p);
      if r == -1 then -1 else r + 1
  }

  /** The active index after a submit: the first record of the submitted period,
      or the last record when there is none. */
  function ActiveAfterSubmit(history: seq<FinancialData>, p: Period): (i: int)
    ensures -1 <= i < |history|
    ensures |history| > 0 ==> 0 <= i
    ensures (exists k :: 0 <= k < |history| && history[k].period == p) ==>
      history[i].period == p && forall j :: 0 <= j < i ==> history[j].period != p
    ensures (forall k :: 0 <= k < |history| ==> history[k].period != p) ==> i == |history| - 1
  {
    var idx := FindPeriodIndex(history, p);
    if idx != -1 then idx else |history| - 1
  }

  /** After an add, the active record is one of the new record's period. */
  lemma AddSelectsItsPeriod(history: seq<FinancialData>, x: FinancialData)
    ensures var h := AddRecord(history, x);
      var i := ActiveAfterSubmit(h, x.period);
      0 <= i < |h| && h[i].period == x.period
  {
    var h := AddRecord(history, x);
    AddRecordSortedPermutation(history, x);
    assert x in multiset(h);
    var k :| 0 <= k < |h| && h[k] == x;
  }

  // ---------------------------------------------------------------------------
  // Deleting a record: `history.filter((_, i) => i !== index)`
  // ---------------------------------------------------------------------------

  /** The list without the element at `index`; an index outside the list removes nothing. */
  function RemoveAt<T>(s: seq<T>, index: int): (r: seq<T>)
    ensures 0 <= index < |s| ==> r == s[..index] + s[index + 1..]
    ensures !(0 <= index < |s|) ==> r == s
  {
    if s == [] then []
    else
      var rest := RemoveAt(s[1..], index - 1);
      assert s == [s[0]] + s[1..];
      assert 0 < index < |s| ==> s[..index] == [s[0]] + s[1..][..index - 1];
      (if index == 0 then [] else [s[0]]) + rest
  }

  /** Cutting one element out of a list takes exactly that element out of its multiset. */
  lemma MultisetWithout<T>(s: seq<T>, index: int)
    requires 0 <= index < |s|
    ensures multiset(s[..index] + s[index + 1..]) + multiset{s[index]} == multiset(s)
  {
    assert s == s[..index] + ([s[index]] + s[index + 1..]);
  }

  /** A delete removes exactly the record at the index. */
  lemma RemoveAtRemovesOne<T>(s: seq<T>, index: int)
    requires 0 <= index < |s|
    ensures |RemoveAt(s, index)| == |s| - 1
    ensures multiset(RemoveAt(s, index)) + multiset{s[index]} == multiset(s)
  {
    MultisetWithout(s, index);
  }

  /** A delete keeps a sorted list sorted. */
  lemma RemoveAtKeepsSorted(s: seq<FinancialData>, index: int)
    requires Sorted(s)
    ensures Sorted(RemoveAt(s, index))
  {
    if 0 <= index < |s| {
      var r := RemoveAt(s, index);
      assert forall i :: 0 <= i < |r| ==> r[i] == (if i < index then s[i] else s[i + 1]);
    }
  }

  /** The active index after a delete leaves `newLength` records: an index past
      the end moves to the last record (0 when none is left); any other stays. */
  function ClampActive(active: int, newLength: nat): (i: int)
    ensures active < newLength ==> i == active
    ensures active >= newLength ==> i == (if newLength > 0 then newLength - 1 else 0)
    ensures 0 <= active ==> 0 <= i <= active
  {
    if active >= newLength then if newLength - 1 < 0 then 0 else newLength - 1 else active
  }

  /** `history[activePeriodIndex] || history[0]`: the displayed record, with the
      first record as fallback for an index outside the list; none when empty. */
  function CurrentData(history: seq<FinancialData>, active: int): (r: Option<FinancialData>)
    ensures r.Some? <==> |history| > 0
    ensures 0 <= active < |history| ==> r == Some(history[active])
    ensures |history| > 0 && !(0 <= active < |history|) ==> r == Some(history[0])
  {
    if 0 <= active < |history| then Some(history[active])
    else if |history| > 0 then Some(history[0])
    else None
  }
}
