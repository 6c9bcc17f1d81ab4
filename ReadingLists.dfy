/**
 * Operations on one reading list: keeping it in date order after a reading
 * is appended (JavaScript's stable `sort` by date) and removing a reading
 * by id (`filter`).
 */
module ReadingLists {
  import opened Records

  predicate SortedByDate(rs: seq<Reading>) {
    forall i, j :: 0 <= i < j < |rs| ==> rs[i].date <= rs[j].date
  }

  /** Inserts `r` after every element dated on or before it, scanning from the end. */
  function InsertByDate(rs: seq<Reading>, r: Reading): (out: seq<Reading>)
    ensures |out| == |rs| + 1
  {
    if |rs| == 0 then [r]
    else if rs[|rs| - 1].date <= r.date then rs + [r]
    else InsertByDate(rs[..|rs| - 1], r) + [rs[|rs| - 1]]
  }

  /**
   * A stable sort by date (as insertion sort): the array `sort` with the
   * comparator `date(a) - date(b)`, which keeps equal dates in their order.
   */
  function SortByDate(rs: seq<Reading>): (out: seq<Reading>)
    ensures |out| == |rs|
  {
    if |rs| == 0 then [] else InsertByDate(SortByDate(rs[..|rs| - 1]), rs[|rs| - 1])
  }

  /** The readings whose id differs from `id`, in their original order. */
  function WithoutId(rs: seq<Reading>, id: int): (out: seq<Reading>)
    ensures |out| <= |rs|
  {
    if |rs| == 0 then []
    else
      var rest := WithoutId(rs[..|rs| - 1], id);
      if rs[|rs| - 1].id != id then rest + [rs[|rs| - 1]] else rest
  }

  // ---------------------------------------------------------------------
  // Insertion.

  /** Where `InsertByDate` puts `r`: after the last reading dated on or before it. */
  function InsertionPoint(rs: seq<Reading>, r: Reading): (k: nat)
    ensures k <= |rs|
    ensures forall i :: k <= i < |rs| ==> rs[i].date > r.date
    ensures k > 0 ==> rs[k - 1].date <= r.date
  {
    if |rs| == 0 then 0
    else if rs[|rs| - 1].date <= r.date then |rs|
    else InsertionPoint(rs[..|rs| - 1], r)
  }

  lemma {:induction false} InsertByDateAt(rs: seq<Reading>, r: Reading)
    ensures var k := InsertionPoint(rs, r);
            InsertByDate(rs, r) == rs[..k] + [r] + rs[k..]
  {
    if |rs| > 0 && rs[|rs| - 1].date > r.date {
      var init := rs[..|rs| - 1];
      InsertByDateAt(init, r);
      var k := InsertionPoint(init, r);
      assert rs[..k] == init[..k];
      assert rs[k..] == init[k..] + [rs[|rs| - 1]];
    }
  }

  /**
   * Inserting into a sorted list puts `r` between the readings dated on or
   * before it and those dated after it, so `r` comes after every existing
   * reading of the same date.
   */
  lemma InsertByDatePlace(rs: seq<Reading>, r: Reading)
    requires SortedByDate(rs)
    ensures var k := InsertionPoint(rs, r);
            && InsertByDate(rs, r) == rs[..k] + [r] + rs[k..]
            && (forall i :: 0 <= i < k ==> rs[i].date <= r.date)
            && (forall i :: k <= i < |rs| ==> rs[i].date > r.date)
  {
    InsertByDateAt(rs, r);
  }

  lemma InsertByDateSorted(rs: seq<Reading>, r: Reading)
    requires SortedByDate(rs)
    ensures SortedByDate(InsertByDate(rs, r))
  {
    InsertByDatePlace(rs, r);
    var k := InsertionPoint(rs, r);
    var out := InsertByDate(rs, r);
    forall i, j | 0 <= i < j < |out| ensures out[i].date <= out[j].date {
      ElementOfSplice(rs, r, k, i);
      ElementOfSplice(rs, r, k, j);
    }
  }

  lemma ElementOfSplice(rs: seq<Reading>, r: Reading, k: nat, i: nat)
    requires k <= |rs| && i <= |rs|
    ensures (rs[..k] + [r] + rs[k..])[i] == if i < k then rs[i] else if i == k then r else rs[i - 1]
  {
  }

  /** Insertion adds exactly `r` to the readings, whatever their order. */
  lemma {:induction false} InsertByDatePermutation(rs: seq<Reading>, r: Reading)
    ensures multiset(InsertByDate(rs, r)) == multiset(rs) + multiset{r}
  {
    if |rs| > 0 && rs[|rs| - 1].date > r.date {
      var init := rs[..|rs| - 1];
      InsertByDatePermutation(init, r);
      assert rs == init + [rs[|rs| - 1]];
    }
  }

  // ---------------------------------------------------------------------
  // Sorting.

  /** The sort yields a list in date order. */
  lemma {:induction false} SortByDateSorted(rs: seq<Reading>)
    ensures SortedByDate(SortByDate(rs))
  {
    if |rs| > 0 {
      SortByDateSorted(rs[..|rs| - 1]);
      InsertByDateSorted(SortByDate(rs[..|rs| - 1]), rs[|rs| - 1]);
    }
  }

  /** The sort neither loses nor invents readings. */
  lemma {:induction false} SortByDatePermutation(rs: seq<Reading>)
    ensures multiset(SortByDate(rs)) == multiset(rs)
  {
    if |rs| > 0 {
      var init := rs[..|rs| - 1];
      SortByDatePermutation(init);
      InsertByDatePermutation(SortByDate(init), rs[|rs| - 1]);
      assert rs == init + [rs[|rs| - 1]];
    }
  }

  /** Sorting a list already in date order changes nothing. */
  lemma {:induction false} SortByDateOfSorted(rs: seq<Reading>)
    requires SortedByDate(rs)
    ensures SortByDate(rs) == rs
  {
    if |rs| > 0 {
      var init := rs[..|rs| - 1];
      SortByDateOfSorted(init);
      assert rs == init + [rs[|rs| - 1]];
    }
  }

  /**
   * Appending a reading to a date-ordered list and sorting is the same as
   * inserting it after the readings dated on or before it.
   */
  lemma AppendThenSort(rs: seq<Reading>, r: Reading)
    requires SortedByDate(rs)
    ensures SortByDate(rs + [r]) == InsertByDate(rs, r)
    ensures SortedByDate(SortByDate(rs + [r]))
  {
    assert (rs + [r])[..|rs|] == rs;
    SortByDateOfSorted(rs);
    InsertByDateSorted(rs, r);
  }

  // ---------------------------------------------------------------------
  // Removal by id.

  /** Removal distributes over concatenation: the kept readings stay in their order. */
  lemma {:induction false} WithoutIdAppend(a: seq<Reading>, b: seq<Reading>, id: int)
    ensures WithoutId(a + b, id) == WithoutId(a, id) + WithoutId(b, id)
    decreases |b|
  {
    if |b| == 0 {
      assert a + b == a;
    } else {
      var b' := b[..|b| - 1];
      WithoutIdAppend(a, b', id);
      assert (a + b)[..|a + b| - 1] == a + b';
    }
  }

  /** Exactly the readings with another id are kept. */
  lemma {:induction false} WithoutIdMembers(rs: seq<Reading>, id: int)
    ensures forall x :: x in WithoutId(rs, id) <==> x in rs && x.id != id
  {
    if |rs| > 0 {
      var init := rs[..|rs| - 1];
      WithoutIdMembers(init, id);
      assert rs == init + [rs[|rs| - 1]];
    }
  }

  /** Removing readings keeps the list in date order. */
  lemma {:induction false} WithoutIdSorted(rs: seq<Reading>, id: int)
    requires SortedByDate(rs)
    ensures SortedByDate(WithoutId(rs, id))
  {
    if |rs| > 0 {
      var init := rs[..|rs| - 1];
      WithoutIdSorted(init, id);
      WithoutIdMembers(init, id);
      var rest := WithoutId(init, id);
      if rs[|rs| - 1].id != id {
        forall i | 0 <= i < |rest| ensures rest[i].date <= rs[|rs| - 1].date {
          assert rest[i] in init;
        }
      }
    }
  }
}
