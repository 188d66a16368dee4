/**
 * The best-slot dashboard (app.py): a table of time slots with an occupied
 * flag, no-show probabilities per time from a trained model, the free slots
 * with the lowest probability suggested first, and booking that marks a slot
 * occupied in place. The probabilities are an input map; the model that
 * computes them is not part of this model.
 */
module SlotSuggestion {
  import opened Wrappers
  import opened Text

  /** One row of the appointments table: a time and its `occupied` column. */
  datatype SlotRow = SlotRow(time: string, occupied: int)

  /** One row of the `table_data` that `api_data` returns. */
  datatype TableRow = TableRow(time: string, occupied: int, probability: real, bestSlot: bool)

  /** The reply of `book_slot`. */
  datatype BookReply = Success(bookedSlot: string) | NotFound(message: string)

  const SlotNotFound := "Slot not found"
  const DefaultTopN := 3

  /** The sort key: the slot's no-show probability, 1 when the model gave none. */
  function Key(probs: map<string, real>, t: string): real {
    if t in probs then probs[t] else 1.0
  }

  /** The free times, in table order (`occ == 0`). */
  function FreeSlots(rows: seq<SlotRow>): (free: seq<string>)
    ensures |free| <= |rows|
    ensures forall t :: t in free <==> exists i :: 0 <= i < |rows| && rows[i].time == t && rows[i].occupied == 0
  {
    if rows == [] then []
    else
      var rest := FreeSlots(rows[1..]);
      assert forall i :: 1 <= i < |rows| ==> rows[i] == rows[1..][i - 1];
      if rows[0].occupied == 0 then [rows[0].time] + rest else rest
  }

  // ---------------------------------------------------------------- the stable sort

  predicate SortedByKey(probs: map<string, real>, s: seq<string>) {
    forall i, j :: 0 <= i < j < |s| ==> Key(probs, s[i]) <= Key(probs, s[j])
  }

  /** `x` placed before the first element whose key is not smaller than its own. */
  function Insert(probs: map<string, real>, x: string, s: seq<string>): (r: seq<string>)
    ensures |r| == |s| + 1
  {
    if s == [] then [x]
    else if Key(probs, x) <= Key(probs, s[0]) then [x] + s
    else [s[0]] + Insert(probs, x, s[1..])
  }

  /** `sorted(xs, key=...)`, written as an insertion sort. */
  function SortByKey(probs: map<string, real>, xs: seq<string>): (r: seq<string>)
    ensures |r| == |xs|
    ensures multiset(r) == multiset(xs)
  {
    if xs == [] then []
    else
      var rest := SortByKey(probs, xs[1..]);
      InsertElements(probs, xs[0], rest);
      assert xs == [xs[0]] + xs[1..];
      Insert(probs, xs[0], rest)
  }

  /** The elements of `s` whose key is `k`, in order. */
  function WithKey(probs: map<string, real>, s: seq<string>, k: real): seq<string> {
    if s == [] then []
    else (if Key(probs, s[0]) == k then [s[0]] else []) + WithKey(probs, s[1..], k)
  }

  /** Inserting adds `x` and keeps every element of `s`. */
  lemma {:induction false} InsertElements(probs: map<string, real>, x: string, s: seq<string>)
    ensures multiset(Insert(probs, x, s)) == multiset(s) + multiset{x}
    ensures forall j :: 0 <= j < |s| + 1 ==> Insert(probs, x, s)[j] == x || Insert(probs, x, s)[j] in s
  {
    if s != [] && Key(probs, x) > Key(probs, s[0]) {
      InsertElements(probs, x, s[1..]);
      assert s == [s[0]] + s[1..];
      var r := Insert(probs, x, s);
      forall j | 0 <= j < |s| + 1 ensures r[j] == x || r[j] in s {
        if j > 0 {
          assert r[j] == Insert(probs, x, s[1..])[j - 1];
        }
      }
    }
  }

  lemma {:induction false} InsertSorted(probs: map<string, real>, x: string, s: seq<string>)
    requires SortedByKey(probs, s)
    ensures SortedByKey(probs, Insert(probs, x, s))
  {
    if s != [] && Key(probs, x) > Key(probs, s[0]) {
      var tail := s[1..];
      assert SortedByKey(probs, tail) by {
        forall i, j | 0 <= i < j < |tail| ensures Key(probs, tail[i]) <= Key(probs, tail[j]) {
          assert tail[i] == s[i + 1] && tail[j] == s[j + 1];
        }
      }
      InsertSorted(probs, x, tail);
      InsertElements(probs, x, tail);
      var ins := Insert(probs, x, tail);
      forall j | 0 <= j < |ins| ensures Key(probs, s[0]) <= Key(probs, ins[j]) {
        if ins[j] != x {
          var m :| 0 <= m < |tail| && tail[m] == ins[j];
          assert tail[m] == s[m + 1];
        }
      }
      var r := Insert(probs, x, s);
      assert r == [s[0]] + ins;
      forall i, j | 0 <= i < j < |r| ensures Key(probs, r[i]) <= Key(probs, r[j]) {
        assert r[j] == ins[j - 1];
        if i > 0 {
          assert r[i] == ins[i - 1];
        }
      }
    }
  }

  /** The sort returns the same elements, ascending by key. */
  lemma {:induction false} SortSorted(probs: map<string, real>, xs: seq<string>)
    ensures SortedByKey(probs, SortByKey(probs, xs))
    ensures multiset(SortByKey(probs, xs)) == multiset(xs)
  {
    if xs != [] {
      SortSorted(probs, xs[1..]);
      InsertSorted(probs, xs[0], SortByKey(probs, xs[1..]));
      InsertElements(probs, xs[0], SortByKey(probs, xs[1..]));
      assert xs == [xs[0]] + xs[1..];
    }
  }

  lemma {:induction false} WithKeyAppend(probs: map<string, real>, a: seq<string>, b: seq<string>, k: real)
    ensures WithKey(probs, a + b, k) == WithKey(probs, a, k) + WithKey(probs, b, k)
  {
    if a == [] {
      assert a + b == b;
    } else {
      assert (a + b)[0] == a[0] && (a + b)[1..] == a[1..] + b;
      WithKeyAppend(probs, a[1..], b, k);
    }
  }

  /** Inserting into a sorted list keeps the order among equal keys, with `x` first among its own. */
  lemma {:induction false} InsertWithKey(probs: map<string, real>, x: string, s: seq<string>, k: real)
    requires SortedByKey(probs, s)
    ensures WithKey(probs, Insert(probs, x, s), k) == (if Key(probs, x) == k then [x] else []) + WithKey(probs, s, k)
  {
    if s != [] {
      if Key(probs, x) <= Key(probs, s[0]) {
        assert Insert(probs, x, s) == [x] + s;
        WithKeyAppend(probs, [x], s, k);
      } else {
        var tail := s[1..];
        assert SortedByKey(probs, tail) by {
          forall i, j | 0 <= i < j < |tail| ensures Key(probs, tail[i]) <= Key(probs, tail[j]) {
            assert tail[i] == s[i + 1] && tail[j] == s[j + 1];
          }
        }
        InsertWithKey(probs, x, tail, k);
        assert Insert(probs, x, s) == [s[0]] + Insert(probs, x, tail);
      }
    }
  }

  /**
   * The sort is stable: for every key, the elements with that key come out
   * in the order they went in. Together with `SortSorted` this pins the
   * result down to the one Python's `sorted` returns.
   */
  lemma {:induction false} SortStable(probs: map<string, real>, xs: seq<string>, k: real)
    ensures WithKey(probs, SortByKey(probs, xs), k) == WithKey(probs, xs, k)
  {
    if xs != [] {
      SortStable(probs, xs[1..], k);
      SortSorted(probs, xs[1..]);
      InsertWithKey(probs, xs[0], SortByKey(probs, xs[1..]), k);
    }
  }

  // ---------------------------------------------------------------- the suggestion

  /** `suggest_best_slots`: the free times by ascending probability, cut to `topN` as `[:top_n]` does. */
  function SuggestBestSlots(probs: map<string, real>, rows: seq<SlotRow>, topN: int): (r: seq<string>)
    ensures topN >= 0 ==> |r| == if topN < |FreeSlots(rows)| then topN else |FreeSlots(rows)|
  {
    PyPrefix(SortByKey(probs, FreeSlots(rows)), topN)
  }

  /** A prefix holds some of the elements of the whole. */
  lemma PrefixIncluded(s: seq<string>, n: nat)
    requires n <= |s|
    ensures multiset(s[..n]) <= multiset(s)
  {
    assert s == s[..n] + s[n..];
  }

  /** Every suggestion is a free slot, and the suggestions are some of the free slots. */
  lemma SuggestFree(probs: map<string, real>, rows: seq<SlotRow>, topN: int)
    ensures multiset(SuggestBestSlots(probs, rows, topN)) <= multiset(FreeSlots(rows))
    ensures forall t :: t in SuggestBestSlots(probs, rows, topN) ==>
      exists i :: 0 <= i < |rows| && rows[i].time == t && rows[i].occupied == 0
  {
    var free := FreeSlots(rows);
    var sorted := SortByKey(probs, free);
    SortSorted(probs, free);
    var r := SuggestBestSlots(probs, rows, topN);
    assert r == sorted[..|r|];
    PrefixIncluded(sorted, |r|);
    forall t | t in r ensures t in free {
      assert t in multiset(r);
    }
  }

  /** A prefix of a sorted list is sorted, and holds no key above one it leaves out. */
  lemma PrefixLowest(probs: map<string, real>, sorted: seq<string>, n: nat)
    requires SortedByKey(probs, sorted) && n <= |sorted|
    ensures SortedByKey(probs, sorted[..n])
    ensures forall t, u :: (t in sorted[..n] && u in multiset(sorted) - multiset(sorted[..n])) ==> Key(probs, t) <= Key(probs, u)
  {
    var r, rest := sorted[..n], sorted[n..];
    assert sorted == r + rest;
    assert multiset(sorted) == multiset(r) + multiset(rest);
    forall t, u | t in r && u in multiset(sorted) - multiset(r) ensures Key(probs, t) <= Key(probs, u) {
      assert u in multiset(rest);
      var i :| 0 <= i < |r| && r[i] == t;
      var j :| 0 <= j < |rest| && rest[j] == u;
      assert sorted[i] == t && sorted[n + j] == u;
    }
  }

  /**
   * The suggestions ascend by probability, and none of the free slots left
   * out has a lower probability than a suggested one.
   */
  lemma SuggestLowestFirst(probs: map<string, real>, rows: seq<SlotRow>, topN: int)
    ensures SortedByKey(probs, SuggestBestSlots(probs, rows, topN))
    ensures forall t, u ::
      (t in SuggestBestSlots(probs, rows, topN) && u in multiset(FreeSlots(rows)) - multiset(SuggestBestSlots(probs, rows, topN))) ==>
      Key(probs, t) <= Key(probs, u)
  {
    var sorted := SortByKey(probs, FreeSlots(rows));
    SortSorted(probs, FreeSlots(rows));
    var r := SuggestBestSlots(probs, rows, topN);
    assert r == sorted[..|r|];
    PrefixLowest(probs, sorted, |r|);
  }

  /** With the default `top_n` of 3, at most three slots are suggested. */
  lemma DefaultAtMostThree(probs: map<string, real>, rows: seq<SlotRow>)
    ensures |SuggestBestSlots(probs, rows, DefaultTopN)| <= 3
  {
  }

  /** The rows after `book_slot(t)`: every row with time `t` occupied, the others as they were. */
  function MarkBooked(rows: seq<SlotRow>, t: string): (r: seq<SlotRow>)
    ensures |r| == |rows|
    ensures forall i :: 0 <= i < |rows| ==> r[i].time == rows[i].time
    ensures forall i :: 0 <= i < |rows| ==> r[i].occupied == if rows[i].time == t then 1 else rows[i].occupied
  {
    seq(|rows|, i requires 0 <= i < |rows| => if rows[i].time == t then rows[i].(occupied := 1) else rows[i])
  }

  /** Once a slot is booked it is never suggested again, whatever the probabilities. */
  lemma BookedNeverSuggested(probs: map<string, real>, rows: seq<SlotRow>, t: string, topN: int)
    ensures t !in SuggestBestSlots(probs, MarkBooked(rows, t), topN)
  {
    SuggestFree(probs, MarkBooked(rows, t), topN);
  }

  /** When every time occurs once, a row flagged `best_slot` is a free one. */
  lemma BestSlotIsFree(probs: map<string, real>, rows: seq<SlotRow>, i: nat)
    requires forall a, b :: 0 <= a < b < |rows| ==> rows[a].time != rows[b].time
    requires i < |rows| && rows[i].time in SuggestBestSlots(probs, rows, DefaultTopN)
    ensures rows[i].occupied == 0
  {
    SuggestFree(probs, rows, DefaultTopN);
  }

  /** `api_data`: one table row per slot row, in order, with the suggestions. */
  method ApiData(probs: map<string, real>, rows: seq<SlotRow>) returns (table: seq<TableRow>, best: seq<string>)
    ensures best == SuggestBestSlots(probs, rows, DefaultTopN)
    ensures |table| == |rows|
    ensures forall i :: 0 <= i < |rows| ==> table[i].time == rows[i].time && table[i].occupied == rows[i].occupied
    ensures forall i :: 0 <= i < |rows| ==> table[i].probability == if rows[i].time in probs then probs[rows[i].time] else 0.0
    ensures forall i :: 0 <= i < |rows| ==> (table[i].bestSlot <==> rows[i].time in best)
  {
    best := SuggestBestSlots(probs, rows, DefaultTopN);
    table := [];
    var idx := 0;
    while idx < |rows|
      invariant 0 <= idx <= |rows| && |table| == idx
      invariant forall i :: 0 <= i < idx ==> table[i].time == rows[i].time && table[i].occupied == rows[i].occupied
      invariant forall i :: 0 <= i < idx ==> table[i].probability == if rows[i].time in probs then probs[rows[i].time] else 0.0
      invariant forall i :: 0 <= i < idx ==> (table[i].bestSlot <==> rows[i].time in best)
    {
      var row := rows[idx];
      var probability := if row.time in probs then probs[row.time] else 0.0;
      table := table + [TableRow(row.time, row.occupied, probability, row.time in best)];
      idx := idx + 1;
    }
  }

  /** The appointments table the app loads at start and books into. */
  class SlotTable {
    var rows: array<SlotRow>

    constructor (initial: seq<SlotRow>)
      ensures rows[..] == initial && fresh(rows)
    {
      rows := new SlotRow[|initial|](i requires 0 <= i < |initial| => initial[i]);
    }

    /**
     * `book_slot`: a time present in the table marks every row with that time
     * occupied and succeeds; anything else, a missing slot included, is
     * refused with "Slot not found" and leaves the table as it was.
     */
    method BookSlot(slot: Option<string>) returns (reply: BookReply)
      modifies rows
      ensures slot.Some? && (exists i :: 0 <= i < rows.Length && old(rows[i]).time == slot.value) ==>
        reply == Success(slot.value) && rows[..] == MarkBooked(old(rows[..]), slot.value)
      ensures !(slot.Some? && exists i :: 0 <= i < rows.Length && old(rows[i]).time == slot.value) ==>
        reply == NotFound(SlotNotFound) && rows[..] == old(rows[..])
    {
      if slot.None? {
        return NotFound(SlotNotFound);
      }
      var t := slot.value;
      var found := false;
      var k := 0;
      while k < rows.Length
        invariant 0 <= k <= rows.Length
        invariant found <==> exists i :: 0 <= i < k && rows[i].time == t
        invariant rows[..] == old(rows[..])
      {
        if rows[k].time == t {
          found := true;
        }
        k := k + 1;
      }
      if !found {
        return NotFound(SlotNotFound);
      }
      ghost var before := rows[..];
      var j := 0;
      while j < rows.Length
        invariant 0 <= j <= rows.Length
        invariant forall i :: 0 <= i < j ==> rows[i] == MarkBooked(before, t)[i]
        invariant forall i :: j <= i < rows.Length ==> rows[i] == before[i]
      {
        if rows[j].time == t {
          rows[j] := rows[j].(occupied := 1);
        }
        j := j + 1;
      }
      assert rows[..] == MarkBooked(before, t);
      reply := Success(t);
    }
  }
}
