/**
 * The output file that is both the result store and the resume marker, the
 * resume filter applied to the input at start-up, and the loop that drains
 * the pool's completions into the results list and the file.
 */
module Checkpoint {
  import opened Tables
  import opened Fetchers

  /**
   * One output CSV file on disk. `header` is its first line and `rows` the
   * rows after it, as `pd.read_csv` reads them back.
   */
  class CsvFile {
    var present: bool
    var header: seq<string>
    var rows: seq<Row>

    ghost predicate Valid()
      reads this
    {
      !present ==> header == [] && rows == []
    }

    /** A path with no file behind it. */
    constructor Absent()
      ensures Valid() && !present
    {
      present, header, rows := false, [], [];
    }

    /** A file left by an earlier run. */
    constructor Holding(header: seq<string>, rows: seq<Row>)
      ensures Valid() && present && this.header == header && this.rows == rows
    {
      present, this.header, this.rows := true, header, rows;
    }

    /** `pd.DataFrame(columns=cols).to_csv(path, index=False)`: a file holding only a header. */
    method CreateHeaderOnly(cols: seq<string>)
      modifies this
      ensures Valid() && present && header == cols && rows == []
    {
      present, header, rows := true, cols, [];
    }

    /** `pd.DataFrame([row]).to_csv(path, mode='a', header=False, index=False)`. */
    method AppendRow(row: Row)
      requires Valid()
      modifies this
      ensures Valid() && present
      ensures header == old(header) && rows == old(rows) + [row]
    {
      present, rows := true, rows + [row];
    }
  }

  /** The dispatch positions 0, 1, ..., n - 1. */
  function Range(n: nat): (r: seq<nat>)
    ensures |r| == n
    ensures forall i :: 0 <= i < n ==> r[i] == i
  {
    if n == 0 then [] else Range(n - 1) + [n - 1]
  }

  /** `order` lists each of the n dispatch positions exactly once: an order `as_completed` can yield. */
  predicate IsCompletionOrder(order: seq<nat>, n: nat) {
    multiset(order) == multiset(Range(n))
  }

  /** `set(existing_results[id])`: the ids already in the output file. */
  function CheckpointIds(rows: seq<Row>, idCol: string): set<Value> {
    set r | r in rows :: Cell(r, idCol)
  }

  /**
   * `df[~df[id].isin(processed_ids)]`: the input rows whose id is not among
   * the processed ids, in input order. Rows are not de-duplicated.
   */
  function Pending(rows: seq<Row>, done: set<Value>, idCol: string): (work: seq<Row>)
    ensures forall r :: r in work <==> r in rows && Cell(r, idCol) !in done
    ensures |work| <= |rows|
  {
    if rows == [] then []
    else (if Cell(rows[0], idCol) in done then [] else [rows[0]]) + Pending(rows[1..], done, idCol)
  }

  /** The filter keeps input order: filtering a concatenation concatenates the filtered parts. */
  lemma {:induction false} PendingKeepsOrder(a: seq<Row>, b: seq<Row>, done: set<Value>, idCol: string)
    ensures Pending(a + b, done, idCol) == Pending(a, done, idCol) + Pending(b, done, idCol)
  {
    if a == [] {
      assert a + b == b;
    } else {
      assert (a + b)[0] == a[0];
      assert (a + b)[1..] == a[1..] + b;
      PendingKeepsOrder(a[1..], b, done, idCol);
    }
  }

  /** The filter neither merges nor drops duplicates: a row that passes keeps its multiplicity. */
  lemma {:induction false} PendingKeepsDuplicates(rows: seq<Row>, done: set<Value>, idCol: string, r: Row)
    ensures multiset(Pending(rows, done, idCol))[r] == if Cell(r, idCol) in done then 0 else multiset(rows)[r]
  {
    if rows != [] {
      PendingKeepsDuplicates(rows[1..], done, idCol, r);
      assert rows == [rows[0]] + rows[1..];
    }
  }

  /** With no processed ids (a fresh output file) the whole input is the work set. */
  lemma {:induction false} PendingOfNothingDone(rows: seq<Row>, idCol: string)
    ensures Pending(rows, {}, idCol) == rows
  {
    if rows != [] {
      PendingOfNothingDone(rows[1..], idCol);
      assert rows == [rows[0]] + rows[1..];
    }
  }

  /** When every input id is already processed the work set is empty. */
  lemma {:induction false} PendingOfAllDone(rows: seq<Row>, done: set<Value>, idCol: string)
    requires forall r | r in rows :: Cell(r, idCol) in done
    ensures Pending(rows, done, idCol) == []
  {
    if rows != [] {
      PendingOfAllDone(rows[1..], done, idCol);
    }
  }

  /** The row completion at position k adds: its row if its future returned, nothing if it raised. */
  function Emitted(futures: seq<Completion<Row>>, k: nat): seq<Row> {
    if k < |futures| && futures[k].Returned? then [futures[k].value] else []
  }

  /** The rows appended, in completion order, when the completions arrive in `order`. */
  function Appended(order: seq<nat>, futures: seq<Completion<Row>>): seq<Row> {
    if order == [] then []
    else Appended(order[..|order| - 1], futures) + Emitted(futures, order[|order| - 1])
  }

  /** How many of the completions in `order` raised. */
  function RaisedCount(order: seq<nat>, futures: seq<Completion<Row>>): nat {
    if order == [] then 0
    else RaisedCount(order[..|order| - 1], futures)
         + (if order[|order| - 1] < |futures| && futures[order[|order| - 1]].Raised? then 1 else 0)
  }

  /**
   * `order` lists distinct dispatch positions below n: the completions seen
   * so far of an order `as_completed` can yield.
   */
  predicate IsPartialCompletionOrder(order: seq<nat>, n: nat) {
    multiset(order) <= multiset(Range(n))
  }

  /** How many of n completions are processed when the process is killed after `killAfter` of them. */
  function CompletedBeforeKill(killAfter: Option<nat>, n: nat): (m: nat)
    ensures m <= n
    ensures killAfter.None? ==> m == n
  {
    if killAfter.Some? && killAfter.value < n then killAfter.value else n
  }

  /**
   * The drain loop of search_batch_initial and search_batch_details. The pool
   * completes the submitted futures in an order the loop does not choose; for
   * each completion a returned row is appended to the results and to the
   * file at once, a raised one appends nothing, and the progress bar moves by
   * one either way. `killAfter` is the point at which the process is killed
   * (None: it runs to the end); the file then holds every completion
   * processed before the kill.
   */
  method Drain(file: CsvFile, seed: seq<Row>, futures: seq<Completion<Row>>, killAfter: Option<nat>)
    returns (results: seq<Row>, progress: nat, order: seq<nat>)
    requires file.Valid() && file.present && file.rows == seed
    modifies file
    ensures file.Valid() && file.present && file.header == old(file.header)
    ensures IsPartialCompletionOrder(order, |futures|)
    ensures |order| == CompletedBeforeKill(killAfter, |futures|)
    ensures |order| == |futures| ==> IsCompletionOrder(order, |futures|)
    ensures results == seed + Appended(order, futures)
    ensures file.rows == results
    ensures progress == |order|
  {
    results, progress, order := seed, 0, [];
    var pending := Range(|futures|);
    ghost var dispatched := multiset(pending);
    while pending != [] && (killAfter.None? || |order| < killAfter.value)
      invariant multiset(order) + multiset(pending) == dispatched
      invariant |order| + |pending| == |futures|
      invariant killAfter.Some? ==> |order| <= killAfter.value
      invariant results == seed + Appended(order, futures)
      invariant file.Valid() && file.present && file.header == old(file.header) && file.rows == results
      invariant progress == |order|
      decreases |pending|
    {
      var j :| 0 <= j < |pending|;
      var k := pending[j];
      MoveOne(order, pending, j);
      AppendedSnoc(order, k, futures);
      pending := pending[..j] + pending[j + 1..];
      order := order + [k];
      if k < |futures| && futures[k].Returned? {
        var row := futures[k].value;
        results := results + [row];
        file.AppendRow(row);
      }
      progress := progress + 1;
    }
  }

  /** Moving the pending completion at position j to the end of `order` keeps the dispatched multiset. */
  lemma MoveOne(order: seq<nat>, pending: seq<nat>, j: nat)
    requires j < |pending|
    ensures multiset(order + [pending[j]]) + multiset(pending[..j] + pending[j + 1..])
         == multiset(order) + multiset(pending)
  {
    RemoveOne(pending, j);
  }

  /** Taking the element at position j out of a sequence takes one copy of it out of its multiset. */
  lemma RemoveOne(s: seq<nat>, j: nat)
    requires j < |s|
    ensures multiset(s) == multiset(s[..j] + s[j + 1..]) + multiset{s[j]}
  {
    assert s == s[..j] + [s[j]] + s[j + 1..];
  }

  /** One more completion appends what that completion emits. */
  lemma AppendedSnoc(order: seq<nat>, k: nat, futures: seq<Completion<Row>>)
    ensures Appended(order + [k], futures) == Appended(order, futures) + Emitted(futures, k)
  {
    assert (order + [k])[..|order|] == order;
  }

  /** Every processed completion counts once: appended rows plus raised completions make the progress count. */
  lemma {:induction false} AppendedPlusRaised(order: seq<nat>, futures: seq<Completion<Row>>)
    requires forall i :: 0 <= i < |order| ==> order[i] < |futures|
    ensures |Appended(order, futures)| + RaisedCount(order, futures) == |order|
  {
    if order != [] {
      AppendedPlusRaised(order[..|order| - 1], futures);
    }
  }

  /** Appending distributes over splitting the completion order. */
  lemma {:induction false} AppendedSplits(a: seq<nat>, b: seq<nat>, futures: seq<Completion<Row>>)
    ensures Appended(a + b, futures) == Appended(a, futures) + Appended(b, futures)
    decreases |b|
  {
    if b == [] {
      assert a + b == a;
    } else {
      var b' := b[..|b| - 1];
      assert (a + b)[..|a + b| - 1] == a + b';
      AppendedSplits(a, b', futures);
    }
  }

  /** A single completion appends what it emits. */
  lemma AppendedSingle(x: nat, futures: seq<Completion<Row>>)
    ensures Appended([x], futures) == Emitted(futures, x)
  {
    assert [x][..0] == [];
  }

  /** The first completion's rows come first. */
  lemma AppendedFront(o: seq<nat>, futures: seq<Completion<Row>>)
    requires o != []
    ensures Appended(o, futures) == Emitted(futures, o[0]) + Appended(o[1..], futures)
  {
    assert o == [o[0]] + o[1..];
    AppendedSplits([o[0]], o[1..], futures);
    AppendedSingle(o[0], futures);
  }

  /** Up to multiset, the completion at position i can be moved to the front. */
  lemma AppendedMoveToFront(o: seq<nat>, i: nat, futures: seq<Completion<Row>>)
    requires i < |o|
    ensures multiset(Appended(o, futures))
         == multiset(Emitted(futures, o[i])) + multiset(Appended(o[..i] + o[i + 1..], futures))
  {
    assert o == o[..i] + [o[i]] + o[i + 1..];
    AppendedSplits(o[..i] + [o[i]], o[i + 1..], futures);
    AppendedSplits(o[..i], [o[i]], futures);
    AppendedSplits(o[..i], o[i + 1..], futures);
    AppendedSingle(o[i], futures);
  }

  /** Removing the first element of o1 and a matching element of o2 keeps the multisets equal. */
  lemma SameAfterRemoval(o1: seq<nat>, o2: seq<nat>, i: nat)
    requires o1 != [] && i < |o2| && o2[i] == o1[0]
    requires multiset(o1) == multiset(o2)
    ensures multiset(o1[1..]) == multiset(o2[..i] + o2[i + 1..])
  {
    RemoveOne(o2, i);
    assert o1 == [o1[0]] + o1[1..];
    assert multiset(o1) == multiset{o1[0]} + multiset(o1[1..]);
    var m1, m2 := multiset(o1[1..]), multiset(o2[..i] + o2[i + 1..]);
    assert m1 + multiset{o1[0]} == m2 + multiset{o1[0]};
    assert forall y :: m1[y] == (m1 + multiset{o1[0]})[y] - (if y == o1[0] then 1 else 0);
    assert forall y :: m2[y] == (m2 + multiset{o1[0]})[y] - (if y == o1[0] then 1 else 0);
  }

  /**
   * The rows appended do not depend on the completion order beyond its
   * multiset: any two orders of the same positions append the same rows,
   * each as often.
   */
  lemma {:induction false} AppendedOrderIrrelevant(o1: seq<nat>, o2: seq<nat>, futures: seq<Completion<Row>>)
    requires multiset(o1) == multiset(o2)
    ensures multiset(Appended(o1, futures)) == multiset(Appended(o2, futures))
    decreases |o1|
  {
    if o1 == [] {
      assert |o2| == |multiset(o2)| == 0;
    } else {
      var x := o1[0];
      assert x in multiset(o2);
      var i :| 0 <= i < |o2| && o2[i] == x;
      SameAfterRemoval(o1, o2, i);
      AppendedOrderIrrelevant(o1[1..], o2[..i] + o2[i + 1..], futures);
      AppendedFront(o1, futures);
      AppendedMoveToFront(o2, i, futures);
    }
  }

  /** When no completion raises, the i-th appended row is the row of the i-th completion. */
  lemma {:induction false} AppendedWithoutRaises(order: seq<nat>, futures: seq<Completion<Row>>)
    requires forall i :: 0 <= i < |order| ==> order[i] < |futures| && futures[order[i]].Returned?
    ensures |Appended(order, futures)| == |order|
    ensures forall i :: 0 <= i < |order| ==> Appended(order, futures)[i] == futures[order[i]].value
  {
    if order != [] {
      var init, last := order[..|order| - 1], order[|order| - 1];
      AppendedWithoutRaises(init, futures);
      assert Appended(order, futures) == Appended(init, futures) + [futures[last].value];
      forall i | 0 <= i < |order|
        ensures Appended(order, futures)[i] == futures[order[i]].value
      {
        if i < |init| {
          assert init[i] == order[i];
        }
      }
    }
  }

  /**
   * When no future raised, whatever order the completions arrive in, the
   * rows appended are exactly the futures' rows, each once.
   */
  lemma CleanRunAppendsEveryFuture(order: seq<nat>, futures: seq<Completion<Row>>)
    requires IsCompletionOrder(order, |futures|)
    requires forall k :: 0 <= k < |futures| ==> futures[k].Returned?
    ensures multiset(Appended(order, futures))
         == multiset(seq(|futures|, k requires 0 <= k < |futures| => futures[k].value))
  {
    AppendedInDispatchOrder(futures);
    AppendedOrderIrrelevant(order, Range(|futures|), futures);
  }

  /** Taken in dispatch order, the completions of a clean run append the futures' rows in that order. */
  lemma AppendedInDispatchOrder(futures: seq<Completion<Row>>)
    requires forall k :: 0 <= k < |futures| ==> futures[k].Returned?
    ensures Appended(Range(|futures|), futures)
         == seq(|futures|, k requires 0 <= k < |futures| => futures[k].value)
  {
    var dispatchOrder := Range(|futures|);
    assert forall i :: 0 <= i < |dispatchOrder| ==> dispatchOrder[i] < |futures| && futures[dispatchOrder[i]].Returned?;
    AppendedWithoutRaises(dispatchOrder, futures);
  }

  /** The ids of a concatenation are the ids of its parts. */
  lemma CheckpointIdsSplit(a: seq<Row>, b: seq<Row>, idCol: string)
    ensures CheckpointIds(a + b, idCol) == CheckpointIds(a, idCol) + CheckpointIds(b, idCol)
  {
    assert forall r :: r in a + b <==> r in a || r in b;
  }

  /** The ids of the appended rows: one per completion in `order` whose future returned. */
  lemma {:induction false} AppendedIds(order: seq<nat>, futures: seq<Completion<Row>>, idCol: string)
    ensures CheckpointIds(Appended(order, futures), idCol)
         == set k | k in order && k < |futures| && futures[k].Returned? :: Cell(futures[k].value, idCol)
  {
    if order == [] {
    } else {
      var init := order[..|order| - 1];
      var k := order[|order| - 1];
      AppendedIds(init, futures, idCol);
      CheckpointIdsSplit(Appended(init, futures), Emitted(futures, k), idCol);
      assert order == init + [k];
      assert forall j :: j in order <==> j in init || j == k;
    }
  }

  /** A completion order holds exactly the dispatch positions below n. */
  lemma CompletionOrderMembers(order: seq<nat>, n: nat, k: nat)
    requires IsCompletionOrder(order, n)
    ensures k in order <==> k < n
  {
    assert k in order <==> k in multiset(order);
    assert k < n ==> Range(n)[k] == k;
    assert k in Range(n) <==> k in multiset(Range(n));
  }

  /** Each future completes with its item's id or raises, as both fetchers guarantee. */
  predicate KeepsIds(work: seq<Row>, futures: seq<Completion<Row>>, idCol: string) {
    && |futures| == |work|
    && forall k :: 0 <= k < |futures| && futures[k].Returned? ==> Cell(futures[k].value, idCol) == Cell(work[k], idCol)
  }

  /**
   * After a run, the output file holds the ids it held before plus the id of
   * every dispatched item whose future returned (a failed lookup included),
   * and no other.
   */
  lemma RunCheckpointIds(seed: seq<Row>, work: seq<Row>, futures: seq<Completion<Row>>, order: seq<nat>, idCol: string)
    requires KeepsIds(work, futures, idCol)
    requires IsCompletionOrder(order, |futures|)
    ensures CheckpointIds(seed + Appended(order, futures), idCol)
         == CheckpointIds(seed, idCol) + set k | 0 <= k < |work| && futures[k].Returned? :: Cell(work[k], idCol)
  {
    CheckpointIdsSplit(seed, Appended(order, futures), idCol);
    AppendedIds(order, futures, idCol);
    forall k: nat
      ensures k in order && k < |futures| <==> k < |work|
    {
      CompletionOrderMembers(order, |futures|, k);
    }
  }

  /**
   * Resuming is idempotent: when no future raised, a second run over the same
   * input finds every id in the output file and dispatches nothing.
   */
  lemma CleanRunLeavesNothingPending(input: seq<Row>, seed: seq<Row>, futures: seq<Completion<Row>>,
                                     order: seq<nat>, idCol: string)
    requires KeepsIds(Pending(input, CheckpointIds(seed, idCol), idCol), futures, idCol)
    requires IsCompletionOrder(order, |futures|)
    requires forall k :: 0 <= k < |futures| ==> futures[k].Returned?
    ensures Pending(input, CheckpointIds(seed + Appended(order, futures), idCol), idCol) == []
  {
    var work := Pending(input, CheckpointIds(seed, idCol), idCol);
    var after := CheckpointIds(seed + Appended(order, futures), idCol);
    RunCheckpointIds(seed, work, futures, order, idCol);
    forall r | r in input
      ensures Cell(r, idCol) in after
    {
      if Cell(r, idCol) !in CheckpointIds(seed, idCol) {
        assert r in work;
        var k :| 0 <= k < |work| && work[k] == r;
        assert Cell(work[k], idCol) in after;
      }
    }
    PendingOfAllDone(input, after, idCol);
  }

  /**
   * A dispatched item whose futures all raised is not recorded: the next run
   * dispatches it again.
   */
  lemma RaisedItemIsRetried(input: seq<Row>, seed: seq<Row>, futures: seq<Completion<Row>>,
                            order: seq<nat>, idCol: string, k: nat)
    requires KeepsIds(Pending(input, CheckpointIds(seed, idCol), idCol), futures, idCol)
    requires IsCompletionOrder(order, |futures|)
    requires k < |futures|
    requires forall j :: 0 <= j < |futures| && Cell(Pending(input, CheckpointIds(seed, idCol), idCol)[j], idCol)
                                                == Cell(Pending(input, CheckpointIds(seed, idCol), idCol)[k], idCol)
                         ==> futures[j].Raised?
    ensures Pending(input, CheckpointIds(seed, idCol), idCol)[k]
            in Pending(input, CheckpointIds(seed + Appended(order, futures), idCol), idCol)
  {
    var work := Pending(input, CheckpointIds(seed, idCol), idCol);
    RunCheckpointIds(seed, work, futures, order, idCol);
    assert work[k] in work;
  }

  /**
   * A run killed part-way resumes from what it wrote: the next run's work set
   * is the input rows whose id is neither in the earlier checkpoint nor the
   * id of a completion that returned before the kill.
   */
  lemma InterruptedRunResumes(input: seq<Row>, seed: seq<Row>, futures: seq<Completion<Row>>,
                              order: seq<nat>, idCol: string)
    requires KeepsIds(Pending(input, CheckpointIds(seed, idCol), idCol), futures, idCol)
    requires IsPartialCompletionOrder(order, |futures|)
    ensures
      var work := Pending(input, CheckpointIds(seed, idCol), idCol);
      var recorded := set k | k in order && k < |work| && futures[k].Returned? :: Cell(work[k], idCol);
      forall r :: r in Pending(input, CheckpointIds(seed + Appended(order, futures), idCol), idCol) <==>
                  r in input && Cell(r, idCol) !in CheckpointIds(seed, idCol) && Cell(r, idCol) !in recorded
  {
    var work := Pending(input, CheckpointIds(seed, idCol), idCol);
    CheckpointIdsSplit(seed, Appended(order, futures), idCol);
    AppendedIds(order, futures, idCol);
  }

  /**
   * Appending rows that hold exactly the header's columns keeps the file a
   * well-formed table under that header.
   */
  lemma {:induction false} AppendedKeepsShape(order: seq<nat>, futures: seq<Completion<Row>>, header: seq<string>)
    requires forall k :: 0 <= k < |futures| && futures[k].Returned? ==> futures[k].value.Keys == ColumnSet(header)
    ensures WellFormed(Table(header, Appended(order, futures)))
  {
    if order != [] {
      AppendedKeepsShape(order[..|order| - 1], futures, header);
    }
  }
}
