/**
 * Table rows, their non-destructive extension with registry columns, and
 * the order-preserving map-and-concatenate step that merges the per-row
 * results of a batch.
 */
module Rows {

  /** One table row: column name to cell text. */
  type Row = map<string, string>

  /** The marker written into every registry column of a failed lookup. */
  const Sentinel: string := "#N/V"

  /** `row.get(key, "")`. */
  function Get(row: Row, key: string): string {
    if key in row then row[key] else ""
  }

  /**
   * `out` is `input` with the columns `appended` added or overwritten:
   * it has exactly the input's columns plus the appended ones, and every
   * other column keeps the input's value.
   */
  predicate Extends(out: Row, input: Row, appended: set<string>) {
    && out.Keys == input.Keys + appended
    && forall k :: k in input && k !in appended ==> out[k] == input[k]
  }

  /** Every column in `keys` is present in `out` and holds the sentinel. */
  predicate AllSentinel(out: Row, keys: set<string>) {
    forall k :: k in keys ==> k in out && out[k] == Sentinel
  }

  /** `dict(row, **fields)`: the new fields win over same-named input columns. */
  function Extend(row: Row, fields: map<string, string>): (out: Row)
    ensures Extends(out, row, fields.Keys)
    ensures forall k :: k in fields ==> out[k] == fields[k]
  {
    row + fields
  }

  /** The appended fields of a failed lookup: every key set to the sentinel. */
  function SentinelFields(keys: set<string>): (fields: map<string, string>)
    ensures fields.Keys == keys
    ensures forall k :: k in keys ==> fields[k] == Sentinel
  {
    map k | k in keys :: Sentinel
  }

  /**
   * `[item for sublist in executor.map(f, xs) for item in sublist]`:
   * `executor.map` hands back the results in input order, so the batch is
   * a sequential map followed by concatenation.
   */
  function ConcatMap<T, U>(xs: seq<T>, f: T -> seq<U>): seq<U> {
    if xs == [] then [] else f(xs[0]) + ConcatMap(xs[1..], f)
  }

  lemma {:induction false} ConcatMapAppend<T, U>(xs: seq<T>, ys: seq<T>, f: T -> seq<U>)
    ensures ConcatMap(xs + ys, f) == ConcatMap(xs, f) + ConcatMap(ys, f)
  {
    if xs == [] {
      assert xs + ys == ys;
    } else {
      assert (xs + ys)[0] == xs[0];
      assert (xs + ys)[1..] == xs[1..] + ys;
      ConcatMapAppend(xs[1..], ys, f);
    }
  }

  /**
   * Contiguity and order: the results of input `i` appear as one block,
   * after those of every earlier input and before those of every later one.
   */
  lemma {:induction false} ConcatMapBlock<T, U>(xs: seq<T>, i: nat, f: T -> seq<U>)
    requires i < |xs|
    ensures ConcatMap(xs, f) == ConcatMap(xs[..i], f) + f(xs[i]) + ConcatMap(xs[i + 1..], f)
  {
    var rest := [xs[i]] + xs[i + 1..];
    assert xs == xs[..i] + rest;
    ConcatMapAppend(xs[..i], rest, f);
    assert rest[0] == xs[i] && rest[1..] == xs[i + 1..];
    assert ConcatMap(rest, f) == f(xs[i]) + ConcatMap(xs[i + 1..], f);
  }

  /** When every input yields at least one result, there are at least as many results as inputs. */
  lemma {:induction false} ConcatMapAtLeast<T, U>(xs: seq<T>, f: T -> seq<U>)
    requires forall x :: x in xs ==> |f(x)| >= 1
    ensures |ConcatMap(xs, f)| >= |xs|
  {
    if xs != [] {
      ConcatMapAtLeast(xs[1..], f);
    }
  }

  /** When every input yields exactly one result, result `i` is the one of input `i`. */
  lemma {:induction false} ConcatMapSingletons<T, U>(xs: seq<T>, f: T -> seq<U>)
    requires forall x :: x in xs ==> |f(x)| == 1
    ensures |ConcatMap(xs, f)| == |xs|
    ensures forall i :: 0 <= i < |xs| ==> ConcatMap(xs, f)[i] == f(xs[i])[0]
  {
    if xs != [] {
      ConcatMapSingletons(xs[1..], f);
      assert forall i :: 1 <= i < |xs| ==> xs[i] == xs[1..][i - 1];
    }
  }

  /**
   * Membership, both ways: every result comes from the result list of some
   * input, and every item of every input's result list is in the result.
   */
  lemma {:induction false} ConcatMapMembers<T, U>(xs: seq<T>, f: T -> seq<U>)
    ensures forall j :: 0 <= j < |ConcatMap(xs, f)| ==>
      exists i :: 0 <= i < |xs| && ConcatMap(xs, f)[j] in f(xs[i])
    ensures forall i, k :: 0 <= i < |xs| && 0 <= k < |f(xs[i])| ==> f(xs[i])[k] in ConcatMap(xs, f)
  {
    if xs == [] {
      assert ConcatMap(xs, f) == [];
    } else {
      var r := ConcatMap(xs, f);
      var rest := ConcatMap(xs[1..], f);
      ConcatMapMembers(xs[1..], f);
      assert r == f(xs[0]) + rest;
      forall j | 0 <= j < |r|
        ensures exists i :: 0 <= i < |xs| && r[j] in f(xs[i])
      {
        if j < |f(xs[0])| {
          assert r[j] in f(xs[0]);
        } else {
          assert r[j] == rest[j - |f(xs[0])|];
          var i :| 0 <= i < |xs[1..]| && rest[j - |f(xs[0])|] in f(xs[1..][i]);
          assert r[j] in f(xs[i + 1]);
        }
      }
      forall i, k | 0 <= i < |xs| && 0 <= k < |f(xs[i])|
        ensures f(xs[i])[k] in r
      {
        if i > 0 {
          assert xs[i] == xs[1..][i - 1];
          assert f(xs[i])[k] in rest;
        }
      }
    }
  }
}
