/**
 * `ClearAccumulatedJob<T>`: a parallel-for whose `Execute(index)` writes
 * `default(T)` to one index of its buffer.  Run over every index it leaves
 * an all-zero buffer, whatever the buffer held before.
 */
module ClearJob {

  /** `Execute(index)`: `Buffer[index] = default`; no other index changes. */
  method Execute<T>(buffer: array<T>, index: nat, zero: T)
    requires index < buffer.Length
    modifies buffer
    ensures buffer[index] == zero
    ensures forall k :: 0 <= k < buffer.Length && k != index ==> buffer[k] == old(buffer[k])
  {
    buffer[index] := zero;
  }

  /** The contents after `Execute(0) .. Execute(n - 1)`, one index at a time. */
  function Cleared<T>(contents: seq<T>, n: nat, zero: T): (r: seq<T>)
    requires n <= |contents|
    ensures |r| == |contents|
  {
    if n == 0 then contents else Cleared(contents, n - 1, zero)[n - 1 := zero]
  }

  /** Clearing the first `n` indices zeroes exactly those and keeps the rest. */
  lemma {:induction false} ClearedPrefix<T>(contents: seq<T>, n: nat, zero: T)
    requires n <= |contents|
    ensures forall k :: 0 <= k < n ==> Cleared(contents, n, zero)[k] == zero
    ensures forall k :: n <= k < |contents| ==> Cleared(contents, n, zero)[k] == contents[k]
  {
    if n > 0 {
      ClearedPrefix(contents, n - 1, zero);
    }
  }

  /** Running over every index gives the all-zero buffer. */
  lemma ClearedAll<T>(contents: seq<T>, zero: T)
    ensures Cleared(contents, |contents|, zero) == seq(|contents|, _ => zero)
  {
    ClearedPrefix(contents, |contents|, zero);
  }

  /** Clearing is idempotent: clearing a cleared buffer changes nothing. */
  lemma ClearIdempotent<T>(contents: seq<T>, zero: T)
    ensures var once := Cleared(contents, |contents|, zero);
      Cleared(once, |once|, zero) == once
  {
    ClearedAll(contents, zero);
    ClearedAll(Cleared(contents, |contents|, zero), zero);
  }

  /** `clearJob.Schedule(Buffer.Length, ...)` run to completion: every index gets `default`. */
  method ClearAll<T>(buffer: array<T>, zero: T)
    modifies buffer
    ensures buffer[..] == Cleared(old(buffer[..]), buffer.Length, zero)
    ensures buffer[..] == seq(buffer.Length, _ => zero)
  {
    ghost var before := buffer[..];
    var i := 0;
    while i < buffer.Length
      invariant 0 <= i <= buffer.Length
      invariant buffer[..] == Cleared(before, i, zero)
    {
      Execute(buffer, i, zero);
      i := i + 1;
    }
    ClearedAll(before, zero);
  }
}
