/**
 * The credential rotator: `get_cookie_index` and the process-wide cursor it advances.
 * The lock around the cursor is not modelled; calls are taken to happen one after another.
 */
module Rotation {

  /** Whether a call takes the round-robin path instead of honouring the 1-based `cookieIndex`. */
  predicate Rotates(length: int, cookieIndex: int) {
    cookieIndex == 0 || cookieIndex > length
  }

  /**
   * The index one call returns, paired with the cursor it leaves behind. A rotating call
   * returns a valid position and leaves its successor, modulo `length`, as the cursor; an
   * explicit index never moves the cursor, and is below `length` but may be negative.
   */
  function Select(cursor: nat, length: int, cookieIndex: int): (r: (int, nat))
    requires length > 0
    ensures Rotates(length, cookieIndex) ==>
      0 <= r.0 < length && r.0 == cursor % length && r.1 < length && r.1 == (r.0 + 1) % length
    ensures !Rotates(length, cookieIndex) ==> r.0 == cookieIndex - 1 < length && r.1 == cursor
  {
    if Rotates(length, cookieIndex) then
      ModAddLeft(cursor, 1, length);
      (cursor % length, (cursor + 1) % length)
    else (cookieIndex - 1, cursor)
  }

  /** The process-wide cursor `next_cookie_index["index"]`, shared by every pool it selects from. */
  class CookieRotator {
    var cursor: nat

    constructor ()
      ensures cursor == 0
    {
      cursor := 0;
    }

    /**
     * `get_cookie_index(length, cookie_index)`. A negative `cookieIndex` is not in the rotating
     * branch, so it comes back as `cookieIndex - 1`, a negative list index.
     */
    method GetCookieIndex(length: int, cookieIndex: int) returns (index: int)
      requires length > 0
      modifies this
      ensures (index, cursor) == Select(old(cursor), length, cookieIndex)
      ensures Rotates(length, cookieIndex) ==>
        index == old(cursor) % length && 0 <= index < length && cursor == (old(cursor) + 1) % length
      ensures !Rotates(length, cookieIndex) ==> index == cookieIndex - 1 && cursor == old(cursor)
    {
      if cookieIndex == 0 || cookieIndex > length {
        var current := cursor;
        cursor := (cursor + 1) % length;
        return current % length;
      }
      return cookieIndex - 1;
    }
  }

  /** An explicit index in `[1, length]` selects that credential and leaves the cursor alone. */
  lemma ExplicitIndexHonoured(cursor: nat, length: int, cookieIndex: int)
    requires 1 <= cookieIndex <= length
    ensures Select(cursor, length, cookieIndex) == (cookieIndex - 1, cursor)
    ensures 0 <= cookieIndex - 1 < length
  {
  }

  /** The indices returned by serial calls with a fixed `length` and the given `cookieIndex` values. */
  function Serial(cursor: nat, length: int, indices: seq<int>): seq<int>
    requires length > 0
    decreases indices
  {
    if indices == [] then []
    else
      var (i, next) := Select(cursor, length, indices[0]);
      [i] + Serial(next, length, indices[1..])
  }

  /** The cursor left behind by those calls. */
  function CursorAfter(cursor: nat, length: int, indices: seq<int>): nat
    requires length > 0
    decreases indices
  {
    if indices == [] then cursor
    else CursorAfter(Select(cursor, length, indices[0]).1, length, indices[1..])
  }

  /** How many of the calls take the round-robin path. */
  function RotatingCount(length: int, indices: seq<int>): nat {
    if indices == [] then 0
    else (if Rotates(length, indices[0]) then 1 else 0) + RotatingCount(length, indices[1..])
  }

  lemma MulAtLeast(d: int, n: int)
    requires d >= 1 && n > 0
    ensures d * n >= n
  {
  }

  /** Euclidean remainders are unique. */
  lemma ModUnique(x: int, n: int, q: int, r: int)
    requires n > 0 && 0 <= r < n && x == q * n + r
    ensures x % n == r
  {
    var q0, r0 := x / n, x % n;
    assert x == q0 * n + r0;
    assert (q - q0) * n == r0 - r;
    if q > q0 {
      MulAtLeast(q - q0, n);
    } else if q < q0 {
      MulAtLeast(q0 - q, n);
    }
  }

  lemma ModAddLeft(a: nat, b: nat, n: int)
    requires n > 0
    ensures (a % n + b) % n == (a + b) % n
  {
    var s := a % n + b;
    var q, r := s / n, s % n;
    assert s == q * n + r;
    assert a == (a / n) * n + a % n;
    assert a + b == (a / n + q) * n + r;
    ModUnique(a + b, n, a / n + q, r);
  }

  /**
   * Serial calls never skip or repeat a rotating value: the k-th rotating call returns the
   * starting cursor plus k, modulo `length`, whatever explicit calls are interleaved; explicit
   * calls return their index minus one.
   */
  lemma {:induction false} SerialRotation(cursor: nat, length: int, indices: seq<int>, k: int)
    requires length > 0 && 0 <= k < |indices|
    ensures |Serial(cursor, length, indices)| == |indices|
    ensures Rotates(length, indices[k]) ==>
      Serial(cursor, length, indices)[k] == (cursor + RotatingCount(length, indices[..k])) % length
    ensures !Rotates(length, indices[k]) ==> Serial(cursor, length, indices)[k] == indices[k] - 1
    decreases indices
  {
    var (i, next) := Select(cursor, length, indices[0]);
    if k == 0 {
      SerialLength(next, length, indices[1..]);
      assert indices[..0] == [];
    } else {
      SerialRotation(next, length, indices[1..], k - 1);
      assert indices[..k][1..] == indices[1..][..k - 1];
      assert indices[..k][0] == indices[0];
      if Rotates(length, indices[0]) {
        ModAddLeft(cursor + 1, RotatingCount(length, indices[1..][..k - 1]), length);
      }
    }
  }

  lemma {:induction false} SerialLength(cursor: nat, length: int, indices: seq<int>)
    requires length > 0
    ensures |Serial(cursor, length, indices)| == |indices|
    decreases indices
  {
    if indices != [] {
      SerialLength(Select(cursor, length, indices[0]).1, length, indices[1..]);
    }
  }

  /** After serial calls the cursor has moved on by the number of rotating calls, and no further. */
  lemma {:induction false} CursorAdvance(cursor: nat, length: int, indices: seq<int>)
    requires length > 0
    ensures CursorAfter(cursor, length, indices) ==
      if RotatingCount(length, indices) == 0 then cursor
      else (cursor + RotatingCount(length, indices)) % length
    decreases indices
  {
    if indices != [] {
      var next := Select(cursor, length, indices[0]).1;
      CursorAdvance(next, length, indices[1..]);
      if Rotates(length, indices[0]) {
        var m := RotatingCount(length, indices[1..]);
        if m > 0 {
          ModAddLeft(cursor + 1, m, length);
        } else {
          assert next == (cursor + 1) % length;
        }
      }
    }
  }

  function Zeros(k: nat): (z: seq<int>)
    ensures |z| == k && forall j :: 0 <= j < k ==> z[j] == 0
  {
    if k == 0 then [] else [0] + Zeros(k - 1)
  }

  /** k serial calls without an explicit index return k consecutive values modulo `length`. */
  lemma ConsecutiveRotation(cursor: nat, length: int, k: nat, j: int)
    requires length > 0 && 0 <= j < k
    ensures |Serial(cursor, length, Zeros(k))| == k
    ensures Serial(cursor, length, Zeros(k))[j] == (cursor + j) % length
  {
    SerialRotation(cursor, length, Zeros(k), j);
    ZerosAllRotate(length, Zeros(k)[..j]);
  }

  lemma {:induction false} ZerosAllRotate(length: int, indices: seq<int>)
    requires forall j :: 0 <= j < |indices| ==> indices[j] == 0
    ensures RotatingCount(length, indices) == |indices|
  {
    if indices != [] {
      ZerosAllRotate(length, indices[1..]);
    }
  }
}
