/** The key matrix: from raw scans, through ghost removal and debouncing, to a ring of the newest changes. */
module Keyboard {
  import opened Modular

  /** One row of the matrix, as the columns of its pressed keys: `+` is bitwise or, `*` is and, `-` is and-not. */
  type Row = set<nat>

  // ---------------------------------------------------------------- ghost keys

  /** Rows that have more than one column in common, or one column and something else besides, may be showing a
      key that is not pressed. */
  predicate Suspect(a: Row, b: Row) {
    a * b != {} && (|a * b| != 1 || a != b)
  }

  /** The suspect columns of row `i` with the rows from `i + 1` to `j - 1`. */
  function RowMix(m: seq<Row>, i: nat, j: nat): Row
    requires i < j <= |m|
    decreases j
  {
    if j == i + 1 then {} else RowMix(m, i, j - 1) + (if Suspect(m[i], m[j - 1]) then m[i] * m[j - 1] else {})
  }

  /** All suspect columns found up to and including row `i - 1`. */
  function Mix(m: seq<Row>, i: nat): Row
    requires i <= |m|
  {
    if i == 0 then {} else Mix(m, i - 1) + RowMix(m, i - 1, |m|)
  }

  function GhostFree(m: seq<Row>): (r: seq<Row>)
    ensures |r| == |m|
  {
    seq(|m|, i requires 0 <= i < |m| => m[i] - Mix(m, i + 1))
  }

  lemma {:induction false} RowMixIs(m: seq<Row>, i: nat, j: nat, c: nat)
    requires i < j <= |m|
    ensures c in RowMix(m, i, j) <==> exists k :: i < k < j && Suspect(m[i], m[k]) && c in m[i] && c in m[k]
    decreases j
  {
    if j > i + 1 {
      RowMixIs(m, i, j - 1, c);
    }
  }

  /** Column `c` is suspect in the pair of rows `i` and `k`. */
  predicate SuspectAt(m: seq<Row>, i: nat, k: nat, c: nat)
    requires i < |m| && k < |m|
  {
    Suspect(m[i], m[k]) && c in m[i] && c in m[k]
  }

  lemma {:induction false} MixIs(m: seq<Row>, n: nat, c: nat)
    requires n <= |m|
    ensures c in Mix(m, n) <==> exists i, k :: 0 <= i < n && i < k < |m| && SuspectAt(m, i, k, c)
    decreases n
  {
    if n > 0 {
      MixIs(m, n - 1, c);
      RowMixIs(m, n - 1, |m|, c);
      if k :| n - 1 < k < |m| && Suspect(m[n - 1], m[k]) && c in m[n - 1] && c in m[k] {
        assert SuspectAt(m, n - 1, k, c);
      }
      if i, k :| 0 <= i < n && i < k < |m| && SuspectAt(m, i, k, c) {
        if i < n - 1 {
          assert c in Mix(m, n - 1);
        } else {
          assert Suspect(m[n - 1], m[k]) && c in m[n - 1] && c in m[k];
        }
      }
    }
  }

  ghost predicate Alone(m: seq<Row>, c: nat) {
    forall d {:trigger m[d]} | 0 <= d < |m| && c in m[d] :: m[d] == {c}
  }

  lemma AloneIsNotSuspect(m: seq<Row>, c: nat, i: nat, k: nat)
    requires Alone(m, c) && i < |m| && k < |m|
    ensures !SuspectAt(m, i, k, c)
  {
    if c in m[i] && c in m[k] {
      assert m[i] * m[k] == {c};
    }
  }

  lemma SuspectIfNotAlone(a: Row, b: Row, c: nat)
    requires c in a && c in b
    ensures Suspect(a, b) || (a == {c} && b == {c})
  {
    assert c in a * b;
    if |a * b| == 1 && a == b {
      assert a * b == a;
      assert |a - {c}| == 0;
      assert a == {c};
    }
  }

  lemma AloneIsKept(m: seq<Row>, a: nat, c: nat)
    requires a < |m| && c in m[a] && Alone(m, c)
    ensures c in GhostFree(m)[a]
  {
    MixIs(m, a + 1, c);
    forall i, k | 0 <= i < |m| && 0 <= k < |m|
      ensures !SuspectAt(m, i, k, c)
    {
      AloneIsNotSuspect(m, c, i, k);
    }
  }

  /** After ghost removal two rows share a column exactly if, in the raw matrix, both had it and every row that
      had it had nothing else. */
  lemma SharedColumnIff(m: seq<Row>, a: nat, b: nat, c: nat)
    requires a < b < |m|
    ensures var r := GhostFree(m);
            c in r[a] && c in r[b] <==> c in m[a] && c in m[b] && Alone(m, c)
  {
    if c in m[a] && c in m[b] {
      if Alone(m, c) {
        AloneIsKept(m, a, c);
        AloneIsKept(m, b, c);
      } else {
        var d :| 0 <= d < |m| && c in m[d] && m[d] != {c};
        NotAloneIsRemoved(m, a, b, c, d);
      }
    }
  }

  lemma NotAloneIsRemoved(m: seq<Row>, a: nat, b: nat, c: nat, d: nat)
    requires a < |m| && b < |m| && a != b && d < |m| && c in m[a] && c in m[b] && c in m[d] && m[d] != {c}
    ensures c !in GhostFree(m)[a]
  {
    MixIs(m, a + 1, c);
    var other := if d == a then b else d;
    SuspectIfNotAlone(m[a], m[other], c);
    SuspectIfNotAlone(m[other], m[a], c);
    assert SuspectAt(m, if a < other then a else other, if a < other then other else a, c);
  }

  /** Two rows that hold the same one key and nothing else both lose it if a third row has it with another key. */
  lemma ThirdRowTakesItAway()
    ensures var m: seq<Row> := [{0}, {0}, {0, 1}];
            m[0] == m[1] == {0} && 0 !in GhostFree(m)[0] && 0 !in GhostFree(m)[1]
  {
    var m: seq<Row> := [{0}, {0}, {0, 1}];
    assert 1 in m[2];
    NotAloneIsRemoved(m, 0, 1, 0, 2);
    NotAloneIsRemoved(m, 1, 2, 0, 2);
  }

  /** A row keeps exactly the columns that no other row has, and those that every row that has them has alone. */
  lemma KeptIff(m: seq<Row>, a: nat, c: nat)
    requires a < |m|
    ensures c in GhostFree(m)[a] <==>
            c in m[a] && (Alone(m, c) || forall d {:trigger m[d]} | 0 <= d < |m| && d != a :: c !in m[d])
  {
    if c in m[a] {
      if Alone(m, c) {
        AloneIsKept(m, a, c);
      } else if forall d {:trigger m[d]} | 0 <= d < |m| && d != a :: c !in m[d] {
        UnsharedColumnStays(m, a, c);
      } else {
        var b :| 0 <= b < |m| && b != a && c in m[b];
        var d :| 0 <= d < |m| && c in m[d] && m[d] != {c};
        NotAloneIsRemoved(m, a, b, c, d);
      }
    }
  }

  /** A column that no two rows share stays as it is. */
  lemma UnsharedColumnStays(m: seq<Row>, a: nat, c: nat)
    requires a < |m| && forall d {:trigger m[d]} | 0 <= d < |m| && d != a :: c !in m[d]
    ensures c in GhostFree(m)[a] <==> c in m[a]
  {
    MixIs(m, a + 1, c);
  }

  lemma OneMoreRow(m: seq<Row>, i: nat)
    requires i < |m|
    ensures Mix(m, i + 1) == Mix(m, i) + RowMix(m, i, |m|) && GhostFree(m)[i] == m[i] - Mix(m, i + 1)
  {
  }

  /** The inner loop of kb_rmv_ghost_key; `m` is the matrix as it was scanned. */
  method CollectMix(matrix: array<Row>, i: nat, mixFinal: Row, ghost m: seq<Row>) returns (r: Row)
    requires i < matrix.Length == |m| && forall k | i <= k < |m| :: matrix[k] == m[k]
    ensures r == mixFinal + RowMix(m, i, |m|)
  {
    r := mixFinal;
    for j := i + 1 to matrix.Length
      invariant r == mixFinal + RowMix(m, i, j)
    {
      var mix := matrix[i] * matrix[j];
      if mix != {} && (|mix| != 1 || matrix[i] != matrix[j]) {
        r := r + mix;
      }
    }
  }

  /** kb_rmv_ghost_key */
  method RemoveGhostKeys(matrix: array<Row>)
    modifies matrix
    ensures matrix[..] == GhostFree(old(matrix[..]))
  {
    ghost var m := matrix[..];
    ghost var free := GhostFree(m);
    var mixFinal: Row := {};
    for i := 0 to matrix.Length
      invariant mixFinal == Mix(m, i)
      invariant forall k | 0 <= k < i :: matrix[k] == free[k]
      invariant forall k | i <= k < matrix.Length :: matrix[k] == m[k]
    {
      OneMoreRow(m, i);
      mixFinal := CollectMix(matrix, i, mixFinal, m);
      matrix[i] := matrix[i] - mixFinal;
    }
    assert matrix[..] == free;
  }

  // ---------------------------------------------------------------- debouncing

  /** The filter of key_debounce_filter for one row: the last output, the scan before, and this scan. */
  function Vote(last: Row, pre: Row, raw: Row): Row {
    ((pre * raw) - last) + (last * (pre + raw))
  }

  /** The output after the scans `raws`, of which the filter saw `pre` before. */
  function Debounced(last: Row, pre: Row, raws: seq<Row>): Row {
    if raws == [] then last
    else Vote(Debounced(last, pre, raws[..|raws| - 1]), Previous(pre, raws), raws[|raws| - 1])
  }

  /** The scan before the last one. */
  function Previous(pre: Row, raws: seq<Row>): Row
    requires raws != []
  {
    if |raws| > 1 then raws[|raws| - 2] else pre
  }

  /** What the most recent two successive scans that agreed about key `c` said of it. */
  predicate LastAgreed(last: Row, pre: Row, raws: seq<Row>, c: nat)
    decreases |raws|
  {
    if raws == [] then c in last
    else if c in Previous(pre, raws) <==> c in raws[|raws| - 1] then c in raws[|raws| - 1]
    else LastAgreed(last, pre, raws[..|raws| - 1], c)
  }

  /** Through any run of scans, the output shows for every key what the most recent two equal scans in a row
      said of it; a change that lasts one scan never shows. */
  lemma {:induction false} DebouncedIsLastAgreed(last: Row, pre: Row, raws: seq<Row>, c: nat)
    ensures c in Debounced(last, pre, raws) <==> LastAgreed(last, pre, raws, c)
    decreases |raws|
  {
    if raws != [] {
      DebouncedIsLastAgreed(last, pre, raws[..|raws| - 1], c);
    }
  }

  function Votes(last: seq<Row>, pre: seq<Row>, raw: seq<Row>): (r: seq<Row>)
    requires |last| == |pre| == |raw|
    ensures |r| == |raw|
  {
    seq(|raw|, i requires 0 <= i < |raw| => Vote(last[i], pre[i], raw[i]))
  }

  // ---------------------------------------------------------------- the ring of four

  const SLOTS: nat := 4

  /** Where the unread part starts after a push that makes `n` matrices in all. */
  function Oldest(next: nat, n: nat): nat {
    if n > next + SLOTS then n - SLOTS else next
  }

  /** The matrix number `i` is in this slot, and this is a pointer to it. */
  function Slot(i: nat): (r: nat)
    ensures r < SLOTS
  {
    i % 4
  }

  function Pointer(i: nat): nat {
    i % 8
  }

  /** The newest of `u`, as many as there are slots. */
  function Newest<T>(u: seq<T>): seq<T> {
    if |u| > SLOTS then u[|u| - SLOTS..] else u
  }

  /** Giving up the oldest at each push that finds the ring full leaves the newest of everything that was pushed. */
  function PushAll<T>(u: seq<T>, ms: seq<T>): seq<T>
    decreases |ms|
  {
    if ms == [] then u else PushAll(if |u| >= SLOTS then u[1..] + [ms[0]] else u + [ms[0]], ms[1..])
  }

  lemma PushShifts<T>(u: seq<T>, m: T, ms: seq<T>)
    requires |u| <= SLOTS
    ensures Newest((if |u| >= SLOTS then u[1..] + [m] else u + [m]) + ms) == Newest(u + ([m] + ms))
  {
    assert u + [m] + ms == u + ([m] + ms);
    if |u| >= SLOTS {
      assert u[1..] + [m] + ms == (u + ([m] + ms))[1..];
    }
  }

  lemma {:induction false} NewestAreKept<T>(u: seq<T>, ms: seq<T>)
    requires |u| <= SLOTS
    ensures PushAll(u, ms) == Newest(u + ms)
    decreases |ms|
  {
    if ms == [] {
      assert u + ms == u;
    } else {
      PushShifts(u, ms[0], ms[1..]);
      NewestAreKept(if |u| >= SLOTS then u[1..] + [ms[0]] else u + [ms[0]], ms[1..]);
      assert [ms[0]] + ms[1..] == ms;
    }
  }

  lemma PointerIs(i: nat)
    ensures Pointer(i) % 4 == Slot(i) && (Pointer(i) + 1) % 8 == Pointer(i + 1)
  {
    var q, r := i / 8, i % 8;
    assert i == (2 * q + r / 4) * 4 + r % 4;
    ModIs(i, 2 * q + r / 4, r % 4, 4);
    ModNext(i, 8);
  }

  /** The difference of the pointers counts the unread matrices. */
  lemma PointersApart(n: nat, next: nat)
    requires next <= n < next + 8
    ensures (Pointer(n) - Pointer(next)) % 8 == n - next
    ensures n >= SLOTS ==> (Pointer(n) - 4) % 8 == Pointer(n - SLOTS)
  {
  }

  lemma SlotsDiffer(i: nat, n: nat)
    requires i < n < i + SLOTS
    ensures Slot(i) != Slot(n)
  {
  }

  lemma UnreadAfterPush<T>(pushed: seq<T>, next: nat, m: T)
    requires next <= |pushed| <= next + SLOTS
    ensures var n := Oldest(next, |pushed| + 1);
            && n <= |pushed| + 1
            && (pushed + [m])[n..] == if |pushed[next..]| >= 4 then pushed[next..][1..] + [m] else pushed[next..] + [m]
  {
  }

  datatype Scanned = NoData | EmptyKey | Keys(matrix: seq<Row>)

  /** `pushed` is every changed matrix there ever was, and `next` the number of the first one not read or lost. */
  class KeyMatrix {
    const rows: nat
    const pre: array<Row>
    const last: array<Row>
    const buff: array<seq<Row>>
    var wptr: nat
    var rptr: nat
    ghost var pushed: seq<seq<Row>>
    ghost var next: nat

    ghost predicate Valid()
      reads this, buff
    {
      && pre.Length == last.Length == rows && pre != last && buff.Length == SLOTS
      && wptr == Pointer(|pushed|) && rptr == Pointer(next) && next <= |pushed| <= next + SLOTS
      && forall i {:trigger pushed[i]} | next <= i < |pushed| :: buff[Slot(i)] == pushed[i]
    }

    /** The matrices that have been neither read nor given up, oldest first. */
    ghost function Unread(): seq<seq<Row>>
      requires Valid()
      reads this, buff
    {
      pushed[next..]
    }

    constructor (rows: nat)
      ensures Valid() && this.rows == rows && pushed == [] && next == 0 && fresh(pre) && fresh(last) && fresh(buff)
      ensures forall i | 0 <= i < rows :: pre[i] == {} && last[i] == {}
    {
      this.rows := rows;
      pre := new Row[rows](_ => {});
      last := new Row[rows](_ => {});
      buff := new seq<Row>[SLOTS](_ => []);
      wptr, rptr, pushed, next := 0, 0, [], 0;
    }

    /** key_debounce_filter */
    method DebounceFilter(cur: array<Row>, filter: bool) returns (changed: bool)
      requires Valid() && cur.Length == rows && cur != pre && cur != last
      modifies cur, pre, last
      ensures cur[..] == if filter then Votes(old(last[..]), old(pre[..]), old(cur[..])) else old(cur[..])
      ensures pre[..] == old(cur[..]) && last[..] == cur[..]
      ensures forall i, c | 0 <= i < rows ::
                c in cur[i] <==> if !filter || (c in old(pre[i]) <==> c in old(cur[i])) then c in old(cur[i]) else c in old(last[i])
      ensures changed <==> last[..] != old(last[..])
    {
      changed := false;
      ghost var raw, was, before := cur[..], last[..], pre[..];
      ghost var out := if filter then Votes(was, before, raw) else raw;
      for i := 0 to rows
        invariant forall k | 0 <= k < i :: cur[k] == out[k] && pre[k] == raw[k] && last[k] == out[k]
        invariant forall k | i <= k < rows :: cur[k] == raw[k] && pre[k] == before[k] && last[k] == was[k]
        invariant changed <==> exists k | 0 <= k < i :: out[k] != was[k]
      {
        var row := cur[i];
        if filter {
          cur[i] := ((pre[i] * row) - last[i]) + (last[i] * (pre[i] + row));
        }
        if cur[i] != last[i] {
          changed := true;
        }
        pre[i] := row;
        last[i] := cur[i];
      }
      assert cur[..] == out && last[..] == out && pre[..] == raw;
    }

    /** A changed matrix goes into the ring; if four are unread, the oldest is given up. */
    method Push(m: seq<Row>)
      requires Valid()
      modifies this`wptr, this`rptr, this`pushed, this`next, buff
      ensures Valid() && pushed == old(pushed) + [m] && next == Oldest(old(next), |pushed|)
      ensures Unread() == if |old(Unread())| >= 4 then old(Unread())[1..] + [m] else old(Unread()) + [m]
    {
      UnreadAfterPush(pushed, next, m);
      PointerIs(|pushed|);
      PointersApart(|pushed| + 1, next);
      forall i | Oldest(next, |pushed| + 1) <= i < |pushed|
        ensures Slot(i) != Slot(|pushed|)
      {
        SlotsDiffer(i, |pushed|);
      }
      buff[wptr % 4] := m;
      wptr := (wptr + 1) % 8;
      if (wptr - rptr) % 8 > 4 {
        rptr := (wptr - 4) % 8;
      }
      pushed := pushed + [m];
      next := Oldest(next, |pushed|);
    }

    method Read() returns (r: Scanned)
      requires Valid()
      modifies this`rptr, this`next
      ensures Valid()
      ensures r == if old(next) < |pushed| then Keys(pushed[old(next)]) else NoData
      ensures next == if old(next) < |pushed| then old(next) + 1 else old(next)
      ensures r == if old(Unread()) == [] then NoData else Keys(old(Unread())[0])
      ensures Unread() == if old(Unread()) == [] then [] else old(Unread())[1..]
    {
      PointerIs(next);
      PointersApart(|pushed|, next);
      if wptr == rptr {
        return NoData;
      }
      r := Keys(buff[rptr % 4]);
      rptr := (rptr + 1) % 8;
      next := next + 1;
    }

    /** kb_scan_key_value from the raw matrix on. */
    method Scan(matrix: array<Row>, removeGhosts: bool, filter: bool, invalid: bool, readKey: bool) returns (r: Scanned)
      requires Valid() && matrix.Length == rows && matrix != pre && matrix != last
      modifies this`wptr, this`rptr, this`pushed, this`next, buff, matrix, pre, last
      ensures Valid()
      ensures var raw := if removeGhosts then GhostFree(old(matrix[..])) else old(matrix[..]);
              && pre[..] == raw && last[..] == (if filter then Votes(old(last[..]), old(pre[..]), raw) else raw)
              && pushed == (if last[..] != old(last[..]) then old(pushed) + [last[..]] else old(pushed))
              && forall i, c | 0 <= i < rows ::
                   c in last[i] <==> if !filter || (c in old(pre[i]) <==> c in raw[i]) then c in raw[i] else c in old(last[i])
      ensures var oldest := Oldest(old(next), |pushed|);
              var taken := !invalid && readKey && oldest < |pushed|;
              && r == (if invalid then EmptyKey else if taken then Keys(pushed[oldest]) else NoData)
              && next == if taken then oldest + 1 else oldest
    {
      if removeGhosts {
        RemoveGhostKeys(matrix);
      }
      var changed := DebounceFilter(matrix, filter);
      if changed {
        Push(matrix[..]);
      }
      if invalid {
        return EmptyKey;
      }
      r := NoData;
      if readKey {
        r := Read();
      }
    }
  }
}
