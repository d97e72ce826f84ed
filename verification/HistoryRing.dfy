/** The viewer's rewind buffer: how long it is, and the ring of simulation states that the
    scrubbing slider walks back through. */
module HistoryRing {
  import opened Arithmetic

  const INT_MAX := 2147483647
  const MAX_HISTORY_BYTES := 100_000_000
  const NUM_BYTES := 8

  function Min(a: int, b: int): int {
    if a <= b then a else b
  }

  // A model's state is not empty, and its size in bytes is an int.
  predicate Sizeable(stateSize: int) {
    1 <= stateSize && stateSize * NUM_BYTES <= INT_MAX
  }

  lemma QuotientBounds(a: int, b: int)
    requires a >= 0 && b > 0
    ensures a / b * b <= a < (a / b + 1) * b && 0 <= a / b
  {
  }

  lemma ProductMonotone(a: int, b: int, c: int)
    requires a <= b && c >= 0
    ensures a * c <= b * c
  {
  }

  function Length(stateBytes: int): int
    requires stateBytes > 0
  {
    Min(stateBytes * Min(INT_MAX / stateBytes, 2000), MAX_HISTORY_BYTES) / stateBytes
  }

  /** The buffer holds as many states as fit in a hundred megabytes, at most 2000, and the
      product on the way to that number does not overflow an int. */
  lemma LengthExact(stateBytes: int)
    requires 0 < stateBytes <= INT_MAX
    ensures Length(stateBytes) == Min(2000, MAX_HISTORY_BYTES / stateBytes)
    ensures 0 <= stateBytes * Min(INT_MAX / stateBytes, 2000) <= INT_MAX
  {
    var b, l := stateBytes, Min(INT_MAX / stateBytes, 2000);
    var q := MAX_HISTORY_BYTES / b;
    QuotientBounds(INT_MAX, b);
    QuotientBounds(MAX_HISTORY_BYTES, b);
    ProductMonotone(l, INT_MAX / b, b);
    assert INT_MAX / b >= q by {
      if INT_MAX / b < q {
        ProductMonotone(INT_MAX / b + 1, q, b);
      }
    }
    if l < q {
      ProductMonotone(l, q, b);
      Divides(b * l, l, 0, b);
    } else if b * l <= MAX_HISTORY_BYTES {
      ProductMonotone(q, l, b);
      if l > q {
        ProductMonotone(q + 1, l, b);
      }
      Divides(b * l, q, b * l - q * b, b);
    }
  }

  type State = seq<real>

  // The state of k steps ago.
  function Ago(initial: State, added: seq<State>, k: nat): State {
    if k < |added| then added[|added| - 1 - k] else initial
  }

  // The slot k places behind the cursor.
  function Behind(cursor: nat, k: nat, n: nat): int
    requires cursor < n && k < n
  {
    if k <= cursor then cursor - k else cursor - k + n
  }

  ghost predicate Remembers(slots: seq<State>, cursor: nat, initial: State, added: seq<State>) {
    && cursor < |slots|
    && forall k :: 0 <= k < |slots| ==> slots[Behind(cursor, k, |slots|)] == Ago(initial, added, k)
  }

  function Next(cursor: int, n: int): int
    requires 0 <= cursor < n
  {
    if cursor + 1 < n then cursor + 1 else 0
  }

  lemma NextByRemainder(cursor: int, n: int)
    requires 0 <= cursor < n
    ensures Rem(cursor + 1, n) == Next(cursor, n)
  {
  }

  lemma RemembersNext(slots: seq<State>, cursor: nat, initial: State, added: seq<State>, s: State)
    requires Remembers(slots, cursor, initial, added)
    ensures var next := Next(cursor, |slots|);
            Remembers(slots[next := s], next, initial, added + [s])
  {
    var n := |slots|;
    var next := Next(cursor, n);
    forall k | 0 <= k < n
      ensures slots[next := s][Behind(next, k, n)] == Ago(initial, added + [s], k)
    {
      if k == 0 {
        assert Ago(initial, added + [s], 0) == s;
      } else {
        assert Behind(next, k, n) == Behind(cursor, k - 1, n) != next;
        assert Ago(initial, added + [s], k) == Ago(initial, added, k - 1);
      }
    }
  }

  lemma ScrubIndex(scrub: int, cursor: int, n: int)
    requires 0 <= cursor < n && 1 - n <= scrub <= 0
    ensures Rem(Rem(scrub + cursor, n) + n, n) == Behind(cursor, -scrub, n)
  {
    var i := scrub + cursor;
    Divides(if i >= 0 then i else -i, 0, if i >= 0 then i else -i, n);
    if i >= 0 {
      Divides(i + n, 1, i, n);
    } else {
      Divides(i + n, 0, i + n, n);
    }
  }

  // Two buffers that agree outside [at, at + size) agree on every slot outside.
  lemma SameOutside(h: seq<real>, h': seq<real>, at: nat, size: nat, jt: nat)
    requires |h| == |h'| && at + size <= |h| && jt + size <= |h|
    requires h[..at] == h'[..at] && h[at + size..] == h'[at + size..]
    requires jt + size <= at || at + size <= jt
    ensures h[jt..jt + size] == h'[jt..jt + size]
  {
    if jt + size <= at {
      assert h[jt..jt + size] == h[..at][jt..jt + size];
      assert h'[jt..jt + size] == h'[..at][jt..jt + size];
    } else {
      var from := jt - at - size;
      assert h[jt..jt + size] == h[at + size..][from..from + size];
      assert h'[jt..jt + size] == h'[at + size..][from..from + size];
    }
  }

  class History {
    const stateSize: int
    const n: int
    const history: array<real>
    var cursor: int
    ghost var slots: seq<State>
    ghost var initial: State
    ghost var added: seq<State>

    // The flat buffer is the slots laid end to end.
    ghost predicate Laid()
      reads this, history
    {
      && stateSize >= 1 && n >= 0 && |slots| == n && history.Length == n * stateSize
      && forall i :: 0 <= i < n ==> |slots[i]| == stateSize && SlotAt(i) == slots[i]
    }

    ghost function SlotAt(i: int): State
      requires stateSize >= 1 && 0 <= i < n && history.Length == n * stateSize
      reads this, history
    {
      SlotInside(i, n, stateSize);
      history[i * stateSize..i * stateSize + stateSize]
    }

    ghost predicate Valid()
      reads this, history
    {
      Laid() && (n > 0 ==> 0 <= cursor < n && Remembers(slots, cursor, initial, added))
    }

    // A model with room for at least one state: the buffer starts full of its first.
    constructor (stateSize: int, state: State)
      requires Sizeable(stateSize) && |state| == stateSize && stateSize * NUM_BYTES <= MAX_HISTORY_BYTES
      ensures Valid() && initial == state && added == []
      ensures n == Min(2000, MAX_HISTORY_BYTES / (stateSize * NUM_BYTES)) >= 1
      ensures fresh(history)
    {
      LengthExact(stateSize * NUM_BYTES);
      AtLeastOne(stateSize * NUM_BYTES);
      var bytes := stateSize * NUM_BYTES;
      var length := Min(INT_MAX / bytes, 2000);
      var count := Min(bytes * length, MAX_HISTORY_BYTES) / bytes;
      var h := new real[count * stateSize];
      this.stateSize, n, history, cursor := stateSize, count, h, 0;
      slots, initial, added := seq(count, _ => state), state, [];
      new;
      FillFrom(state);
    }

    method FillFrom(state: State)
      requires stateSize >= 1 && n >= 1 && history.Length == n * stateSize && |state| == stateSize
      modifies history
      ensures forall i :: 0 <= i < n ==> SlotAt(i) == state
    {
      for i := 0 to n
        invariant forall j :: 0 <= j < i ==> SlotAt(j) == state
      {
        WriteSlot(i, state);
      }
    }

    method WriteSlot(i: int, state: State)
      requires stateSize >= 1 && 0 <= i < n && history.Length == n * stateSize && |state| == stateSize
      modifies history
      ensures SlotAt(i) == state
      ensures forall j :: 0 <= j < n && j != i ==> SlotAt(j) == old(SlotAt(j))
    {
      SlotInside(i, n, stateSize);
      var at := i * stateSize;
      for k := 0 to stateSize
        invariant history[at..at + k] == state[..k]
        invariant history[..at] == old(history[..at])
        invariant history[at + stateSize..] == old(history[at + stateSize..])
      {
        history[at + k] := state[k];
      }
      forall j | 0 <= j < n && j != i
        ensures SlotAt(j) == old(SlotAt(j))
      {
        SlotInside(j, n, stateSize);
        SlotsApart(i, j, stateSize);
        SameOutside(old(history[..]), history[..], at, stateSize, j * stateSize);
      }
    }

    // A model too big for the buffer keeps no history.
    method AddToHistory(state: State)
      requires Valid() && |state| == stateSize
      modifies this`cursor, this`slots, this`added, history
      ensures Valid() && initial == old(initial)
      ensures n > 0 ==> added == old(added) + [state]
      ensures n == 0 ==> cursor == old(cursor) && added == old(added)
    {
      if history.Length == 0 {
        NoRoom(n, stateSize);
        return;
      }
      Roomy(n, stateSize);
      RemembersNext(slots, cursor, initial, added, state);
      NextByRemainder(cursor, n);
      hide Rem, Remembers, Laid;
      cursor := Rem(cursor + 1, n);
      PutSlot(cursor, state);
      added := added + [state];
    }

    method PutSlot(i: int, state: State)
      requires Laid() && 0 <= i < n && |state| == stateSize
      modifies this`slots, history
      ensures Laid() && slots == old(slots)[i := state]
    {
      WriteSlot(i, state);
      hide SlotAt;
      slots := slots[i := state];
    }

    /** Scrubbing -s steps back loads the state added that many steps ago, or the first. */
    method LoadScrubState(scrub: int) returns (state: State)
      requires Valid() && 1 - n <= scrub <= 0
      ensures state == Ago(initial, added, -scrub)
    {
      hide Rem, Ago;
      ScrubIndex(scrub, cursor, n);
      var i := Rem(scrub + cursor, n);
      i := Rem(i + n, n);
      SlotInside(i, n, stateSize);
      assert SlotAt(i) == slots[i];
      state := history[i * stateSize..i * stateSize + stateSize];
    }
  }

  lemma AtLeastOne(bytes: int)
    requires 0 < bytes <= MAX_HISTORY_BYTES
    ensures MAX_HISTORY_BYTES / bytes >= 1
  {
  }

  lemma Roomy(n: int, size: int)
    requires n >= 0 && n * size != 0
    ensures n > 0
  {
  }

  lemma NoRoom(n: int, size: int)
    requires n >= 0 && size >= 1 && n * size == 0
    ensures n == 0
  {
  }

  lemma SlotInside(i: int, n: int, size: int)
    requires 0 <= i < n && size >= 1
    ensures 0 <= i * size <= i * size + size <= n * size
  {
    ProductMonotone(i + 1, n, size);
  }

  lemma SlotsApart(i: int, j: int, size: int)
    requires i != j && size >= 1
    ensures i * size + size <= j * size || j * size + size <= i * size
    ensures i < j ==> i * size + size <= j * size
    ensures j < i ==> j * size + size <= i * size
  {
    if i < j {
      ProductMonotone(i + 1, j, size);
    } else {
      ProductMonotone(j + 1, i, size);
    }
  }
}
