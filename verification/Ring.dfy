/** Fixed-capacity, overwrite-oldest ring buffer of audio samples, refining a plain sequence. */
module AudioRing {
  import opened Arithmetic
  import opened Audio

  /** The last `n` elements, or all of them when there are fewer. */
  function LastOf<T>(s: seq<T>, n: nat): seq<T> {
    if |s| <= n then s else s[|s| - n..]
  }

  /** Keeping the last `n` after every append keeps the last `n` of the whole history. */
  lemma {:induction false} LastOfAppend<T>(s: seq<T>, t: seq<T>, n: nat)
    ensures LastOf(LastOf(s, n) + t, n) == LastOf(s + t, n)
  {
  }

  // ----- The backing slots, read as a window that ends just before `head`.

  ghost predicate Slots(slots: seq<Sample>, head: nat, len: nat) {
    head < |slots| && len <= |slots|
  }

  function OldestSlot(capacity: nat, head: nat, len: nat): nat
    requires head < capacity && len <= capacity
  {
    (head + capacity - len) % capacity
  }

  // The `count` slots from `start` on, going round: what copy_from reads.
  ghost function SlotRun(slots: seq<Sample>, start: nat, count: nat): seq<Sample>
    requires |slots| > 0
  {
    seq(count, i requires 0 <= i < count => slots[(start + i) % |slots|])
  }

  ghost function Window(slots: seq<Sample>, head: nat, len: nat): (s: seq<Sample>)
    requires Slots(slots, head, len)
    ensures |s| == len
  {
    SlotRun(slots, OldestSlot(|slots|, head, len), len)
  }

  // `(start + offset) % capacity` without the division.
  function Wrapped(start: nat, offset: nat, capacity: nat): nat
    requires start < capacity && offset <= capacity
  {
    if start + offset < capacity then start + offset else start + offset - capacity
  }

  // How many slots past `start` slot `p` lies, going round.
  function Distance(start: nat, p: nat, capacity: nat): nat
    requires start < capacity && p < capacity
  {
    if p >= start then p - start else p + capacity - start
  }

  lemma {:induction false} WrapIsMod(start: nat, offset: nat, capacity: nat)
    requires start < capacity && offset <= capacity
    ensures (start + offset) % capacity == Wrapped(start, offset, capacity)
  {
    if start + offset < capacity {
      DivModUnique(start + offset, capacity, 0, start + offset);
    } else {
      DivModUnique(start + offset, capacity, 1, start + offset - capacity);
    }
  }

  lemma {:induction false} WindowAt(slots: seq<Sample>, head: nat, len: nat, i: nat)
    requires Slots(slots, head, len) && i < len
    ensures Window(slots, head, len)[i] == slots[Wrapped(Wrapped(head, |slots| - len, |slots|), i, |slots|)]
  {
    WrapIsMod(head, |slots| - len, |slots|);
    assert head + |slots| - len == head + (|slots| - len);
    WrapIsMod(OldestSlot(|slots|, head, len), i, |slots|);
  }

  // Slots after writing `kept` from `head` on: the written run is new, every other slot is untouched.
  ghost predicate WroteRun(before: seq<Sample>, head: nat, kept: seq<Sample>, written: nat, after: seq<Sample>)
    requires head < |before|
  {
    |after| == |before| && written <= |kept| <= |before| &&
    forall p | 0 <= p < |after| ::
      after[p] == if Distance(head, p, |before|) < written then kept[Distance(head, p, |before|)] else before[p]
  }

  // The slot `e` places before the write position, `e` counted back from the end of a finished run.
  lemma {:induction false} SlotFromEnd(head: nat, written: nat, len: nat, e: nat, capacity: nat)
    requires head < capacity && written <= capacity && len <= capacity && 1 <= e <= len
    ensures var head' := Wrapped(head, written, capacity);
            var p := Wrapped(Wrapped(head', capacity - len, capacity), len - e, capacity);
            Distance(head, p, capacity) == if e <= written then written - e else written + capacity - e
  {
  }

  lemma {:induction false} NewestAt(before: seq<Sample>, head: nat, len: nat, kept: seq<Sample>, after: seq<Sample>,
      len': nat, e: nat)
    requires Slots(before, head, len)
    requires WroteRun(before, head, kept, |kept|, after)
    requires len' <= len + |kept| && len' <= |before| && 1 <= e <= len'
    ensures var joined := Window(before, head, len) + kept;
            Window(after, Wrapped(head, |kept|, |before|), len')[len' - e] == joined[|joined| - e]
  {
    WindowAt(after, Wrapped(head, |kept|, |before|), len', len' - e);
    SlotFromEnd(head, |kept|, len', e, |before|);
    if e > |kept| {
      WindowAt(before, head, len, len + |kept| - e);
      SlotFromEnd(head, 0, len, e - |kept|, |before|);
    }
  }

  lemma {:induction false} WriteKeepsLast(before: seq<Sample>, head: nat, len: nat, kept: seq<Sample>,
      after: seq<Sample>, len': nat)
    requires Slots(before, head, len)
    requires WroteRun(before, head, kept, |kept|, after)
    requires len' == if len + |kept| < |before| then len + |kept| else |before|
    ensures Window(after, Wrapped(head, |kept|, |before|), len')
            == LastOf(Window(before, head, len) + kept, |before|)
  {
    var window := Window(after, Wrapped(head, |kept|, |before|), len');
    var joined := Window(before, head, len) + kept;
    forall j | 0 <= j < len'
      ensures window[j] == LastOf(joined, |before|)[j]
    {
      NewestAt(before, head, len, kept, after, len', len' - j);
    }
  }

  lemma {:induction false} ReadDropsFirst(slots: seq<Sample>, head: nat, len: nat, n: nat)
    requires Slots(slots, head, len) && n <= len
    ensures Window(slots, head, len - n) == Window(slots, head, len)[n..]
  {
    forall j | 0 <= j < len - n
      ensures Window(slots, head, len - n)[j] == Window(slots, head, len)[n..][j]
    {
      WindowAt(slots, head, len - n, j);
      WindowAt(slots, head, len, n + j);
    }
  }

  class Ring {
    const samples: array<Sample>
    var head: nat
    var len: nat
    var overrun: bool

    ghost predicate Valid()
      reads this, samples
    {
      Slots(samples[..], head, len)
    }

    /** The readable samples, oldest first. */
    ghost function Contents(): (s: seq<Sample>)
      requires Valid()
      reads this, samples
      ensures |s| == len
    {
      Window(samples[..], head, len)
    }

    constructor WithCapacity(capacity: nat)
      requires capacity > 0
      ensures Valid() && fresh(samples) && Capacity() == capacity
      ensures Contents() == [] && !overrun
    {
      samples := new Sample[capacity](_ => 0.0);
      head, len, overrun := 0, 0, false;
    }

    function Capacity(): nat {
      samples.Length
    }

    /** Appends `input`; what survives is the last `Capacity()` of old contents and input. */
    method Write(input: seq<Sample>)
      requires Valid()
      modifies this, samples
      ensures Valid()
      ensures Contents() == LastOf(old(Contents()) + input, Capacity())
      ensures overrun == (old(overrun) || |old(Contents())| + |input| > Capacity())
    {
      var capacity := Capacity();
      var kept := input;
      if |input| > capacity {
        overrun := true;
        kept := input[|input| - capacity..];
      }
      if len + |kept| > capacity {
        overrun := true;
      }

      ghost var start, before := head, samples[..];
      Store(kept);
      assert LastOf(old(Contents()) + kept, capacity) == LastOf(old(Contents()) + input, capacity);
      len := if len + |kept| < capacity then len + |kept| else capacity;
      WriteKeepsLast(before, start, old(len), kept, samples[..], len);
    }

    // Stores `kept` from `head` on, wrapping round.
    method Store(kept: seq<Sample>)
      requires Valid() && |kept| <= Capacity()
      modifies this`head, samples
      ensures head == Wrapped(old(head), |kept|, Capacity())
      ensures WroteRun(old(samples[..]), old(head), kept, |kept|, samples[..])
    {
      var capacity := Capacity();
      for i := 0 to |kept|
        invariant head < capacity && head == Wrapped(old(head), i, capacity)
        invariant WroteRun(old(samples[..]), old(head), kept, i, samples[..])
      {
        samples[head] := kept[i];
        WrapIsMod(head, 1, capacity);
        head := (head + 1) % capacity;
      }
    }

    /** Removes the oldest `out.Length` samples into `out`, or changes nothing. */
    method Read(out: array<Sample>) returns (ok: bool)
      requires Valid() && out != samples
      modifies this`len, out
      ensures Valid() && ok == (out.Length <= |old(Contents())|)
      ensures ok ==> out[..] == old(Contents())[..out.Length] && Contents() == old(Contents())[out.Length..]
      ensures !ok ==> out[..] == old(out[..]) && Contents() == old(Contents())
    {
      if out.Length > len {
        return false;
      }
      var oldest := OldestSlot(Capacity(), head, len);
      CopyFrom(oldest, out);
      ReadDropsFirst(samples[..], head, len, out.Length);
      len := len - out.Length;
      return true;
    }

    /** Copies the newest `out.Length` samples without consuming them, or changes nothing. */
    method PeekLast(out: array<Sample>) returns (ok: bool)
      requires Valid() && out != samples
      modifies out
      ensures ok == (out.Length <= |Contents()|)
      ensures ok ==> out[..] == Contents()[|Contents()| - out.Length..]
      ensures !ok ==> out[..] == old(out[..])
    {
      if out.Length > len {
        return false;
      }
      var start := (head + Capacity() - out.Length) % Capacity();
      CopyFrom(start, out);
      ReadDropsFirst(samples[..], head, len, len - out.Length);
      return true;
    }

    // Fills `out` from slot `start`, wrapping round the end of the backing slots.
    method CopyFrom(start: nat, out: array<Sample>)
      requires Valid() && out != samples
      modifies out
      ensures out[..] == SlotRun(samples[..], start, out.Length)
    {
      for offset := 0 to out.Length
        invariant out[..offset] == SlotRun(samples[..], start, offset)
      {
        out[offset] := samples[(start + offset) % Capacity()];
        assert out[..offset + 1] == out[..offset] + [out[offset]];
      }
      assert out[..] == out[..out.Length];
    }

    method Clear()
      requires Valid()
      modifies this`head, this`len
      ensures Valid() && Contents() == []
    {
      head, len := 0, 0;
    }

    /** Reports and clears the overrun flag. */
    method TakeOverrun() returns (dropped: bool)
      modifies this`overrun
      ensures dropped == old(overrun) && !overrun
    {
      dropped := overrun;
      overrun := false;
    }
  }

  // ----- Whole runs.

  datatype RingOp = Write(input: seq<Sample>) | Read(count: nat) | Peek(count: nat) | Clear | TakeOverrun

  /** What the ring means after a run: readable samples, and whether a write since the last take did not fit. */
  datatype RingView = RingView(contents: seq<Sample>, overrun: bool)

  function ViewAfter(capacity: nat, v: RingView, op: RingOp): RingView {
    match op
    case Write(input) =>
      RingView(LastOf(v.contents + input, capacity), v.overrun || |v.contents| + |input| > capacity)
    case Read(n) => if n <= |v.contents| then v.(contents := v.contents[n..]) else v
    case Peek(_) => v
    case Clear => v.(contents := [])
    case TakeOverrun => v.(overrun := false)
  }

  function ViewRun(capacity: nat, ops: seq<RingOp>): RingView {
    if ops == [] then RingView([], false)
    else ViewAfter(capacity, ViewRun(capacity, ops[..|ops| - 1]), ops[|ops| - 1])
  }

  // Operation `i` is a write that did not fit.
  ghost predicate Overflowed(capacity: nat, ops: seq<RingOp>, i: nat)
    requires i < |ops|
  {
    ops[i].Write? && |ViewRun(capacity, ops[..i]).contents| + |ops[i].input| > capacity
  }

  // ... and nothing has taken the flag since.
  ghost predicate Unreported(capacity: nat, ops: seq<RingOp>, i: nat)
    requires i < |ops|
  {
    Overflowed(capacity, ops, i) && forall j | i < j < |ops| :: !ops[j].TakeOverrun?
  }

  lemma {:induction false} UnreportedStep(capacity: nat, ops: seq<RingOp>, i: nat)
    requires i < |ops| - 1
    ensures Unreported(capacity, ops, i)
            <==> Unreported(capacity, ops[..|ops| - 1], i) && !ops[|ops| - 1].TakeOverrun?
  {
    assert ops[..|ops| - 1][..i] == ops[..i];
  }

  /** The flag is up exactly when some write since the last take did not fit. */
  lemma {:induction false} OverrunMeans(capacity: nat, ops: seq<RingOp>)
    ensures ViewRun(capacity, ops).overrun <==> exists i | 0 <= i < |ops| :: Unreported(capacity, ops, i)
  {
    if ops != [] {
      var n := |ops| - 1;
      OverrunMeans(capacity, ops[..n]);
      forall i | 0 <= i < n
        ensures Unreported(capacity, ops, i) <==> Unreported(capacity, ops[..n], i) && !ops[n].TakeOverrun?
      {
        UnreportedStep(capacity, ops, i);
      }
      assert Unreported(capacity, ops, n) <==> Overflowed(capacity, ops, n);
    }
  }

  function Written(inputs: seq<seq<Sample>>): seq<Sample> {
    if inputs == [] then [] else Written(inputs[..|inputs| - 1]) + inputs[|inputs| - 1]
  }

  /** Writes alone leave the newest `capacity` samples ever written, however they were cut into calls. */
  lemma {:induction false} WritesKeepNewest(capacity: nat, inputs: seq<seq<Sample>>)
    ensures ViewRun(capacity, seq(|inputs|, i requires 0 <= i < |inputs| => Write(inputs[i]))).contents
            == LastOf(Written(inputs), capacity)
  {
    if inputs != [] {
      var n := |inputs| - 1;
      var front := inputs[..n];
      WritesKeepNewest(capacity, front);
      var ops := seq(|inputs|, i requires 0 <= i < |inputs| => Write(inputs[i]));
      assert ops[..n] == seq(|front|, i requires 0 <= i < |front| => Write(front[i]));
      LastOfAppend(Written(front), inputs[n], capacity);
    }
  }

  method Apply(ring: Ring, op: RingOp)
    requires ring.Valid()
    modifies ring, ring.samples
    ensures ring.Valid()
    ensures RingView(ring.Contents(), ring.overrun)
            == ViewAfter(ring.Capacity(), old(RingView(ring.Contents(), ring.overrun)), op)
  {
    match op {
      case Write(input) =>
        ring.Write(input);
      case Read(n) =>
        var out := new Sample[n](_ => 0.0);
        var _ := ring.Read(out);
      case Peek(n) =>
        var out := new Sample[n](_ => 0.0);
        var _ := ring.PeekLast(out);
      case Clear =>
        ring.Clear();
      case TakeOverrun =>
        var _ := ring.TakeOverrun();
    }
  }

  /** Through any run of operations the ring's real state is the view's. */
  method RunRing(capacity: nat, ops: seq<RingOp>) returns (contents: seq<Sample>, overrun: bool)
    requires capacity > 0
    ensures |contents| <= capacity
    ensures RingView(contents, overrun) == ViewRun(capacity, ops)
  {
    var ring := new Ring.WithCapacity(capacity);
    for i := 0 to |ops|
      invariant fresh(ring) && fresh(ring.samples) && ring.Valid() && ring.Capacity() == capacity
      invariant RingView(ring.Contents(), ring.overrun) == ViewRun(capacity, ops[..i])
    {
      assert ops[..i + 1][..i] == ops[..i];
      Apply(ring, ops[i]);
    }
    assert ops[..|ops|] == ops;
    overrun := ring.overrun;
    var out := new Sample[ring.len](_ => 0.0);
    var _ := ring.Read(out);
    contents := out[..];
  }
}
