/** RUDPReceiveWindow: a circular array of received flags over a sliding range of sequences. */
module ReceiveWindow {
  import opened Common
  import opened Sequences

  // --- Specification: the flags in order from the window start ---

  function Falses(n: nat): (s: seq<bool>)
    ensures |s| == n && forall i :: 0 <= i < n ==> !s[i]
  {
    seq(n, _ => false)
  }

  // How many flags from the window start on are set.
  function LeadingRun(flags: seq<bool>): (n: nat)
    ensures n <= |flags|
    ensures forall i :: 0 <= i < n ==> flags[i]
    ensures n < |flags| ==> !flags[n]
  {
    if flags == [] || !flags[0] then 0 else 1 + LeadingRun(flags[1..])
  }

  function Slide(flags: seq<bool>, n: nat): (s: seq<bool>)
    requires n <= |flags|
    ensures |s| == |flags|
  {
    flags[n..] + Falses(n)
  }

  predicate Accepts(start: Sequence, size: nat, s: Sequence) {
    0 <= Distance(s, start) < size
  }

  function Count(flags: seq<bool>): (n: nat)
    ensures n <= |flags|
  {
    if flags == [] then 0 else (if flags[0] then 1 else 0) + Count(flags[1..])
  }

  lemma {:induction false} CountSplit(a: seq<bool>, b: seq<bool>)
    ensures Count(a + b) == Count(a) + Count(b)
  {
    if a == [] {
      assert a + b == b;
    } else {
      assert (a + b)[1..] == a[1..] + b;
      CountSplit(a[1..], b);
    }
  }

  lemma {:induction false} CountBound(a: seq<bool>)
    ensures Count(a) <= |a|
    ensures (forall i :: 0 <= i < |a| ==> !a[i]) ==> Count(a) == 0
    ensures (exists i :: 0 <= i < |a| && a[i]) ==> Count(a) > 0
  {
    if a != [] { CountBound(a[1..]); }
  }

  lemma CountUpdate(a: seq<bool>, i: nat, v: bool)
    requires i < |a|
    ensures Count(a[i := v]) == Count(a) - (if a[i] then 1 else 0) + (if v then 1 else 0)
  {
    assert a == a[..i] + ([a[i]] + a[i + 1..]);
    assert a[i := v] == a[..i] + ([v] + a[i + 1..]);
    CountSplit(a[..i], [a[i]] + a[i + 1..]);
    CountSplit(a[..i], [v] + a[i + 1..]);
  }

  // A circular buffer read from index i on.
  function Rotate(a: seq<bool>, i: nat): (r: seq<bool>)
    requires i <= |a|
    ensures |r| == |a|
  {
    a[i..] + a[..i]
  }

  lemma CountSwap(x: seq<bool>, y: seq<bool>)
    ensures Count(x + y) == Count(y + x)
  {
    hide Count;
    CountSplit(x, y);
    CountSplit(y, x);
  }

  lemma CountRotate(a: seq<bool>, i: nat)
    requires i <= |a|
    ensures Count(Rotate(a, i)) == Count(a)
  {
    hide Count;
    var front, back := a[..i], a[i..];
    CountSwap(front, back);
    assert a == front + back;
  }

  lemma RotateUpdate(a: seq<bool>, i: nat, offset: nat, v: bool)
    requires i < |a| && offset < |a|
    ensures var idx := if i + offset < |a| then i + offset else i + offset - |a|;
            Rotate(a[idx := v], i) == Rotate(a, i)[offset := v] && a[idx] == Rotate(a, i)[offset]
  {
  }

  lemma RotateStep(a: seq<bool>, i: nat)
    requires i < |a|
    ensures Rotate(a, if i + 1 < |a| then i + 1 else 0) == Rotate(a, i)[1..] + [a[i]]
  {
  }

  lemma SlideStep(marked: seq<bool>, n: nat)
    requires n < |marked|
    ensures Slide(marked, n + 1) == Slide(marked, n)[1..] + [false]
    ensures Slide(marked, n)[0] == marked[n]
  {
  }

  // Below twice the modulus one subtraction is enough.
  lemma ModBelowTwice(x: nat, n: nat)
    requires 0 < n && x < 2 * n
    ensures x % n == if x < n then x else x - n
  {
    var q := x / n;
    if q >= 2 { ProductAtLeast(q, n, 2); }
  }

  // One turn of the loop in MarkReceived.
  lemma ShiftOne(was: seq<bool>, i: nat, marked: seq<bool>, n: nat)
    requires i < |was| == |marked| && n <= LeadingRun(marked)
    requires Rotate(was, i) == Slide(marked, n) && was[i]
    ensures n < LeadingRun(marked)
    ensures Rotate(was[i := false], if i + 1 < |was| then i + 1 else 0) == Slide(marked, n + 1)
    ensures Count(was[i := false]) == Count(was) - 1
  {
    assert Rotate(was, i)[0] == was[i];
    assert Slide(marked, n)[0] == (if n < |marked| then marked[n] else false);
    SlideStep(marked, n);
    CountUpdate(was, i, false);
    RotateStep(was[i := false], i);
    RotateUpdate(was, i, 0, false);
  }

  lemma ShiftDone(was: seq<bool>, i: nat, marked: seq<bool>, n: nat)
    requires i < |was| == |marked| && n <= LeadingRun(marked)
    requires Rotate(was, i) == Slide(marked, n) && !was[i]
    ensures n == LeadingRun(marked) && !Rotate(was, i)[0]
  {
    assert Rotate(was, i)[0] == was[i];
    if n < |marked| { SlideStep(marked, n); }
  }

  class RUDPReceiveWindow {
    var windowStart: Sequence
    const windowSize: nat
    const receivedFlags: array<bool>
    var usedCount: nat
    var startIndex: nat

    // Between calls the flag of the window start itself is clear.
    ghost predicate Valid()
      reads this, receivedFlags
    {
      && windowSize < 256
      && receivedFlags.Length == windowSize
      && (windowSize == 0 ==> startIndex == 0)
      && (windowSize > 0 ==> startIndex < windowSize)
      && usedCount == Count(receivedFlags[..])
      && (windowSize > 0 ==> !Flags()[0])
    }

    // The flags in sequence order.
    ghost function Flags(): (f: seq<bool>)
      requires receivedFlags.Length == windowSize && startIndex <= windowSize
      reads this, receivedFlags
      ensures |f| == windowSize
    {
      Rotate(receivedFlags[..], startIndex)
    }

    constructor (recvWindowSize: nat)
      requires recvWindowSize < 256
      ensures Valid() && fresh(receivedFlags) && windowSize == recvWindowSize
      ensures windowStart == 0 && Flags() == Falses(recvWindowSize)
    {
      windowSize := recvWindowSize;
      windowStart := 0;
      usedCount := 0;
      startIndex := 0;
      receivedFlags := new bool[recvWindowSize](_ => false);
      new;
      assert receivedFlags[..] == Falses(recvWindowSize);
      CountBound(receivedFlags[..]);
      assert Flags() == Falses(recvWindowSize);
    }

    method CanReceive(s: Sequence) returns (r: bool)
      ensures r <==> Accepts(windowStart, windowSize, s)
    {
      var diff := Distance(s, windowStart);
      r := diff >= 0 && diff < windowSize;
    }

    method GetAdvertiseWindow() returns (r: nat)
      requires Valid()
      ensures r == windowSize - Count(Flags())
    {
      CountBound(receivedFlags[..]);
      CountRotate(receivedFlags[..], startIndex);
      r := windowSize - usedCount;
    }

    method Reset(start: Sequence)
      requires Valid()
      modifies this, receivedFlags
      ensures Valid() && windowStart == start && Flags() == Falses(windowSize)
    {
      windowStart := start;
      startIndex := 0;
      usedCount := 0;
      forall i | 0 <= i < receivedFlags.Length {
        receivedFlags[i] := false;
      }
      assert receivedFlags[..] == Falses(windowSize);
      CountBound(receivedFlags[..]);
      assert Flags() == Falses(windowSize);
    }

    // One turn past the end of the flag array at most.
    method FlagIndex(i: nat) returns (idx: nat)
      requires i < 2 * windowSize
      ensures idx == if i < windowSize then i else i - windowSize
    {
      ModBelowTwice(i, windowSize);
      idx := i % windowSize;
    }

    // A sequence outside the window changes nothing; otherwise its flag is set, and the window
    // slides past the run of received sequences at its start.
    method MarkReceived(s: Sequence)
      requires Valid()
      modifies this, receivedFlags
      ensures Valid()
      ensures !Accepts(old(windowStart), windowSize, s) ==> windowStart == old(windowStart) && Flags() == old(Flags())
      ensures Accepts(old(windowStart), windowSize, s) ==>
                var marked := old(Flags())[Distance(s, old(windowStart)) := true];
                && windowStart == Advance(old(windowStart), LeadingRun(marked))
                && Flags() == Slide(marked, LeadingRun(marked))
    {
      var can := CanReceive(s);
      if !can { return; }
      var offset := Distance(s, windowStart);
      ghost var was := receivedFlags[..];
      RotateUpdate(was, startIndex, offset, true);
      var idx := FlagIndex(startIndex + offset);
      CountUpdate(was, idx, true);
      if !receivedFlags[idx] {
        receivedFlags[idx] := true;
        usedCount := usedCount + 1;
      }
      assert receivedFlags[..] == was[idx := true];
      SlidePastReceived();
    }

    // The loop of MarkReceived.
    method SlidePastReceived()
      requires 0 < windowSize < 256 && receivedFlags.Length == windowSize
      requires startIndex < windowSize && usedCount == Count(receivedFlags[..])
      modifies this, receivedFlags
      ensures Valid()
      ensures windowStart == Advance(old(windowStart), LeadingRun(old(Flags())))
      ensures Flags() == Slide(old(Flags()), LeadingRun(old(Flags())))
    {
      ghost var marked := Flags();
      ghost var n := 0;
      assert Slide(marked, 0) == marked;
      while receivedFlags[startIndex]
        invariant startIndex < windowSize
        invariant usedCount == Count(receivedFlags[..])
        invariant n <= LeadingRun(marked)
        invariant Flags() == Slide(marked, n)
        invariant windowStart == Advance(old(windowStart), n)
        decreases LeadingRun(marked) - n
      {
        ghost var was := receivedFlags[..];
        ShiftOne(was, startIndex, marked, n);
        receivedFlags[startIndex] := false;
        assert receivedFlags[..] == was[startIndex := false];
        startIndex := FlagIndex(startIndex + 1);
        windowStart := Next(windowStart);
        usedCount := usedCount - 1;
        n := n + 1;
      }
      ShiftDone(receivedFlags[..], startIndex, marked, n);
    }
  }
}
