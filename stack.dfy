/** The operand stack of the interpreter: a fixed array of 255 floating-point
    slots whose slot 0 is the top. `push` rotates the whole array right by one
    and writes slot 0, so the old bottom slot is lost; `pop` reads slot 0,
    zeroes it and rotates left, so the zero reappears at the bottom. There is
    no overflow or underflow error: popping an empty stack yields 0.0. */
module OperandStack {

  /** Number of slots of the array. */
  const Capacity: nat := 255

  /** A sequence of n zeros. */
  function Zeros(n: nat): (r: seq<real>)
    ensures |r| == n && forall i :: 0 <= i < n ==> r[i] == 0.0
  {
    seq(n, _ => 0.0)
  }

  /** Rotation right by one place: the last element becomes the first. */
  function RotatedRight(s: seq<real>): (r: seq<real>)
    requires |s| > 0
    ensures |r| == |s| && r[0] == s[|s| - 1]
    ensures forall i :: 0 < i < |s| ==> r[i] == s[i - 1]
  {
    [s[|s| - 1]] + s[..|s| - 1]
  }

  /** Rotation left by one place: the first element becomes the last. */
  function RotatedLeft(s: seq<real>): (r: seq<real>)
    requires |s| > 0
    ensures |r| == |s| && r[|s| - 1] == s[0]
    ensures forall i :: 0 <= i < |s| - 1 ==> r[i] == s[i + 1]
  {
    s[1..] + [s[0]]
  }

  /** The slots after `push(x)`: rotate right, then overwrite slot 0. */
  function Pushed(s: seq<real>, x: real): (r: seq<real>)
    requires |s| == Capacity
    ensures |r| == Capacity && r[0] == x
  {
    RotatedRight(s)[0 := x]
  }

  /** The slots after `pop()`: zero slot 0, then rotate left. */
  function Popped(s: seq<real>): (r: seq<real>)
    requires |s| == Capacity
    ensures |r| == Capacity && r[Capacity - 1] == 0.0
  {
    RotatedLeft(s[0 := 0.0])
  }

  /** `push` shifts every slot down by one and loses the old bottom slot. */
  lemma PushedShape(s: seq<real>, x: real)
    requires |s| == Capacity
    ensures Pushed(s, x) == [x] + s[..Capacity - 1]
  {
    var r := Pushed(s, x);
    assert forall i :: 0 <= i < Capacity ==> r[i] == ([x] + s[..Capacity - 1])[i] by {
      forall i | 0 <= i < Capacity ensures r[i] == ([x] + s[..Capacity - 1])[i] {
        if i > 0 { assert r[(i - 1) + 1] == s[i - 1]; }
      }
    }
  }

  /** `pop` shifts every slot up by one and refills the bottom with 0.0. */
  lemma PoppedShape(s: seq<real>)
    requires |s| == Capacity
    ensures Popped(s) == s[1..] + [0.0]
  {
    var r := Popped(s);
    assert forall i :: 0 <= i < Capacity ==> r[i] == (s[1..] + [0.0])[i];
  }

  /** Popping right after pushing x returns x, restores slots 0..253 and
      leaves 0.0 in the bottom slot, where the lost value used to be. */
  lemma PopAfterPush(s: seq<real>, x: real)
    requires |s| == Capacity
    ensures Pushed(s, x)[0] == x
    ensures Popped(Pushed(s, x)) == s[..Capacity - 1] + [0.0]
  {
    PushedShape(s, x);
    PoppedShape(Pushed(s, x));
  }

  /** The slots after k pops. */
  function PoppedTimes(s: seq<real>, k: nat): (r: seq<real>)
    requires |s| == Capacity
    ensures |r| == Capacity
    decreases k
  {
    if k == 0 then s else PoppedTimes(Popped(s), k - 1)
  }

  /** k pops (k at most the capacity) move slot k to the top and fill the
      bottom with k zeros. */
  lemma {:induction false} PoppedTimesShape(s: seq<real>, k: nat)
    requires |s| == Capacity && k <= Capacity
    ensures PoppedTimes(s, k) == s[k..] + Zeros(k)
    decreases k
  {
    if k > 0 {
      PoppedShape(s);
      PoppedTimesShape(Popped(s), k - 1);
      assert Popped(s)[k - 1..] + Zeros(k - 1) == s[k..] + Zeros(k);
    }
  }

  /** A fresh stack is all zeros and stays so under `pop`, so popping a fresh
      or fully drained stack yields 0.0; 255 pops drain any stack. */
  lemma DrainedStack(s: seq<real>)
    requires |s| == Capacity
    ensures PoppedTimes(s, Capacity) == Zeros(Capacity)
    ensures Popped(Zeros(Capacity)) == Zeros(Capacity) && Zeros(Capacity)[0] == 0.0
  {
    PoppedTimesShape(s, Capacity);
    PoppedShape(Zeros(Capacity));
  }

  /** In-place `rotate_right(1)` on an array. */
  method RotateRight(a: array<real>)
    requires a.Length > 0
    modifies a
    ensures a[..] == RotatedRight(old(a[..]))
  {
    var last := a[a.Length - 1];
    var i := a.Length - 1;
    while i > 0
      invariant 0 <= i < a.Length
      invariant forall k :: i < k < a.Length ==> a[k] == old(a[k - 1])
      invariant forall k :: 0 <= k <= i ==> a[k] == old(a[k])
    {
      a[i] := a[i - 1];
      i := i - 1;
    }
    a[0] := last;
  }

  /** In-place `rotate_left(1)` on an array. */
  method RotateLeft(a: array<real>)
    requires a.Length > 0
    modifies a
    ensures a[..] == RotatedLeft(old(a[..]))
  {
    var first := a[0];
    var i := 0;
    while i < a.Length - 1
      invariant 0 <= i <= a.Length - 1
      invariant forall k :: 0 <= k < i ==> a[k] == old(a[k + 1])
      invariant forall k :: i <= k < a.Length ==> a[k] == old(a[k])
    {
      a[i] := a[i + 1];
      i := i + 1;
    }
    a[a.Length - 1] := first;
  }

  class Stack {
    const items: array<real>

    ghost predicate Valid()
    {
      items.Length == Capacity
    }

    /** `Stack::new`: every slot 0.0. */
    constructor ()
      ensures Valid() && fresh(items)
      ensures items[..] == Zeros(Capacity)
    {
      items := new real[Capacity](_ => 0.0);
    }

    /** `push`: slot 0 holds num, every other slot holds what the slot above
        it held, the old bottom slot is discarded. */
    method Push(num: real)
      requires Valid()
      modifies items
      ensures items[..] == Pushed(old(items[..]), num)
    {
      RotateRight(items);
      items[0] := num;
    }

    /** `pop`: returns the old slot 0, moves every slot up and zeroes the
        bottom slot. */
    method Pop() returns (result: real)
      requires Valid()
      modifies items
      ensures result == old(items[0])
      ensures items[..] == Popped(old(items[..]))
    {
      result := items[0];
      items[0] := 0.0;
      RotateLeft(items);
    }
  }

  /** The unit test of the stack: after pushing 1, 2 and 3 on a new stack,
      slot 0 holds 3.0 and the two below it hold 2.0 and 1.0. */
  method PushThree() returns (top: real, second: real, third: real)
    ensures top == 3.0 && second == 2.0 && third == 1.0
  {
    var stack := new Stack();
    stack.Push(1.0);
    stack.Push(2.0);
    stack.Push(3.0);
    top, second, third := stack.items[0], stack.items[1], stack.items[2];
  }
}
