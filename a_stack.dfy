/**
 A last-in-first-out stack kept in a list whose end is the top, as the module-level
 list of A_stack.py is. Every stage of the calculator works on such a stack.
 */
module AStack {

  class Stack<T> {
    /** The stack's elements, bottom first; the last element is the top. */
    var elems: seq<T>

    /** An empty stack (the module-level list starts out empty). */
    constructor ()
      ensures elems == []
    {
      elems := [];
    }

    /** `push(x)`: x becomes the new top. */
    method Push(x: T)
      modifies this
      ensures elems == old(elems) + [x]
    {
      elems := elems + [x];
    }

    /** `pop()`: removes and returns the top; the list's own pop raises on an empty list. */
    method Pop() returns (x: T)
      requires elems != []
      modifies this
      ensures x == old(elems)[|old(elems)| - 1]
      ensures elems == old(elems)[..|old(elems)| - 1]
      ensures old(elems) == elems + [x]
    {
      x := elems[|elems| - 1];
      elems := elems[..|elems| - 1];
    }

    /** `is_empty()`: whether the stack holds no element. */
    method IsEmpty() returns (b: bool)
      ensures b <==> |elems| == 0
    {
      b := |elems| == 0;
    }

    /** `clear()`: whatever the stack held, it is empty afterwards. */
    method Clear()
      modifies this
      ensures elems == []
    {
      elems := [];
    }

    /** `top()`: the top element, left in place; indexing an empty list raises. */
    method Top() returns (x: T)
      requires elems != []
      ensures x == elems[|elems| - 1]
    {
      x := elems[|elems| - 1];
    }
  }

  /** A push followed by a pop returns the pushed value and restores the stack. */
  method PushThenPop<T>(st: Stack<T>, x: T) returns (y: T)
    modifies st
    ensures y == x
    ensures st.elems == old(st.elems)
  {
    st.Push(x);
    y := st.Pop();
  }

  /**
   The module's usage scenario on a fresh stack: empty at first, not empty after three
   pushes, the pops return the values in reverse order and leave it empty, clear() empties
   it again, and top() shows the last pushed value without removing it.
   */
  method LifoScenario<T>(a: T, b: T, c: T, d: T, e: T)
    returns (empty0: bool, empty1: bool, x: T, y: T, z: T, empty2: bool, empty3: bool, t: T, empty4: bool)
    ensures empty0 && !empty1
    ensures x == c && y == b && z == a
    ensures empty2 && empty3
    ensures t == e && !empty4
  {
    var st := new Stack<T>();
    empty0 := st.IsEmpty();
    st.Push(a);
    st.Push(b);
    st.Push(c);
    empty1 := st.IsEmpty();
    x := st.Pop();
    y := st.Pop();
    z := st.Pop();
    empty2 := st.IsEmpty();
    st.Push(d);
    st.Clear();
    empty3 := st.IsEmpty();
    st.Push(e);
    t := st.Top();
    empty4 := st.IsEmpty();
  }
}
