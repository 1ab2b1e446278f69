/** The listener array both stores keep: `push` to register, `indexOf` plus
    `splice(index, 1)` to deregister. A callback is identified by its
    reference, modelled as a number. */
module Listeners {

  type Listener = nat

  /** `listeners.indexOf(f)`: the first position holding `f`, or -1. */
  method IndexOf(listeners: seq<Listener>, f: Listener) returns (index: int)
    ensures -1 <= index < |listeners|
    ensures index == -1 <==> f !in listeners
    ensures 0 <= index ==> listeners[index] == f && f !in listeners[..index]
  {
    index := 0;
    while index < |listeners|
      invariant 0 <= index <= |listeners|
      invariant f !in listeners[..index]
    {
      if listeners[index] == f {
        return;
      }
      index := index + 1;
    }
    assert listeners[..index] == listeners;
    index := -1;
  }

  /** The list after removing the first occurrence of `f`, if any. */
  function RemoveFirst(listeners: seq<Listener>, f: Listener): (r: seq<Listener>)
    ensures f !in listeners ==> r == listeners
    ensures |r| == if f in listeners then |listeners| - 1 else |listeners|
  {
    if listeners == [] then []
    else if listeners[0] == f then listeners[1..]
    else [listeners[0]] + RemoveFirst(listeners[1..], f)
  }

  /** Splicing out the first occurrence found by `indexOf` is `RemoveFirst`. */
  lemma {:induction false} RemoveFirstIsSplice(listeners: seq<Listener>, f: Listener, i: nat)
    requires i < |listeners| && listeners[i] == f && f !in listeners[..i]
    ensures RemoveFirst(listeners, f) == listeners[..i] + listeners[i + 1..]
  {
    if i > 0 {
      assert listeners[0] == listeners[..i][0];
      assert listeners[1..][..i - 1] == listeners[..i][1..];
      RemoveFirstIsSplice(listeners[1..], f, i - 1);
      assert listeners[..i] == [listeners[0]] + listeners[1..][..i - 1];
    }
  }

  /** Exactly one registration of `f` is dropped; duplicates stay registered
      and every other callback keeps its count. */
  lemma {:induction false} RemoveFirstCount(listeners: seq<Listener>, f: Listener)
    ensures multiset(RemoveFirst(listeners, f)) == multiset(listeners) - multiset{f}
  {
    if listeners != [] {
      assert listeners == [listeners[0]] + listeners[1..];
      if listeners[0] != f {
        RemoveFirstCount(listeners[1..], f);
      }
    }
  }

  /** Registering a new callback and then deregistering it restores the list. */
  lemma {:induction false} AddThenRemove(listeners: seq<Listener>, f: Listener)
    requires f !in listeners
    ensures RemoveFirst(listeners + [f], f) == listeners
  {
    RemoveFirstIsSplice(listeners + [f], f, |listeners|);
    assert (listeners + [f])[..|listeners|] == listeners;
  }
}
