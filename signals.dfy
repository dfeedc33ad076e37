/**
 * The signal bus of signals.py: a `Signal` (name, data, propagate flag and a
 * one-way alive flag) and a `SignalRouter`, the mediator that keeps, per
 * signal name, the ordered list of handlers and forwards signals to them.
 *
 * Handlers are identity values.  The router stores a weak reference to a
 * handler, which exists only for plain functions and bound methods; weak
 * references compare equal exactly when their targets are the same.
 */
module Signals {
  import opened Wrappers
  import opened PyValues

  /** A handler argument: a plain function, a bound method, or any other object. */
  datatype Callable =
    | Function(code: nat)
    | Method(receiver: nat, code: nat)
    | Builtin(id: nat)

  /** The weak reference the router stores for a function or a bound method. */
  datatype Ref = FunctionRef(code: nat) | MethodRef(receiver: nat, code: nat)

  /** `weakref.ref` for functions, `weakref.WeakMethod` for methods, nothing otherwise. */
  function WeakRef(c: Callable): (r: Option<Ref>)
    ensures r == None <==> c.Builtin?
    ensures c.Function? ==> r == Some(FunctionRef(c.code))
    ensures c.Method? ==> r == Some(MethodRef(c.receiver, c.code))
  {
    match c
    case Function(code) => Some(FunctionRef(code))
    case Method(receiver, code) => Some(MethodRef(receiver, code))
    case Builtin(_) => None
  }

  /** The handler table: signal name to handlers in registration order. */
  type Table = map<string, seq<Ref>>

  predicate NoDuplicates<T(==)>(s: seq<T>)
  {
    forall i, j :: 0 <= i < j < |s| ==> s[i] != s[j]
  }

  /** The router's invariant: no name keeps an empty list, and no list holds a handler twice. */
  predicate WellFormed(t: Table)
  {
    forall name :: name in t ==> t[name] != [] && NoDuplicates(t[name])
  }

  function Reversed<T>(s: seq<T>): (r: seq<T>)
    ensures |r| == |s|
  {
    if s == [] then [] else Reversed(s[1..]) + [s[0]]
  }

  lemma {:induction false} ReversedAt<T>(s: seq<T>, k: nat)
    requires k < |s|
    ensures Reversed(s)[k] == s[|s| - 1 - k]
  {
    if k < |s| - 1 {
      ReversedAt(s[1..], k);
    }
  }

  lemma ReversedInvolution<T>(s: seq<T>)
    ensures Reversed(Reversed(s)) == s
  {
    forall k | 0 <= k < |s|
      ensures Reversed(Reversed(s))[k] == s[k]
    {
      ReversedAt(Reversed(s), k);
      ReversedAt(s, |s| - 1 - k);
    }
  }

  lemma ReversedKeepsElements<T>(s: seq<T>)
    ensures forall x :: x in Reversed(s) <==> x in s
    ensures NoDuplicates(s) ==> NoDuplicates(Reversed(s))
  {
    forall k | 0 <= k < |s|
      ensures Reversed(s)[k] == s[|s| - 1 - k]
    {
      ReversedAt(s, k);
    }
    forall x | x in s
      ensures x in Reversed(s)
    {
      var k :| 0 <= k < |s| && s[k] == x;
      assert Reversed(s)[|s| - 1 - k] == x;
    }
  }

  /** Python's `list.index(x)`: the position of the first occurrence of `x`. */
  function IndexOf<T(==)>(s: seq<T>, x: T): (i: nat)
    requires x in s
    ensures i < |s| && s[i] == x && x !in s[..i]
  {
    if s[0] == x then 0
    else
      var j := IndexOf(s[1..], x);
      assert s[..j + 1] == [s[0]] + s[1..][..j];
      j + 1
  }

  /** Python's `list.remove(x)`: cuts out the first occurrence of `x`, keeping the rest in order. */
  function RemoveFirst<T(==)>(s: seq<T>, x: T): (r: seq<T>)
    requires x in s
    ensures r == s[..IndexOf(s, x)] + s[IndexOf(s, x) + 1..]
    ensures |r| == |s| - 1
  {
    if s[0] == x then s[1..]
    else
      var t := s[1..];
      var j := IndexOf(t, x);
      assert [s[0]] + t[..j] == s[..j + 1];
      assert t[j + 1..] == s[j + 2..];
      [s[0]] + RemoveFirst(t, x)
  }

  /** `remove` takes away one copy of `x` and nothing else. */
  lemma RemoveFirstMultiset<T>(s: seq<T>, x: T)
    requires x in s
    ensures multiset(RemoveFirst(s, x)) == multiset(s) - multiset{x}
  {
    var i := IndexOf(s, x);
    assert s == s[..i] + [x] + s[i + 1..];
  }

  lemma RemoveFirstUnique<T>(s: seq<T>, x: T)
    requires x in s && NoDuplicates(s)
    ensures NoDuplicates(RemoveFirst(s, x))
    ensures x !in RemoveFirst(s, x)
    ensures forall y :: y != x ==> (y in RemoveFirst(s, x) <==> y in s)
  {
    var r := RemoveFirst(s, x);
    RemoveFirstMultiset(s, x);
    assert forall y :: y in r <==> y in multiset(r);
    assert forall y :: y in s <==> y in multiset(s);
    assert multiset(s)[x] == 1 by {
      var k :| 0 <= k < |s| && s[k] == x;
      MultiplicityOfUnique(s, k);
    }
    forall i, j | 0 <= i < j < |r|
      ensures r[i] != r[j]
    {
      if r[i] == r[j] {
        TwiceInMultiset(r, i, j);
        assert multiset(s)[r[i]] >= 2;
        var k :| 0 <= k < |s| && s[k] == r[i] by {
          assert r[i] in multiset(s);
        }
        MultiplicityOfUnique(s, k);
        assert false;
      }
    }
  }

  lemma {:induction false} MultiplicityOfUnique<T>(s: seq<T>, k: nat)
    requires k < |s| && NoDuplicates(s)
    ensures multiset(s)[s[k]] == 1
  {
    if k == 0 {
      assert s == [s[0]] + s[1..];
      assert s[0] !in s[1..];
    } else {
      assert s == [s[0]] + s[1..];
      MultiplicityOfUnique(s[1..], k - 1);
    }
  }

  lemma {:induction false} TwiceInMultiset<T>(s: seq<T>, i: nat, j: nat)
    requires i < j < |s| && s[i] == s[j]
    ensures multiset(s)[s[i]] >= 2
  {
    assert s == s[..i] + [s[i]] + s[i+1..j] + [s[j]] + s[j+1..];
  }

  /** The table after `register(signame, handler)` (signals.py:137-149). */
  function Registered(t: Table, signame: string, handler: Callable): (t': Table)
    ensures WeakRef(handler).None? ==> t' == t
    ensures forall n :: n != signame ==> (n in t' <==> n in t) && (n in t ==> t'[n] == t[n])
    ensures WeakRef(handler).Some? ==> signame in t'
    ensures WeakRef(handler).Some? ==> forall r :: r in t'[signame] <==> r == WeakRef(handler).value || (signame in t && r in t[signame])
    ensures WeakRef(handler).Some? && signame !in t ==> t'[signame] == [WeakRef(handler).value]
    ensures WeakRef(handler).Some? && signame in t && WeakRef(handler).value in t[signame] ==> t' == t
    ensures WeakRef(handler).Some? && signame in t && WeakRef(handler).value !in t[signame] ==>
      t'[signame] == t[signame] + [WeakRef(handler).value]
  {
    match WeakRef(handler)
    case None => t
    case Some(ref) =>
      if signame in t then
        if ref in t[signame] then t else t[signame := t[signame] + [ref]]
      else t[signame := [ref]]
  }

  /** The table after `deregister(signame, handler)` (signals.py:161-176). */
  function Deregistered(t: Table, signame: string, handler: Callable): (t': Table)
    ensures forall n :: n != signame ==> (n in t' <==> n in t) && (n in t ==> t'[n] == t[n])
    ensures signame !in t || WeakRef(handler).None? || WeakRef(handler).value !in t[signame] ==> t' == t
    ensures WeakRef(handler).Some? && signame in t && WeakRef(handler).value in t[signame] ==>
      var rest := RemoveFirst(t[signame], WeakRef(handler).value);
      (signame in t' <==> rest != []) && (signame in t' ==> t'[signame] == rest)
  {
    match WeakRef(handler)
    case None => t
    case Some(ref) =>
      if signame in t && ref in t[signame] then
        var rest := RemoveFirst(t[signame], ref);
        if rest == [] then t - {signame} else t[signame := rest]
      else t
  }

  lemma RegisteredWellFormed(t: Table, signame: string, handler: Callable)
    requires WellFormed(t)
    ensures WellFormed(Registered(t, signame, handler))
  {
    var t' := Registered(t, signame, handler);
    if WeakRef(handler).Some? && signame in t {
      var ref := WeakRef(handler).value;
      if ref !in t[signame] {
        var l := t[signame] + [ref];
        assert t'[signame] == l;
        forall i, j | 0 <= i < j < |l| ensures l[i] != l[j] {
          if j == |l| - 1 {
            assert l[i] in t[signame];
          }
        }
      }
    }
  }

  lemma DeregisteredWellFormed(t: Table, signame: string, handler: Callable)
    requires WellFormed(t)
    ensures WellFormed(Deregistered(t, signame, handler))
  {
    if WeakRef(handler).Some? && signame in t && WeakRef(handler).value in t[signame] {
      RemoveFirstUnique(t[signame], WeakRef(handler).value);
    }
  }

  /**
   * Registering a handler a second time changes nothing: it keeps its first
   * place in the list rather than moving to the end.
   */
  lemma RegisterIdempotent(t: Table, signame: string, handler: Callable)
    ensures Registered(Registered(t, signame, handler), signame, handler) == Registered(t, signame, handler)
    ensures WeakRef(handler).Some? && signame in t && WeakRef(handler).value in t[signame] ==>
      Registered(t, signame, handler) == t
  {
  }

  /**
   * Once deregistered, a handler is no longer listed under that name, the
   * others stay, and the name goes only with its last handler.
   */
  lemma DeregisterRemoves(t: Table, signame: string, handler: Callable)
    requires WellFormed(t) && WeakRef(handler).Some?
    ensures var t' := Deregistered(t, signame, handler);
      signame in t' ==>
        (WeakRef(handler).value !in t'[signame] &&
         forall r :: r != WeakRef(handler).value ==> (r in t'[signame] <==> r in t[signame]))
    ensures var t' := Deregistered(t, signame, handler);
      signame in t' <==> signame in t && t[signame] != [WeakRef(handler).value]
  {
    var ref := WeakRef(handler).value;
    if signame in t && ref in t[signame] {
      var l := t[signame];
      RemoveFirstUnique(l, ref);
      assert |l| == 1 ==> l == [l[0]];
    }
  }

  /** The handlers that stay after `deregister` keep their order: only the removed one is cut out. */
  lemma DeregisterKeepsOrder(t: Table, signame: string, handler: Callable)
    requires WeakRef(handler).Some?
    ensures var t' := Deregistered(t, signame, handler); var ref := WeakRef(handler).value;
      signame in t' && ref in t[signame] ==>
        t'[signame] == t[signame][..IndexOf(t[signame], ref)] + t[signame][IndexOf(t[signame], ref) + 1..]
  {
  }

  /**
   * Two handlers registered under one name in turn are invoked in that order,
   * or the other way round when reversed; a non-propagating signal reaches
   * only the first of them (the second, reversed).
   */
  lemma RegistrationOrder(name: string, h1: Callable, h2: Callable)
    requires WeakRef(h1).Some? && WeakRef(h2).Some? && WeakRef(h1) != WeakRef(h2)
    ensures var t := Registered(Registered(map[], name, h1), name, h2);
      var r1, r2 := WeakRef(h1).value, WeakRef(h2).value;
      && Delivery(t, name, true, true, false) == [r1, r2]
      && Delivery(t, name, true, true, true) == [r2, r1]
      && Delivery(t, name, true, false, false) == [r1]
      && Delivery(t, name, true, false, true) == [r2]
  {
    var r1, r2 := WeakRef(h1).value, WeakRef(h2).value;
    assert Reversed([r1, r2]) == Reversed([r2]) + [r1];
  }

  lemma {:induction false} RemoveLast<T>(s: seq<T>, x: T)
    requires x !in s
    ensures RemoveFirst(s + [x], x) == s
  {
    if s != [] {
      assert (s + [x])[0] == s[0];
      assert (s + [x])[1..] == s[1..] + [x];
      RemoveLast(s[1..], x);
      assert [s[0]] + s[1..] == s;
    }
  }

  /** Deregistering a freshly registered handler restores the table. */
  lemma DeregisterUndoesRegister(t: Table, signame: string, handler: Callable)
    requires WellFormed(t) && WeakRef(handler).Some?
    requires signame !in t || WeakRef(handler).value !in t[signame]
    ensures Deregistered(Registered(t, signame, handler), signame, handler) == t
  {
    var ref := WeakRef(handler).value;
    if signame in t {
      var t1 := t[signame := t[signame] + [ref]];
      assert Registered(t, signame, handler) == t1;
      RemoveLast(t[signame], ref);
      assert t1[signame := t[signame]] == t;
    } else {
      var t1 := t[signame := [ref]];
      assert Registered(t, signame, handler) == t1;
      assert RemoveFirst([ref], ref) == [];
      assert t1 - {signame} == t;
    }
  }

  /**
   * The handlers `forward` invokes (signals.py:109-125): none for a dead
   * signal or a name without handlers; otherwise the snapshot of the name's
   * list, reversed on request, cut down to its first element when the signal
   * does not propagate.
   */
  function Delivery(t: Table, name: string, alive: bool, propagate: bool, reverse: bool): (d: seq<Ref>)
    ensures d == [] <==> !alive || name !in t || t[name] == []
    ensures name in t ==> |d| <= |t[name]|
    ensures !propagate ==> |d| <= 1
    ensures alive && name in t && propagate ==> |d| == |t[name]|
  {
    if !alive || name !in t then []
    else
      var snapshot := if reverse then Reversed(t[name]) else t[name];
      if propagate then snapshot else snapshot[..if |snapshot| < 1 then |snapshot| else 1]
  }

  /** Dead signals and unknown names reach nobody. */
  lemma DeliveryToNobody(t: Table, name: string, alive: bool, propagate: bool, reverse: bool)
    requires !alive || name !in t
    ensures Delivery(t, name, alive, propagate, reverse) == []
  {
  }

  /** A propagating signal reaches every handler, in registration order or exactly reversed. */
  lemma DeliveryOrder(t: Table, name: string, reverse: bool)
    requires name in t
    ensures var d := Delivery(t, name, true, true, reverse);
      |d| == |t[name]| &&
      forall k :: 0 <= k < |d| ==> d[k] == if reverse then t[name][|d| - 1 - k] else t[name][k]
  {
    if reverse {
      forall k | 0 <= k < |t[name]| ensures Reversed(t[name])[k] == t[name][|t[name]| - 1 - k] {
        ReversedAt(t[name], k);
      }
    }
  }

  /**
   * A non-propagating signal reaches exactly one handler of a well-formed
   * table: the first registered one, or the last one when reversed.
   */
  lemma DeliveryNonPropagating(t: Table, name: string, reverse: bool)
    requires WellFormed(t) && name in t
    ensures Delivery(t, name, true, false, reverse) ==
      [if reverse then t[name][|t[name]| - 1] else t[name][0]]
  {
    if reverse {
      ReversedAt(t[name], 0);
    }
  }

  /** In a well-formed table nobody is invoked twice, and only registered handlers are invoked. */
  lemma DeliveryUnique(t: Table, name: string, alive: bool, propagate: bool, reverse: bool)
    requires WellFormed(t)
    ensures var d := Delivery(t, name, alive, propagate, reverse);
      NoDuplicates(d) && forall r :: r in d ==> name in t && r in t[name]
  {
    if alive && name in t {
      ReversedKeepsElements(t[name]);
      var snapshot := if reverse then Reversed(t[name]) else t[name];
      assert forall r :: r in snapshot[..1] ==> r in snapshot;
    }
  }

  /** What an invoked handler does to the bus while it runs. */
  datatype Reaction =
    | Quiet
    | Subscribe(signame: string, handler: Callable)
    | Unsubscribe(signame: string, handler: Callable)
    | KillSignal

  /** The table once one handler has applied its reaction. */
  function Apply(t: Table, reaction: Reaction): Table
  {
    match reaction
    case Subscribe(n, h) => Registered(t, n, h)
    case Unsubscribe(n, h) => Deregistered(t, n, h)
    case _ => t
  }

  lemma ApplyWellFormed(t: Table, reaction: Reaction)
    requires WellFormed(t)
    ensures WellFormed(Apply(t, reaction))
  {
    match reaction
    case Subscribe(n, h) => RegisteredWellFormed(t, n, h);
    case Unsubscribe(n, h) => DeregisteredWellFormed(t, n, h);
    case _ =>
  }

  /** The table once each invoked handler, in turn, has applied its reaction. */
  function Replay(t: Table, invoked: seq<Ref>, react: Ref -> Reaction): (r: Table)
    ensures (forall k :: 0 <= k < |invoked| ==> react(invoked[k]).Quiet? || react(invoked[k]).KillSignal?) ==> r == t
    decreases |invoked|
  {
    if invoked == [] then t
    else
      Apply(Replay(t, invoked[..|invoked| - 1], react), react(invoked[|invoked| - 1]))
  }

  /** A name no invoked handler subscribes to or unsubscribes from keeps its list. */
  lemma {:induction false} ReplayElsewhere(t: Table, invoked: seq<Ref>, react: Ref -> Reaction, name: string)
    requires forall k :: 0 <= k < |invoked| ==>
      react(invoked[k]).Quiet? || react(invoked[k]).KillSignal? || react(invoked[k]).signame != name
    ensures var r := Replay(t, invoked, react);
      (name in r <==> name in t) && (name in t ==> r[name] == t[name])
    decreases |invoked|
  {
    if invoked != [] {
      var prefix := invoked[..|invoked| - 1];
      assert forall k :: 0 <= k < |prefix| ==> prefix[k] == invoked[k];
      ReplayElsewhere(t, prefix, react, name);
    }
  }

  lemma {:induction false} ReplayWellFormed(t: Table, invoked: seq<Ref>, react: Ref -> Reaction)
    requires WellFormed(t)
    ensures WellFormed(Replay(t, invoked, react))
    decreases |invoked|
  {
    if invoked != [] {
      ReplayWellFormed(t, invoked[..|invoked| - 1], react);
      ApplyWellFormed(Replay(t, invoked[..|invoked| - 1], react), react(invoked[|invoked| - 1]));
    }
  }

  /** Which attribute of a signal a caller tries to assign. */
  datatype Attribute = Name | Data | Propagate | IsAlive

  /** A data-carrying signal (signals.py:11-82). */
  class Signal {
    const name: string
    const data: map<string, Value>
    const propagate: bool
    var isAlive: bool

    /** A new signal is alive (signals.py:23-33). */
    constructor (name: string, data: map<string, Value>, propagate: bool)
      ensures this.name == name && this.data == data && this.propagate == propagate
      ensures isAlive
    {
      this.name := name;
      this.data := data;
      this.propagate := propagate;
      isAlive := true;
    }

    /** Prevents this signal from being handled (signals.py:80-82). */
    method Kill()
      modifies this
      ensures !isAlive
    {
      isAlive := false;
    }

    /**
     * Assigning any of the four properties raises `AttributeError` and
     * changes nothing (signals.py:42-77).
     */
    method Assign(attribute: Attribute) returns (raised: Exception)
      ensures raised == AttributeError(
        if attribute == Data then "This attribute cannot be reassigned" else "This attribute is read-only")
    {
      if attribute == Data {
        raised := AttributeError("This attribute cannot be reassigned");
      } else {
        raised := AttributeError("This attribute is read-only");
      }
    }
  }

  /** The mediator of signals.py:85-176. */
  class SignalRouter {
    var handlers: Table

    ghost predicate Valid()
      reads this
    {
      WellFormed(handlers)
    }

    constructor ()
      ensures Valid() && handlers == map[]
    {
      handlers := map[];
    }

    method Register(signame: string, handler: Callable)
      requires Valid()
      modifies this
      ensures Valid()
      ensures handlers == Registered(old(handlers), signame, handler)
    {
      RegisteredWellFormed(handlers, signame, handler);
      var ref: Ref;
      match WeakRef(handler) {
        case None => return;
        case Some(r) => ref := r;
      }
      if signame in handlers {
        if ref !in handlers[signame] {
          handlers := handlers[signame := handlers[signame] + [ref]];
        }
      } else {
        handlers := handlers[signame := [ref]];
      }
    }

    method Deregister(signame: string, handler: Callable)
      requires Valid()
      modifies this
      ensures Valid()
      ensures handlers == Deregistered(old(handlers), signame, handler)
    {
      DeregisteredWellFormed(handlers, signame, handler);
      var ref: Ref;
      match WeakRef(handler) {
        case None => return;
        case Some(r) => ref := r;
      }
      if signame in handlers && ref in handlers[signame] {
        handlers := handlers[signame := RemoveFirst(handlers[signame], ref)];
        if handlers[signame] == [] {
          handlers := handlers - {signame};
        }
      }
    }

    /** Runs one handler, which applies its reaction to the bus (signals.py:125). */
    method Handle(signal: Signal, reaction: Reaction)
      requires Valid()
      modifies this, signal
      ensures Valid()
      ensures handlers == Apply(old(handlers), reaction)
      ensures signal.isAlive == (old(signal.isAlive) && reaction != KillSignal)
    {
      match reaction {
        case Subscribe(n, c) => Register(n, c);
        case Unsubscribe(n, c) => Deregister(n, c);
        case KillSignal => signal.Kill();
        case Quiet =>
      }
    }

    /**
     * Forwards `signal` (signals.py:96-125) and returns the handlers it
     * invoked, in order; `react` says what each handler does while it runs.
     * The invoked handlers are fixed by the table as it was on entry, however
     * the handlers change the table; the table ends as their reactions made it.
     */
    method Forward(signal: Signal, reverse: bool, react: Ref -> Reaction) returns (invoked: seq<Ref>)
      requires Valid()
      modifies this, signal
      ensures Valid()
      ensures invoked == Delivery(old(handlers), signal.name, old(signal.isAlive), signal.propagate, reverse)
      ensures handlers == Replay(old(handlers), invoked, react)
      ensures !old(signal.isAlive) ==> !signal.isAlive
      ensures signal.name in old(handlers) && !signal.propagate ==> !signal.isAlive
      ensures (exists k :: 0 <= k < |invoked| && react(invoked[k]) == KillSignal) ==> !signal.isAlive
      ensures !signal.isAlive ==>
        (|| !old(signal.isAlive)
         || (signal.name in old(handlers) && !signal.propagate)
         || exists k :: 0 <= k < |invoked| && react(invoked[k]) == KillSignal)
    {
      invoked := [];
      if !(signal.isAlive && signal.name in handlers) {
        return;
      }
      var list := handlers[signal.name];
      if reverse {
        list := Reversed(list);
      }
      if !signal.propagate {
        signal.Kill();
        list := list[..if |list| < 1 then |list| else 1];
      }
      invoked := list;
      InvokeAll(signal, list, react);
    }

    /** Runs the handlers of `list` in turn (signals.py:122-125). */
    method InvokeAll(signal: Signal, list: seq<Ref>, react: Ref -> Reaction)
      requires Valid()
      modifies this, signal
      ensures Valid()
      ensures handlers == Replay(old(handlers), list, react)
      ensures signal.isAlive <==> old(signal.isAlive) && forall k :: 0 <= k < |list| ==> react(list[k]) != KillSignal
    {
      var i := 0;
      while i < |list|
        invariant 0 <= i <= |list|
        invariant Valid()
        invariant handlers == Replay(old(handlers), list[..i], react)
        invariant signal.isAlive <==> old(signal.isAlive) && forall k :: 0 <= k < i ==> react(list[k]) != KillSignal
      {
        Handle(signal, react(list[i]));
        assert list[..i + 1][..i] == list[..i];
        i := i + 1;
      }
      assert list[..i] == list;
    }
  }
}
