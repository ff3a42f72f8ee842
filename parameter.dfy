/** A plugin parameter and the listeners registered with it.  A parameter
    keeps an ordered list of listeners without duplicates and tells each
    of them about every new value; a listener keeps a pointer to the
    parameter it is registered with, and its constructors, destructor and
    assignments keep the two sides in step. */
module Params {
  import opened Clap
  import opened ValueTypes

  /** The list after `std::erase`: every occurrence of x gone, the others in order. */
  function Removed(s: seq<Listener>, x: Listener): (r: seq<Listener>)
    ensures x !in r
    ensures forall i :: 0 <= i < |r| ==> r[i] in s && r[i] != x
    ensures forall i :: 0 <= i < |s| && s[i] != x ==> s[i] in r
    ensures |r| <= |s|
  {
    if s == [] then [] else if s[0] == x then Removed(s[1..], x) else [s[0]] + Removed(s[1..], x)
  }

  /** The list after `addListener`: x appended unless already there. */
  function Added(s: seq<Listener>, x: Listener): (r: seq<Listener>)
    ensures x in r
    ensures forall i :: 0 <= i < |s| ==> s[i] in r
    ensures forall i :: 0 <= i < |r| ==> r[i] in s || r[i] == x
  {
    if x in s then s else s + [x]
  }

  predicate NoDup(s: seq<Listener>)
  {
    forall i, j :: 0 <= i < j < |s| ==> s[i] != s[j]
  }

  /** Adding never introduces a duplicate. */
  lemma AddedNoDup(s: seq<Listener>, x: Listener)
    requires NoDup(s)
    ensures NoDup(Added(s, x))
    ensures x in s ==> Added(s, x) == s
    ensures x !in s ==> Added(s, x) == s + [x]
  {
  }

  /** Removal distributes over concatenation, so it keeps the relative order. */
  lemma {:induction false} RemovedConcat(a: seq<Listener>, b: seq<Listener>, x: Listener)
    ensures Removed(a + b, x) == Removed(a, x) + Removed(b, x)
  {
    if a == [] {
      assert a + b == b;
    } else {
      assert (a + b)[1..] == a[1..] + b;
      RemovedConcat(a[1..], b, x);
    }
  }

  /** Removing what is not there changes nothing. */
  lemma {:induction false} RemovedAbsent(s: seq<Listener>, x: Listener)
    requires x !in s
    ensures Removed(s, x) == s
  {
    if s != [] {
      RemovedAbsent(s[1..], x);
      assert s == [s[0]] + s[1..];
    }
  }

  /** Removal keeps a list duplicate-free. */
  lemma {:induction false} RemovedNoDup(s: seq<Listener>, x: Listener)
    requires NoDup(s)
    ensures NoDup(Removed(s, x))
  {
    if s != [] {
      assert NoDup(s[1..]) by {
        forall i, j | 0 <= i < j < |s[1..]|
          ensures s[1..][i] != s[1..][j]
        {
          assert s[1..][i] == s[i + 1] && s[1..][j] == s[j + 1];
        }
      }
      RemovedNoDup(s[1..], x);
      if s[0] != x {
        var rest := Removed(s[1..], x);
        assert s[0] !in s[1..];
        assert s[0] !in rest;
        forall i, j | 0 <= i < j < |[s[0]] + rest|
          ensures ([s[0]] + rest)[i] != ([s[0]] + rest)[j]
        {
          if i == 0 {
            assert ([s[0]] + rest)[j] == rest[j - 1];
          } else {
            assert ([s[0]] + rest)[i] == rest[i - 1] && ([s[0]] + rest)[j] == rest[j - 1];
          }
        }
      }
    }
  }

  /** Adding a listener that was absent and removing it again restores the list. */
  lemma AddRemoveRestores(s: seq<Listener>, x: Listener)
    requires x !in s
    ensures Removed(Added(s, x), x) == s
  {
    RemovedConcat(s, [x], x);
    RemovedAbsent(s, x);
    assert Removed([x], x) == [];
  }

  /** Removing the only occurrence of x and appending it again moves x to the end. */
  lemma ReAddMovesToEnd(s: seq<Listener>, x: Listener)
    ensures Added(Removed(s, x), x) == Removed(s, x) + [x]
  {
  }

  /** One call `listener->onParameterUpdated(value)`. */
  datatype Delivery = Delivery(listener: Listener, value: real)

  /** One call of an attachment's update callback with (mParam, value). */
  datatype Update = Update(param: Parameter?, value: real)

  class Parameter {
    const id: nat
    const name: string
    const valueType: ValueType
    const index: nat
    var value: real
    var listeners: seq<Listener>

    constructor (id: nat, name: string, valueType: ValueType, index: nat)
      ensures this.id == id && this.name == name && this.valueType == valueType && this.index == index
      ensures value == 0.0 && listeners == []
    {
      this.id := id;
      this.name := name;
      this.valueType := valueType;
      this.index := index;
      value := 0.0;
      listeners := [];
    }

    /** The STEPPED flag of the value type. */
    predicate IsStepped()
    {
      valueType.flags & ParamIsStepped != 0
    }

    /** `nbSteps`: the label count of a stepped type flagged as stepped, 1 otherwise. */
    function NbSteps(): (r: nat)
      ensures r == 0 ==> IsStepped() && valueType.Stepped? && valueType.values == []
      ensures !IsStepped() || !valueType.Stepped? ==> r == 1
      ensures IsStepped() && valueType.Stepped? ==> r == |valueType.values|
    {
      if !IsStepped() then 1
      else if valueType.Stepped? then |valueType.values|
      else 1
    }

    /** `setValue`: store the value, then notify every listener. */
    method SetValue(v: real) returns (calls: seq<Delivery>)
      modifies this
      ensures value == v && listeners == old(listeners)
      ensures |calls| == |listeners|
      ensures forall i :: 0 <= i < |calls| ==> calls[i] == Delivery(listeners[i], v)
    {
      value := v;
      calls := NotifyAll();
    }

    /** `notifyAllParamListeners`: one delivery per listener, in list order,
        each with the current value. */
    method NotifyAll() returns (calls: seq<Delivery>)
      ensures |calls| == |listeners|
      ensures forall i :: 0 <= i < |calls| ==> calls[i] == Delivery(listeners[i], value)
    {
      calls := [];
      var i := 0;
      while i < |listeners|
        invariant 0 <= i <= |listeners|
        invariant |calls| == i
        invariant forall k :: 0 <= k < i ==> calls[k] == Delivery(listeners[k], value)
      {
        calls := calls + [Delivery(listeners[i], value)];
        i := i + 1;
      }
    }

    /** `addListener`: appended only when absent. */
    method AddListener(l: Listener)
      modifies this
      ensures listeners == Added(old(listeners), l) && value == old(value)
    {
      if l !in listeners {
        listeners := listeners + [l];
      }
    }

    /** `removeListener`: every occurrence erased, the others kept in order. */
    method RemoveListener(l: Listener)
      modifies this
      ensures listeners == Removed(old(listeners), l) && value == old(value)
    {
      listeners := Removed(listeners, l);
    }
  }

  /** A listener; `hasCallback` says whether it is an attachment holding a
      non-empty update callback. */
  class Listener {
    var param: Parameter?
    const hasCallback: bool

    /** Registers with a non-null parameter; a null one is left alone. */
    constructor (p: Parameter?, hasCallback: bool, ghost ps: set<Parameter>, ghost ls: set<Listener>)
      modifies p
      ensures param == p && this.hasCallback == hasCallback
      ensures p != null ==> p.listeners == old(p.listeners) + [this] && p.value == old(p.value)
      ensures old(Linked(ps, ls)) && (p != null ==> p in ps) ==> Linked(ps, ls + {this})
    {
      param := p;
      this.hasCallback := hasCallback;
      new;
      if p != null {
        if NoDup(p.listeners) { AddedNoDup(p.listeners, this); }
        p.AddListener(this);
      }
    }

    /** The copy constructor: registers the new listener with the same
        parameter; the original stays registered. */
    constructor Copy(other: Listener, ghost ps: set<Parameter>, ghost ls: set<Listener>)
      modifies other.param
      ensures param == other.param && hasCallback == other.hasCallback
      ensures other.param != null ==>
        other.param.listeners == old(other.param.listeners) + [this]
      ensures old(Linked(ps, ls)) && other in ls ==> Linked(ps, ls + {this})
    {
      param := other.param;
      hasCallback := other.hasCallback;
      new;
      if param != null {
        if NoDup(param.listeners) { AddedNoDup(param.listeners, this); }
        param.AddListener(this);
      }
    }

    /** The move constructor: the new listener takes over `other`'s
        registration, and `other` is left without a parameter. */
    constructor Move(other: Listener, ghost ps: set<Parameter>, ghost ls: set<Listener>)
      modifies other, other.param
      ensures param == old(other.param) && other.param == null && hasCallback == other.hasCallback
      ensures param != null ==>
        param.listeners == Removed(old(other.param.listeners), other) + [this]
      ensures old(Linked(ps, ls)) && other in ls ==> Linked(ps, ls + {this})
    {
      param := other.param;
      hasCallback := other.hasCallback;
      new;
      if param != null {
        if NoDup(param.listeners) { RemovedNoDup(param.listeners, other); }
        param.RemoveListener(other);
        if NoDup(param.listeners) { AddedNoDup(param.listeners, this); }
        param.AddListener(this);
      }
      other.param := null;
    }

    /** The destructor, and the first step of both assignments: leave the
        parameter's list, if there is a parameter. */
    method Unregister(ghost ps: set<Parameter>, ghost ls: set<Listener>)
      modifies param
      ensures param == old(param)
      ensures param != null ==> param.listeners == Removed(old(param.listeners), this)
      ensures old(Linked(ps, ls)) && this in ls ==> Linked(ps, ls - {this}) && Detached(ps, this)
    {
      if param != null {
        if NoDup(param.listeners) { RemovedNoDup(param.listeners, this); }
        param.RemoveListener(this);
      }
    }

    /** Copy assignment: nothing on self-assignment; otherwise leave the old
        parameter, adopt `other`'s and register with it. */
    method CopyAssign(other: Listener, ghost ps: set<Parameter>, ghost ls: set<Listener>)
      modifies this, param, other.param
      ensures other == this ==> param == old(param) && (param != null ==> param.listeners == old(param.listeners))
      ensures param == old(other.param)
      ensures other != this && old(param) != null && old(param) != param ==>
        old(param).listeners == Removed(old(param.listeners), this)
      ensures other != this && param != null && old(param) != param ==>
        param.listeners == Added(old(other.param.listeners), this)
      ensures other != this && param != null && old(param) == param ==>
        param.listeners == Removed(old(param.listeners), this) + [this]
      ensures old(Linked(ps, ls)) && this in ls && other in ls ==> Linked(ps, ls)
    {
      if this == other {
        return;
      }
      ghost var before := param;
      Unregister(ps, ls);
      if before != null {
        ReAddMovesToEnd(old(before.listeners), this);
      }
      Adopt(other, ps, ls - {this});
      assert ls - {this} + {this} == (if this in ls then ls else ls + {this});
    }

    /** The rest of copy assignment: take `other`'s parameter and register with it. */
    method Adopt(other: Listener, ghost ps: set<Parameter>, ghost ls: set<Listener>)
      requires other != this
      modifies this, other.param
      ensures param == old(other.param)
      ensures param != null ==> param.listeners == Added(old(other.param.listeners), this)
      ensures old(Linked(ps, ls)) && old(Detached(ps, this)) && other in ls && this !in ls ==>
        Linked(ps, ls + {this})
    {
      param := other.param;
      if param != null {
        if NoDup(param.listeners) { AddedNoDup(param.listeners, this); }
        param.AddListener(this);
      }
    }

    /** Move assignment: as copy assignment, but the registration of `other`
        is replaced and `other` is left without a parameter. */
    method MoveAssign(other: Listener, ghost ps: set<Parameter>, ghost ls: set<Listener>)
      modifies this, param, other, other.param
      ensures other == this ==> param == old(param) && (param != null ==> param.listeners == old(param.listeners))
      ensures other != this ==> param == old(other.param) && other.param == null
      ensures other != this && old(param) != null && old(param) != param ==>
        old(param).listeners == Removed(old(param.listeners), this)
      ensures other != this && param != null && old(param) != param ==>
        param.listeners == Added(Removed(old(other.param.listeners), other), this)
      ensures other != this && param != null && old(param) == param ==>
        param.listeners == Removed(Removed(old(param.listeners), this), other) + [this]
      ensures old(Linked(ps, ls)) && this in ls && other in ls ==> Linked(ps, ls)
    {
      if this == other {
        return;
      }
      ghost var before := param;
      Unregister(ps, ls);
      if before != null {
        ReAddMovesToEnd(Removed(old(before.listeners), this), other);
      }
      TakeOver(other, ps, ls - {this});
      assert ls - {this} + {this} == (if this in ls then ls else ls + {this});
    }

    /** The rest of move assignment: take `other`'s parameter, replace its
        registration by this one, and leave `other` without a parameter. */
    method TakeOver(other: Listener, ghost ps: set<Parameter>, ghost ls: set<Listener>)
      requires other != this
      modifies this, other, other.param
      ensures param == old(other.param) && other.param == null
      ensures param != null ==> param.listeners == Added(Removed(old(other.param.listeners), other), this)
      ensures old(Linked(ps, ls)) && old(Detached(ps, this)) && other in ls && this !in ls ==>
        Linked(ps, ls + {this})
    {
      param := other.param;
      if param != null {
        if NoDup(param.listeners) { RemovedNoDup(param.listeners, other); }
        param.RemoveListener(other);
        if NoDup(param.listeners) { AddedNoDup(param.listeners, this); }
        param.AddListener(this);
      }
      other.param := null;
    }

    /** `ParameterAttachment::onParameterUpdated`: the callback is invoked
        with (mParam, value) only when one is set. */
    function OnParameterUpdated(v: real): (r: Option<Update>)
      reads this
      ensures r.Some? <==> hasCallback
      ensures r.Some? ==> r.value.value == v && r.value.param == param
    {
      if hasCallback then Some(Update(param, v)) else None
    }
  }

  /** No parameter of the set lists the listener. */
  ghost predicate Detached(ps: set<Parameter>, l: Listener)
    reads ps
  {
    forall p :: p in ps ==> l !in p.listeners
  }

  /** The registration invariant over a set of parameters and listeners: a
      listener is in a parameter's list exactly when it points at that
      parameter, and every list is duplicate-free. */
  ghost predicate Linked(ps: set<Parameter>, ls: set<Listener>)
    reads ps, ls
  {
    && (forall p, l :: p in ps && l in ls ==> (l in p.listeners <==> l.param == p))
    && (forall p :: p in ps ==> NoDup(p.listeners))
    && (forall l :: l in ls && l.param != null ==> l.param in ps)
  }
}
