/**
 * The type registry (registry.go): a map from event-type name to a
 * prototype value, filled in place with first-registration-wins semantics.
 */
module CqrsRegistry {
  import opened Wrappers
  import opened Cqrs

  /** No element occurs twice. */
  ghost predicate NoDup<T>(s: seq<T>)
  {
    forall i, j :: 0 <= i < j < |s| ==> s[i] != s[j]
  }

  /** The name `Register(v, n)` files `v` under. */
  function KeyFor(v: Value, n: string): string
  {
    if n == "" then Name(v) else n
  }

  /** The registry after `Register(v, n)`: unchanged when the name is taken. */
  function Registered(m: map<string, Value>, v: Value, n: string): map<string, Value>
  {
    var k := KeyFor(v, n);
    if k in m then m else m[k := v]
  }

  /** The registry after registering each of `vs` under its derived name, left to right. */
  function RegisterAll(m: map<string, Value>, vs: seq<Value>): map<string, Value>
  {
    if vs == [] then m else Registered(RegisterAll(m, vs[..|vs| - 1]), vs[|vs| - 1], "")
  }

  /** The derived names of `vs`. */
  function NamesOf(vs: seq<Value>): set<string>
  {
    set v | v in vs :: Name(v)
  }

  /** Index of the first value of `vs` whose derived name is `k`. */
  function FirstNamed(vs: seq<Value>, k: string): (i: nat)
    requires k in NamesOf(vs)
    ensures i < |vs| && Name(vs[i]) == k
    ensures forall j :: 0 <= j < i ==> Name(vs[j]) != k
  {
    if Name(vs[0]) == k then 0
    else
      assert k in NamesOf(vs[1..]) by {
        var v :| v in vs && Name(v) == k;
        assert v != vs[0];
      }
      1 + FirstNamed(vs[1..], k)
  }

  // ---------------------------------------------------------------- lemmas

  /** First registration wins: a taken name leaves the registry as it was. */
  lemma RegisterTaken(m: map<string, Value>, v: Value, n: string)
    requires KeyFor(v, n) in m
    ensures Registered(m, v, n) == m
  {
  }

  /** `Register` adds at most the one key it files under and never changes an existing prototype. */
  lemma RegisterExtends(m: map<string, Value>, v: Value, n: string)
    ensures Registered(m, v, n).Keys == m.Keys + {KeyFor(v, n)}
    ensures forall k :: k in m ==> Registered(m, v, n)[k] == m[k]
    ensures KeyFor(v, n) !in m ==> Registered(m, v, n)[KeyFor(v, n)] == v
  {
  }

  /** Registering a list adds exactly the derived names and keeps every existing entry. */
  lemma {:induction false} RegisterAllKeys(m: map<string, Value>, vs: seq<Value>)
    ensures RegisterAll(m, vs).Keys == m.Keys + NamesOf(vs)
    ensures forall k :: k in m ==> RegisterAll(m, vs)[k] == m[k]
  {
    if vs != [] {
      var init := vs[..|vs| - 1];
      RegisterAllKeys(m, init);
      assert vs == init + [vs[|vs| - 1]];
      assert NamesOf(vs) == NamesOf(init) + {Name(vs[|vs| - 1])};
    }
  }

  /** For a name not yet present, the earliest value of the list carrying it is kept. */
  lemma {:induction false} RegisterAllFirstWins(m: map<string, Value>, vs: seq<Value>, k: string)
    requires k !in m && k in NamesOf(vs)
    ensures k in RegisterAll(m, vs)
    ensures RegisterAll(m, vs)[k] == vs[FirstNamed(vs, k)]
  {
    var init := vs[..|vs| - 1];
    var last := vs[|vs| - 1];
    assert vs == init + [last];
    RegisterAllKeys(m, init);
    if k in NamesOf(init) {
      RegisterAllFirstWins(m, init, k);
      FirstNamedPrefix(init, last, k);
    } else {
      assert Name(last) == k;
      FirstNamedLast(init, last, k);
    }
  }

  lemma FirstNamedPrefix(init: seq<Value>, last: Value, k: string)
    requires k in NamesOf(init)
    ensures k in NamesOf(init + [last]) && FirstNamed(init + [last], k) == FirstNamed(init, k)
  {
    var vs := init + [last];
    assert forall t :: 0 <= t < |init| ==> vs[t] == init[t];
    assert init[FirstNamed(init, k)] in vs;
  }

  lemma FirstNamedLast(init: seq<Value>, last: Value, k: string)
    requires k !in NamesOf(init) && Name(last) == k
    ensures k in NamesOf(init + [last]) && FirstNamed(init + [last], k) == |init|
  {
    var vs := init + [last];
    assert vs[|init|] == last;
    assert forall t :: 0 <= t < |init| ==> vs[t] == init[t] && Name(init[t]) != k;
  }

  /**
   * The keys of `m`, each exactly once, in an unspecified order (the
   * iteration order of a Go `range` over a map).
   */
  method EnumerateKeys<V>(m: map<string, V>) returns (o: seq<string>)
    ensures NoDup(o)
    ensures forall k :: k in o <==> k in m
    ensures |o| == |m|
  {
    o := [];
    var rest := m.Keys;
    while rest != {}
      invariant rest <= m.Keys
      invariant NoDup(o)
      invariant forall k :: k in o <==> k in m && k !in rest
      invariant |o| + |rest| == |m.Keys|
      decreases |rest|
    {
      var k :| k in rest;
      o := o + [k];
      rest := rest - {k};
    }
  }

  /** The registry of registry.go, a map the methods change in place. */
  class Registry {
    var entries: map<string, Value>

    /**
     * `Registry{}.New(events...)`: registers each argument under its derived
     * name, left to right, so a repeated name keeps its earliest argument.
     */
    constructor New(events: seq<Value>)
      ensures entries == RegisterAll(map[], events)
    {
      entries := map[];
      new;
      var i := 0;
      while i < |events|
        invariant 0 <= i <= |events|
        invariant entries == RegisterAll(map[], events[..i])
      {
        assert events[..i + 1][..i] == events[..i];
        var err := Register(events[i], "");
        if err.Some? {
          assert false; // the panic is unreachable: Register never fails
        }
        i := i + 1;
      }
      assert events[..i] == events;
    }

    /** `Register(v, n)`: files `v` under `n` (or its derived name) unless taken; never fails. */
    method Register(v: Value, n: string) returns (err: Option<string>)
      modifies this
      ensures err == None
      ensures entries == Registered(old(entries), v, n)
      ensures Is(KeyFor(v, n))
    {
      var k := n;
      if k == "" {
        k := Name(v);
      }
      if k in entries {
        return None;
      }
      entries := entries[k := v];
      err := None;
    }

    /** `Is(name)`: whether the name is registered, that is, whether `Type(name)` finds a prototype. */
    predicate Is(name: string): (b: bool)
      reads this
      ensures b <==> Type(name).Ok?
    {
      name in entries
    }

    /** `Type(name)`: the prototype, or "not registered". */
    function Type(name: string): (r: Result<Value>)
      reads this
      ensures r.Ok? <==> name in entries
      ensures r.Ok? ==> r.value == entries[name]
      ensures r.Err? ==> r.msg == "not registered"
    {
      if name in entries then Ok(entries[name]) else Err("not registered")
    }

    /** `Names()`: every registered name exactly once, in unspecified order. */
    method Names() returns (o: seq<string>)
      ensures NoDup(o)
      ensures forall k :: k in o <==> Is(k)
      ensures |o| == |entries|
    {
      o := EnumerateKeys(entries);
    }

    /** `List()`: one prototype per registered name, in the order of `keys`. */
    method List() returns (out: seq<Value>, ghost keys: seq<string>)
      ensures NoDup(keys) && |keys| == |entries|
      ensures forall k :: k in keys <==> Is(k)
      ensures |out| == |keys|
      ensures forall i :: 0 <= i < |keys| ==> keys[i] in entries && out[i] == entries[keys[i]]
    {
      out, keys := [], [];
      var rest := entries.Keys;
      while rest != {}
        invariant rest <= entries.Keys
        invariant NoDup(keys) && |out| == |keys|
        invariant forall k :: k in keys <==> k in entries && k !in rest
        invariant forall i :: 0 <= i < |keys| ==> keys[i] in entries && out[i] == entries[keys[i]]
        invariant |keys| + |rest| == |entries.Keys|
        decreases |rest|
      {
        var k :| k in rest;
        out, keys := out + [entries[k]], keys + [k];
        rest := rest - {k};
      }
    }
  }
}
