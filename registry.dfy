/**
 * The `AxiosHooksMock` class: a registry from composite keys to canned
 * `useAxios` results, filled by `addImplementation` and its convenience
 * wrappers, and read by the function `implement()` returns.
 *
 * The registry's map is specified by the pure functions `Register`,
 * `RegisterAll` and `Resolve`; the class's methods are proved against them.
 * The stored implementation (response values and refetch function) is
 * never inspected, so it is the type parameter `P`.
 */
module Registry {
  import opened Wrappers
  import opened Strings
  import opened Request
  import QueryString

  /** One element of the constructor's `mockItems` list. */
  datatype MockItem<P> = MockItem(config: Descriptor, implementation: P)

  /** The key an item is stored under, if its descriptor resolves. */
  function ItemKey<P>(escape: string -> string, item: MockItem<P>): Result<string, Error> {
    CompositeKeyOf(escape, item.config)
  }

  /** Every item's descriptor resolves, so registering the list cannot throw. */
  predicate AllResolve<P>(escape: string -> string, items: seq<MockItem<P>>) {
    forall i :: 0 <= i < |items| ==> ItemKey(escape, items[i]).Success?
  }

  /** The map after `addImplementation(config, p)`: `Map.prototype.set` under the config's key. */
  function Register<P>(escape: string -> string, m: map<string, P>, config: Descriptor, p: P): Result<map<string, P>, Error> {
    match CompositeKeyOf(escape, config)
    case Failure(e) => Failure(e)
    case Success(k) => Success(m[k := p])
  }

  /** The map after registering the items one by one, from the first to the last. */
  function RegisterAll<P>(escape: string -> string, m: map<string, P>, items: seq<MockItem<P>>): Result<map<string, P>, Error>
    decreases |items|
  {
    if items == [] then Success(m)
    else match Register(escape, m, items[0].config, items[0].implementation)
      case Failure(e) => Failure(e)
      case Success(m') => RegisterAll(escape, m', items[1..])
  }

  /** What the function returned by `implement()` answers: the pair under the key, or `undefined`. */
  function Resolve<P>(escape: string -> string, m: map<string, P>, config: Descriptor): Result<Option<P>, Error> {
    match CompositeKeyOf(escape, config)
    case Failure(e) => Failure(e)
    case Success(k) => Success(if k in m then Some(m[k]) else None)
  }

  /** Registering a descriptor and then looking it up returns what was registered. */
  lemma RegisterThenResolve<P>(escape: string -> string, m: map<string, P>, config: Descriptor, p: P)
    ensures Register(escape, m, config, p).Failure? <==> Resolve(escape, m, config).Failure?
    ensures Register(escape, m, config, p).Success? ==>
      Resolve(escape, Register(escape, m, config, p).value, config) == Success(Some(p))
  {
  }

  /**
   * Registering under one descriptor leaves the answer for every descriptor
   * with a different key as it was.
   */
  lemma RegisterFrame<P>(escape: string -> string, m: map<string, P>, config: Descriptor, p: P, other: Descriptor)
    requires Register(escape, m, config, p).Success?
    requires CompositeKeyOf(escape, other) != CompositeKeyOf(escape, config)
    ensures Resolve(escape, Register(escape, m, config, p).value, other) == Resolve(escape, m, other)
  {
  }

  /** Of two registrations under descriptors with the same key, the later one wins. */
  lemma LastWriteWins<P>(escape: string -> string, m: map<string, P>, c1: Descriptor, p1: P, c2: Descriptor, p2: P)
    requires CompositeKeyOf(escape, c1).Success?
    requires CompositeKeyOf(escape, c1) == CompositeKeyOf(escape, c2)
    ensures Register(escape, Register(escape, m, c1, p1).value, c2, p2) == Register(escape, m, c2, p2)
  {
    var k := CompositeKeyOf(escape, c1).value;
    assert m[k := p1][k := p2] == m[k := p2];
  }

  /** Registering the list fails exactly when some item's descriptor does not resolve. */
  lemma {:induction false} RegisterAllFailsIff<P>(escape: string -> string, m: map<string, P>, items: seq<MockItem<P>>)
    ensures RegisterAll(escape, m, items).Success? <==> AllResolve(escape, items)
    decreases |items|
  {
    if items != [] {
      var r := Register(escape, m, items[0].config, items[0].implementation);
      if r.Success? {
        RegisterAllFailsIff(escape, r.value, items[1..]);
        assert forall i :: 1 <= i < |items| ==> items[i] == items[1..][i - 1];
      }
    }
  }

  /** The keys after registering a list: the old keys and the key of every item. */
  lemma {:induction false} RegisterAllKeys<P>(escape: string -> string, m: map<string, P>, items: seq<MockItem<P>>)
    requires AllResolve(escape, items)
    ensures RegisterAll(escape, m, items).Success?
    ensures RegisterAll(escape, m, items).value.Keys
         == m.Keys + set i | 0 <= i < |items| :: ItemKey(escape, items[i]).value
    decreases |items|
  {
    RegisterAllFailsIff(escape, m, items);
    if items != [] {
      var m' := Register(escape, m, items[0].config, items[0].implementation).value;
      var rest := items[1..];
      assert AllResolve(escape, rest) by {
        assert forall i :: 0 <= i < |rest| ==> rest[i] == items[i + 1];
      }
      RegisterAllKeys(escape, m', rest);
      var all := set i | 0 <= i < |items| :: ItemKey(escape, items[i]).value;
      var tail := set i | 0 <= i < |rest| :: ItemKey(escape, rest[i]).value;
      assert all == {ItemKey(escape, items[0]).value} + tail by {
        forall k | k in all ensures k in {ItemKey(escape, items[0]).value} + tail {
          var i :| 0 <= i < |items| && k == ItemKey(escape, items[i]).value;
          if i > 0 { assert rest[i - 1] == items[i]; }
        }
        forall k | k in tail ensures k in all {
          var i :| 0 <= i < |rest| && k == ItemKey(escape, rest[i]).value;
          assert rest[i] == items[i + 1];
        }
      }
    }
  }

  /**
   * On a key collision in the list, the LAST item with that key is the one
   * stored: if item `j` has key `k` and no later item has, the registry maps
   * `k` to item `j`'s implementation, whatever the map held before.
   */
  lemma {:induction false} RegisterAllLastItemWins<P>(escape: string -> string, m: map<string, P>, items: seq<MockItem<P>>, j: nat, k: string)
    requires AllResolve(escape, items)
    requires j < |items| && ItemKey(escape, items[j]) == Success(k)
    requires forall i :: j < i < |items| ==> ItemKey(escape, items[i]) != Success(k)
    ensures RegisterAll(escape, m, items).Success?
    ensures k in RegisterAll(escape, m, items).value
    ensures RegisterAll(escape, m, items).value[k] == items[j].implementation
    decreases |items|
  {
    RegisterAllFailsIff(escape, m, items);
    var m' := Register(escape, m, items[0].config, items[0].implementation).value;
    var rest := items[1..];
    assert forall i :: 0 <= i < |rest| ==> rest[i] == items[i + 1];
    if j == 0 {
      RegisterAllUntouched(escape, m', rest, k);
    } else {
      RegisterAllLastItemWins(escape, m', rest, j - 1, k);
    }
  }

  /** A key no item of the list resolves to keeps whatever the map held for it. */
  lemma {:induction false} RegisterAllUntouched<P>(escape: string -> string, m: map<string, P>, items: seq<MockItem<P>>, k: string)
    requires AllResolve(escape, items)
    requires forall i :: 0 <= i < |items| ==> ItemKey(escape, items[i]) != Success(k)
    ensures RegisterAll(escape, m, items).Success?
    ensures k in RegisterAll(escape, m, items).value <==> k in m
    ensures k in m ==> RegisterAll(escape, m, items).value[k] == m[k]
    decreases |items|
  {
    RegisterAllFailsIff(escape, m, items);
    if items != [] {
      var m' := Register(escape, m, items[0].config, items[0].implementation).value;
      var rest := items[1..];
      assert forall i :: 0 <= i < |rest| ==> rest[i] == items[i + 1];
      RegisterAllUntouched(escape, m', rest, k);
    }
  }

  /** Registering `xs` and then `ys` is registering `xs + ys`: the list is a left fold. */
  lemma {:induction false} RegisterAllAppend<P>(escape: string -> string, m: map<string, P>, xs: seq<MockItem<P>>, ys: seq<MockItem<P>>)
    requires RegisterAll(escape, m, xs).Success?
    ensures RegisterAll(escape, m, xs + ys) == RegisterAll(escape, RegisterAll(escape, m, xs).value, ys)
    decreases |xs|
  {
    if xs == [] {
      assert xs + ys == ys;
    } else {
      assert (xs + ys)[0] == xs[0];
      assert (xs + ys)[1..] == xs[1..] + ys;
      var m' := Register(escape, m, xs[0].config, xs[0].implementation).value;
      RegisterAllAppend(escape, m', xs[1..], ys);
    }
  }

  /** `post(url)` stores under "POST|" + url, which no GET lookup of any string reaches. */
  lemma VerbKeyMissesGet(url: string, verb: string, other: string)
    requires verb in {"POST", "PUT", "PATCH", "DELETE"}
    ensures BuildCompositeKey(url, verb) == verb + "|" + url
    ensures BuildCompositeKey(other, "GET") != BuildCompositeKey(url, verb)
  {
    UpperOfUpperCase(verb);
    UpperOfUpperCase("GET");
    assert BuildCompositeKey(other, "GET")[0] == 'G';
    assert BuildCompositeKey(url, verb)[0] == verb[0];
  }

  /**
   * What `post`, `put`, `patch` or `delete` store is invisible to a lookup
   * of any bare URL, that is, to every GET request made with a string.
   */
  lemma VerbRegistrationInvisibleToGet<P>(escape: string -> string, m: map<string, P>, url: string, verb: string, p: P, other: string)
    requires verb in {"POST", "PUT", "PATCH", "DELETE"}
    ensures Resolve(escape, m[verb + "|" + url := p], Bare(other)) == Resolve(escape, m, Bare(other))
  {
    VerbKeyMissesGet(url, verb, other);
    BareIsGet(escape, other);
    UpperOfUpperCase("GET");
    assert "GET" + "|" + other == "GET|" + other;
  }

  /**
   * Two routes that differ only in their params, registered one after the
   * other, each resolve to their own implementation (given an escaping that
   * keeps distinct parameter lists distinct).
   */
  lemma ParamRoutesDoNotCollide<P>(escape: string -> string, m: map<string, P>, c: Config,
                                   ps1: QueryString.Params, x1: P, ps2: QueryString.Params, x2: P)
    requires QueryString.SafeEscape(escape)
    requires c.url.Some? && ps1 != ps2
    ensures var d1, d2 := Structured(c.(params := Some(ps1))), Structured(c.(params := Some(ps2)));
      && Register(escape, m, d1, x1).Success?
      && Register(escape, Register(escape, m, d1, x1).value, d2, x2).Success?
      && var after := Register(escape, Register(escape, m, d1, x1).value, d2, x2).value;
      && Resolve(escape, after, d1) == Success(Some(x1))
      && Resolve(escape, after, d2) == Success(Some(x2))
  {
    var d1, d2 := Structured(c.(params := Some(ps1))), Structured(c.(params := Some(ps2)));
    ParamsDistinguishKeys(escape, c, ps1, ps2);
    RegisterThenResolve(escape, m, d1, x1);
    var mid := Register(escape, m, d1, x1).value;
    RegisterThenResolve(escape, mid, d2, x2);
    RegisterFrame(escape, mid, d2, x2, d1);
  }

  /** The descriptor the convenience method for `verb` registers: `{ url, method: verb }`. */
  function VerbConfig(url: string, verb: string): Descriptor {
    Structured(Config(Some(url), None, Some(verb), None, map[]))
  }

  /** That descriptor always resolves, to the key `verb + "|" + url` for an upper-case verb. */
  lemma VerbConfigKey(escape: string -> string, url: string, verb: string)
    requires verb in {"GET", "POST", "PUT", "PATCH", "DELETE"}
    ensures CompositeKeyOf(escape, VerbConfig(url, verb)) == Success(verb + "|" + url)
  {
    UpperOfUpperCase(verb);
    assert BasePrefix(url, None) + url + QuerySuffix(escape, None) == url;
    assert DetectUrlAndMethod(escape, VerbConfig(url, verb)) == Success(UrlAndMethod(url, verb));
  }

  /** The mock builder. Aside from `Implement`, every operation hands back the object itself. */
  class AxiosHooksMock<P> {
    /** The `querystring.escape` used when serialising `params`. */
    const escape: string -> string
    /** `private implementations = new Map<string, AxiosHooksTuple>()` */
    var implementations: map<string, P>

    /**
     * `new AxiosHooksMock(mockItems)`: starts empty and registers the items
     * in list order. When an item would throw, there is no object at all:
     * `Construct` reports that case.
     */
    constructor (escape: string -> string, mockItems: Option<seq<MockItem<P>>>)
      requires mockItems.Some? ==> AllResolve(escape, mockItems.value)
      ensures this.escape == escape
      ensures mockItems.None? ==> implementations == map[]
      ensures mockItems.Some? ==> Success(implementations) == RegisterAll(escape, map[], mockItems.value)
    {
      this.escape := escape;
      implementations := map[];
      new;
      if mockItems.Some? {
        var items := mockItems.value;
        RegisterAllFailsIff(escape, map[], items);
        var i := 0;
        while i < |items|
          invariant 0 <= i <= |items|
          invariant this.escape == escape
          invariant RegisterAll(escape, implementations, items[i..]) == RegisterAll(escape, map[], items)
        {
          assert items[i..][0] == items[i] && items[i..][1..] == items[i + 1..];
          var r := AddImplementation(items[i].config, items[i].implementation);
          i := i + 1;
        }
      }
    }

    /** `AxiosHooksMock.construct(mockItems)`; a failure stands for the TypeError thrown while registering. */
    static method Construct(escape: string -> string, mockItems: Option<seq<MockItem<P>>>) returns (r: Result<AxiosHooksMock<P>, Error>)
      ensures r.Failure? <==> mockItems.Some? && !AllResolve(escape, mockItems.value)
      ensures r.Failure? ==> Failure(r.error) == RegisterAll(escape, map[], mockItems.value)
      ensures r.Success? ==> fresh(r.value) && r.value.escape == escape
      ensures r.Success? && mockItems.None? ==> r.value.implementations == map[]
      ensures r.Success? && mockItems.Some? ==> Success(r.value.implementations) == RegisterAll(escape, map[], mockItems.value)
    {
      if mockItems.Some? {
        RegisterAllFailsIff(escape, map[], mockItems.value);
        var all := RegisterAll(escape, map[], mockItems.value);
        if all.Failure? {
          return Failure(all.error);
        }
      }
      var mock := new AxiosHooksMock(escape, mockItems);
      return Success(mock);
    }

    /**
     * `addImplementation(config, implementation)`: stores the implementation
     * under the config's key, overwriting what was there, leaves every other
     * key alone, and returns the object itself. A config without `url`
     * throws before the map is touched.
     */
    method AddImplementation(config: Descriptor, implementation: P) returns (r: Result<AxiosHooksMock<P>, Error>)
      modifies this
      ensures r.Failure? <==> CompositeKeyOf(escape, config).Failure?
      ensures r.Failure? ==> r.error == CompositeKeyOf(escape, config).error && implementations == old(implementations)
      ensures r.Success? ==> r.value == this
      ensures Register(escape, old(implementations), config, implementation).Success? ==>
        Success(implementations) == Register(escape, old(implementations), config, implementation)
      ensures r.Success? ==>
        var k := CompositeKeyOf(escape, config).value;
        && k in implementations && implementations[k] == implementation
        && (forall k' :: k' != k ==> (k' in implementations <==> k' in old(implementations)))
        && (forall k' :: k' != k && k' in old(implementations) ==> implementations[k'] == old(implementations)[k'])
    {
      var detected := DetectUrlAndMethod(escape, config);
      if detected.Failure? {
        return Failure(detected.error);
      }
      var compositeKey := BuildCompositeKey(detected.value.url, detected.value.verb);
      implementations := implementations[compositeKey := implementation];
      return Success(this);
    }

    /** `get(url, implementation)`: the bare URL, that is, GET. */
    method Get(url: string, implementation: P) returns (self: AxiosHooksMock<P>)
      modifies this
      ensures self == this
      ensures implementations == old(implementations)["GET|" + url := implementation]
    {
      BareIsGet(escape, url);
      var r := AddImplementation(Bare(url), implementation);
      self := r.value;
    }

    /** `post(url, implementation)`: registers `{ url, method: 'POST' }`. */
    method Post(url: string, implementation: P) returns (self: AxiosHooksMock<P>)
      modifies this
      ensures self == this
      ensures implementations == old(implementations)["POST|" + url := implementation]
    {
      VerbConfigKey(escape, url, "POST");
      assert "POST" + "|" + url == "POST|" + url;
      var r := AddImplementation(VerbConfig(url, "POST"), implementation);
      self := r.value;
    }

    /** `put(url, implementation)`: registers `{ url, method: 'PUT' }`. */
    method Put(url: string, implementation: P) returns (self: AxiosHooksMock<P>)
      modifies this
      ensures self == this
      ensures implementations == old(implementations)["PUT|" + url := implementation]
    {
      VerbConfigKey(escape, url, "PUT");
      assert "PUT" + "|" + url == "PUT|" + url;
      var r := AddImplementation(VerbConfig(url, "PUT"), implementation);
      self := r.value;
    }

    /** `patch(url, implementation)`: registers `{ url, method: 'PATCH' }`. */
    method Patch(url: string, implementation: P) returns (self: AxiosHooksMock<P>)
      modifies this
      ensures self == this
      ensures implementations == old(implementations)["PATCH|" + url := implementation]
    {
      VerbConfigKey(escape, url, "PATCH");
      assert "PATCH" + "|" + url == "PATCH|" + url;
      var r := AddImplementation(VerbConfig(url, "PATCH"), implementation);
      self := r.value;
    }

    /** `delete(url, implementation)`: registers `{ url, method: 'DELETE' }`. */
    method Delete(url: string, implementation: P) returns (self: AxiosHooksMock<P>)
      modifies this
      ensures self == this
      ensures implementations == old(implementations)["DELETE|" + url := implementation]
    {
      VerbConfigKey(escape, url, "DELETE");
      assert "DELETE" + "|" + url == "DELETE|" + url;
      var r := AddImplementation(VerbConfig(url, "DELETE"), implementation);
      self := r.value;
    }

    /**
     * `implement()`: the returned function keeps a reference to this object,
     * not a copy of its map, so it answers from the map as it is when called.
     */
    method Implement() returns (f: MockImplementation<P>)
      ensures fresh(f) && f.mock == this
    {
      f := new MockImplementation(this);
    }
  }

  /** The arrow function `implement()` returns, closed over `this`. */
  class MockImplementation<P> {
    const mock: AxiosHooksMock<P>

    constructor (mock: AxiosHooksMock<P>)
      ensures this.mock == mock
    {
      this.mock := mock;
    }

    /**
     * One call of the mock in place of `useAxios(config)`: the implementation
     * registered under the config's key at the moment of the call, or
     * `undefined`. It changes nothing.
     */
    method Call(config: Descriptor) returns (response: Result<Option<P>, Error>)
      ensures response.Failure? <==> CompositeKeyOf(mock.escape, config).Failure?
      ensures response.Success? ==>
        var k := CompositeKeyOf(mock.escape, config).value;
        && (response.value.Some? <==> k in mock.implementations)
        && (response.value.Some? ==> response.value.value == mock.implementations[k])
      ensures response == Resolve(mock.escape, mock.implementations, config)
    {
      var detected := DetectUrlAndMethod(mock.escape, config);
      if detected.Failure? {
        return Failure(detected.error);
      }
      var compositeKey := BuildCompositeKey(detected.value.url, detected.value.verb);
      if compositeKey in mock.implementations {
        response := Success(Some(mock.implementations[compositeKey]));
      } else {
        response := Success(None);
      }
    }
  }
}
