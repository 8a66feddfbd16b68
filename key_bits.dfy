/**
  The cache-key "bits" of the key constructor: each bit turns the context of a
  request (view, view method, request, positional and keyword arguments) into one
  fragment of a cache key.

  Python dictionaries whose values may be `None` are `map<string, Option<V>>`;
  the text coercion of a value (`force_text`) and the header-name normaliser
  (`prepare_header_name`) are function-typed parameters, since their bodies are
  not part of this model.
*/
module KeyBits {
  import opened Wrappers

  /** The exceptions the source raises on malformed configuration. */
  datatype KeyBitError =
    | ParamsNotIterable          // `for key in None`: a TypeError
    | IndexOutOfRange(index: int) // `args[i]` with `i` out of range: an IndexError

  /** The authenticated-user reference of a request. */
  datatype User<V> = User(id: V, truthy: bool, isAuthenticated: bool)

  /** The parts of a request the bits read: `META`, `GET` and, optionally, `user`. */
  datatype Request<V> = Request(
    meta: map<string, Option<V>>,
    queryParams: map<string, Option<V>>,
    user: Option<User<V>>)

  /**
    A view instance: its module and class name, and the two optional pagination
    attributes that the pagination bit checks with `hasattr`.
  */
  datatype View = View(
    moduleName: string,
    className: string,
    pageKwarg: Option<string>,
    paginateByParam: Option<string>)

  /** The view method being called; only its `__name__` is read. */
  datatype ViewMethod = ViewMethod(name: string)

  // ---------------------------------------------------------------------------
  // Text helpers: `str.lower` and dotted joins
  // ---------------------------------------------------------------------------

  predicate IsLowerCase(s: string) {
    forall i :: 0 <= i < |s| ==> !('A' <= s[i] <= 'Z')
  }

  /** Lower-cases one ASCII letter and leaves every other character alone. */
  function LowerChar(c: char): (d: char)
    ensures !('A' <= d <= 'Z')
    ensures 'A' <= c <= 'Z' ==> d as int == c as int + 32
    ensures !('A' <= c <= 'Z') ==> d == c
  {
    if 'A' <= c <= 'Z' then (c as int + 32) as char else c
  }

  /** `s.lower()`, restricted to ASCII letters. */
  function Lower(s: string): (r: string)
    ensures |r| == |s|
    ensures forall i :: 0 <= i < |s| ==> r[i] == LowerChar(s[i])
    ensures IsLowerCase(r)
  {
    seq(|s|, i requires 0 <= i < |s| => LowerChar(s[i]))
  }

  /** `'.'.join(parts)`. */
  function JoinDotted(parts: seq<string>): string {
    if |parts| == 0 then ""
    else if |parts| == 1 then parts[0]
    else parts[0] + "." + JoinDotted(parts[1..])
  }

  /** In `m + "." + c` with a dot-free `c`, the dot after `m` is the last one. */
  lemma LastDotAt(m: string, c: string)
    requires '.' !in c
    ensures (m + "." + c)[|m|] == '.'
    ensures forall i :: |m| < i < |m| + 1 + |c| ==> (m + "." + c)[i] != '.'
  {
  }

  /**
    A dotted name whose last component has no dot determines both its prefix
    and that component.
  */
  lemma {:induction false} DottedNameDetermined(m1: string, c1: string, m2: string, c2: string)
    requires '.' !in c1 && '.' !in c2
    requires m1 + "." + c1 == m2 + "." + c2
    ensures m1 == m2 && c1 == c2
  {
    var s := m1 + "." + c1;
    LastDotAt(m1, c1);
    LastDotAt(m2, c2);
    assert |m1| <= |m2| by { assert s[|m1|] == '.'; }
    assert |m2| <= |m1| by { assert s[|m2|] == '.'; }
    assert m1 == s[..|m1|] == m2;
    assert c1 == s[|m1| + 1..] == c2;
  }

  // ---------------------------------------------------------------------------
  // Identity bits
  // ---------------------------------------------------------------------------

  /** UniqueViewIdKeyBit: `<module>.<class name>` of the view. */
  function UniqueViewId(view: View): (r: string)
    ensures r == view.moduleName + "." + view.className
  {
    var parts := [view.moduleName, view.className];
    assert parts[1..] == [view.className];
    assert JoinDotted(parts[1..]) == view.className;
    JoinDotted(parts)
  }

  /** UniqueMethodIdKeyBit: `<module>.<class name>.<method name>`. */
  function UniqueMethodId(view: View, viewMethod: ViewMethod): (r: string)
    ensures r == view.moduleName + "." + view.className + "." + viewMethod.name
    ensures r == UniqueViewId(view) + "." + viewMethod.name
  {
    var parts := [view.moduleName, view.className, viewMethod.name];
    assert parts[1..] == [view.className, viewMethod.name];
    assert parts[1..][1..] == [viewMethod.name];
    assert JoinDotted(parts[1..][1..]) == viewMethod.name;
    assert JoinDotted(parts[1..]) == view.className + "." + viewMethod.name;
    JoinDotted(parts)
  }

  /**
    Classes defined by a `class` statement have dot-free names, so distinct views (module, class) get
    distinct view identifiers.
  */
  lemma UniqueViewIdInjective(v1: View, v2: View)
    requires '.' !in v1.className && '.' !in v2.className
    requires UniqueViewId(v1) == UniqueViewId(v2)
    ensures v1.moduleName == v2.moduleName && v1.className == v2.className
  {
    DottedNameDetermined(v1.moduleName, v1.className, v2.moduleName, v2.className);
  }

  /** A method identifier determines the view identity and the method name. */
  lemma UniqueMethodIdInjective(v1: View, m1: ViewMethod, v2: View, m2: ViewMethod)
    requires '.' !in v1.className && '.' !in v2.className
    requires '.' !in m1.name && '.' !in m2.name
    requires UniqueMethodId(v1, m1) == UniqueMethodId(v2, m2)
    ensures v1.moduleName == v2.moduleName && v1.className == v2.className
    ensures m1.name == m2.name
  {
    DottedNameDetermined(UniqueViewId(v1), m1.name, UniqueViewId(v2), m2.name);
    UniqueViewIdInjective(v1, v2);
  }

  // ---------------------------------------------------------------------------
  // User bit
  // ---------------------------------------------------------------------------

  /** The request has a user that is truthy and reports itself authenticated. */
  predicate HasAuthenticatedUser<V>(request: Request<V>) {
    request.user.Some? && request.user.value.truthy && request.user.value.isAuthenticated
  }

  /** UserKeyBit: the text of the user's id, or the literal "anonymous". */
  function UserKey<V>(request: Request<V>, toText: V -> string): (r: string)
    ensures HasAuthenticatedUser(request) ==> r == toText(request.user.value.id)
    ensures !HasAuthenticatedUser(request) ==> r == "anonymous"
  {
    if HasAuthenticatedUser(request) then toText(request.user.value.id)
    else "anonymous"
  }

  // ---------------------------------------------------------------------------
  // Args bit
  // ---------------------------------------------------------------------------

  /** Python accepts `args[i]` for `-len(args) <= i < len(args)`. */
  predicate IndexInRange(i: int, len: nat) {
    -(len as int) <= i < len
  }

  /** The position `args[i]` denotes, negative indices counting from the end. */
  function Position(i: int, len: nat): (p: nat)
    requires IndexInRange(i, len)
    ensures p < len
    ensures 0 <= i ==> p == i
    ensures i < 0 ==> p + (-i) == len
  {
    if 0 <= i then i else len + i
  }

  /**
    `[args[i] for i in indices]`: evaluated left to right, so the first index
    that is out of range raises.
  */
  function SelectArgs<A>(indices: seq<int>, args: seq<A>): (r: Result<seq<A>, KeyBitError>)
    ensures r.Success? <==> forall j :: 0 <= j < |indices| ==> IndexInRange(indices[j], |args|)
    ensures r.Success? ==> |r.value| == |indices|
    ensures r.Success? ==> forall j :: 0 <= j < |indices| ==>
      r.value[j] == args[Position(indices[j], |args|)]
    ensures r.Failure? ==> exists j :: (0 <= j < |indices| &&
      !IndexInRange(indices[j], |args|) && r.error == IndexOutOfRange(indices[j]) &&
      forall j' :: 0 <= j' < j ==> IndexInRange(indices[j'], |args|))
  {
    if indices == [] then Success([])
    else if !IndexInRange(indices[0], |args|) then Failure(IndexOutOfRange(indices[0]))
    else
      match SelectArgs(indices[1..], args)
      case Success(rest) =>
        assert forall j :: 1 <= j < |indices| ==> indices[j] == indices[1..][j - 1];
        Success([args[Position(indices[0], |args|)]] + rest)
      case Failure(e) =>
        assert forall j :: 1 <= j < |indices| ==> indices[j] == indices[1..][j - 1];
        Failure(e)
  }

  /**
    ArgsKeyBit: the positional arguments unchanged when the bit was built
    without params, otherwise those at the configured indices. It reads the
    bit's own `params` field, not the `params` argument of `get_data`.
  */
  function ArgsKey<A>(bitParams: Option<seq<int>>, args: seq<A>): (r: Result<seq<A>, KeyBitError>)
    ensures bitParams.None? ==> r == Success(args)
    ensures bitParams.Some? ==> r == SelectArgs(bitParams.value, args)
  {
    match bitParams
    case None => Success(args)
    case Some(indices) => SelectArgs(indices, args)
  }

  // ---------------------------------------------------------------------------
  // Dict-source bits: the shared projection
  // ---------------------------------------------------------------------------

  /** `source.get(key)` followed by the `is not None` test. */
  function Lookup<V>(source: map<string, Option<V>>, key: string): (r: Option<V>)
    ensures r.Some? <==> key in source && source[key].Some?
    ensures r.Some? ==> r == source[key]
  {
    if key in source then source[key] else None
  }

  /** The default key hooks of the dict base class. */
  function Identity(key: string): string {
    key
  }

  /**
    Specification of the dict base `get_data`: walk `params` in order, and for
    each field whose retrieval key holds a value that is not `None`, store its
    text under the assignment key; a later field overwrites an earlier one.
  */
  function Projected<V>(
    params: seq<string>, source: map<string, Option<V>>,
    retrieve: string -> string, assign: string -> string, toText: V -> string): map<string, string>
  {
    if params == [] then map[]
    else
      var previous := Projected(params[..|params| - 1], source, retrieve, assign, toText);
      var key := params[|params| - 1];
      match Lookup(source, retrieve(key))
      case Some(v) => previous[assign(key) := toText(v)]
      case None => previous
  }

  /** Field `params[j]` yields a value that is stored under `key`. */
  predicate Hits<V>(
    params: seq<string>, j: int, key: string, source: map<string, Option<V>>,
    retrieve: string -> string, assign: string -> string)
  {
    0 <= j < |params| && assign(params[j]) == key && Lookup(source, retrieve(params[j])).Some?
  }

  /**
    KeyBitDictBase.get_data: builds the result by updating a map field by
    field, as the source does.
  */
  method DictKeyBitData<V>(
    params: seq<string>, source: map<string, Option<V>>,
    retrieve: string -> string, assign: string -> string, toText: V -> string)
    returns (data: map<string, string>)
    ensures data == Projected(params, source, retrieve, assign, toText)
    ensures params == [] ==> data == map[]
  {
    data := map[];
    var i := 0;
    while i < |params|
      invariant 0 <= i <= |params|
      invariant data == Projected(params[..i], source, retrieve, assign, toText)
    {
      var key := params[i];
      assert params[..i + 1][..i] == params[..i];
      var value := Lookup(source, retrieve(key));
      if value.Some? {
        data := data[assign(key) := toText(value.value)];
      }
      i := i + 1;
    }
    assert params[..i] == params;
  }

  /** A key is in the projection exactly when some field hits it. */
  lemma {:induction false} ProjectedKeys<V>(
    params: seq<string>, source: map<string, Option<V>>,
    retrieve: string -> string, assign: string -> string, toText: V -> string, key: string)
    ensures key in Projected(params, source, retrieve, assign, toText) <==>
      exists j :: Hits(params, j, key, source, retrieve, assign)
  {
    if params != [] {
      var n := |params| - 1;
      var prefix := params[..n];
      ProjectedKeys(prefix, source, retrieve, assign, toText, key);
      forall j | 0 <= j < n
        ensures Hits(prefix, j, key, source, retrieve, assign) <==> Hits(params, j, key, source, retrieve, assign)
      {
        assert prefix[j] == params[j];
      }
      var whole := Projected(params, source, retrieve, assign, toText);
      assert Hits(params, n, key, source, retrieve, assign) ==> key in whole;
      assert key in Projected(prefix, source, retrieve, assign, toText) ==> key in whole;
      if key in whole && !Hits(params, n, key, source, retrieve, assign) {
        var j :| Hits(prefix, j, key, source, retrieve, assign);
        assert Hits(params, j, key, source, retrieve, assign);
      }
    }
  }

  /** The value under a key is the text of the LAST field that hits it. */
  lemma {:induction false} ProjectedLastHit<V>(
    params: seq<string>, source: map<string, Option<V>>,
    retrieve: string -> string, assign: string -> string, toText: V -> string, j: int)
    requires 0 <= j < |params| && Lookup(source, retrieve(params[j])).Some?
    requires forall j' :: j < j' < |params| ==> !Hits(params, j', assign(params[j]), source, retrieve, assign)
    ensures assign(params[j]) in Projected(params, source, retrieve, assign, toText)
    ensures Projected(params, source, retrieve, assign, toText)[assign(params[j])] ==
      toText(Lookup(source, retrieve(params[j])).value)
  {
    var n := |params| - 1;
    if j < n {
      var prefix := params[..n];
      assert prefix[j] == params[j];
      forall j' | j < j' < |prefix|
        ensures !Hits(prefix, j', assign(prefix[j]), source, retrieve, assign)
      {
        assert prefix[j'] == params[j'];
        assert !Hits(params, j', assign(params[j]), source, retrieve, assign);
      }
      ProjectedLastHit(prefix, source, retrieve, assign, toText, j);
      assert !Hits(params, n, assign(params[j]), source, retrieve, assign);
    }
  }

  /** The set of assignment keys of the fields. */
  function AssignedKeys(params: seq<string>, assign: string -> string): set<string> {
    set k | k in params :: assign(k)
  }

  /**
    Reference definition for hooks where retrieval goes through the assigned
    key: every assigned key whose retrieval key holds a non-`None` value, carrying
    the text of that value.
  */
  function LookedUpAt<V>(
    keys: set<string>, source: map<string, Option<V>>,
    lookupKey: string -> string, toText: V -> string): map<string, string>
  {
    map a | a in keys && Lookup(source, lookupKey(a)).Some? :: toText(Lookup(source, lookupKey(a)).value)
  }

  /**
    When the retrieval key is a function of the assignment key, the order of
    the fields does not matter and the projection is the reference map.
  */
  lemma {:induction false} ProjectedFactored<V>(
    params: seq<string>, source: map<string, Option<V>>,
    retrieve: string -> string, assign: string -> string, lookupKey: string -> string,
    toText: V -> string)
    requires forall k :: k in params ==> retrieve(k) == lookupKey(assign(k))
    ensures Projected(params, source, retrieve, assign, toText) ==
      LookedUpAt(AssignedKeys(params, assign), source, lookupKey, toText)
  {
    if params == [] {
      assert AssignedKeys(params, assign) == {};
    } else {
      var n := |params| - 1;
      var prefix := params[..n];
      var k := params[n];
      assert params == prefix + [k];
      assert forall x :: x in prefix ==> x in params;
      ProjectedFactored(prefix, source, retrieve, assign, lookupKey, toText);
      assert AssignedKeys(params, assign) == AssignedKeys(prefix, assign) + {assign(k)};
      var before := LookedUpAt(AssignedKeys(prefix, assign), source, lookupKey, toText);
      var after := LookedUpAt(AssignedKeys(params, assign), source, lookupKey, toText);
      assert retrieve(k) == lookupKey(assign(k));
      match Lookup(source, retrieve(k))
      case Some(v) =>
        assert after == before[assign(k) := toText(v)];
      case None =>
        assert after == before;
    }
  }

  /**
    With the default identity hooks the projection is the source map restricted
    to the listed fields whose value is not `None`, values coerced to text.
  */
  lemma {:induction false} IdentityHooksSubMap<V>(params: seq<string>, source: map<string, Option<V>>, toText: V -> string)
    ensures Projected(params, source, Identity, Identity, toText) ==
      map k | k in params && k in source && source[k].Some? :: toText(source[k].value)
  {
    ProjectedFactored(params, source, Identity, Identity, Identity, toText);
    assert AssignedKeys(params, Identity) == set k | k in params;
  }

  // ---------------------------------------------------------------------------
  // Dict-source bits: the specialisations
  // ---------------------------------------------------------------------------

  /** HeadersKeyBit's retrieval hook: `prepare_header_name(key.lower())`. */
  function HeaderRetrieval(prepareHeaderName: string -> string): string -> string {
    k => prepareHeaderName(Lower(k))
  }

  /**
    HeadersKeyBit: every output key is lower-case, and for each lower-cased
    field name the value is the text of `META[prepare_header_name(name)]`.
  */
  lemma {:induction false} HeadersProjection<V>(
    params: seq<string>, meta: map<string, Option<V>>,
    prepareHeaderName: string -> string, toText: V -> string)
    ensures Projected(params, meta, HeaderRetrieval(prepareHeaderName), Lower, toText) ==
      LookedUpAt(AssignedKeys(params, Lower), meta, prepareHeaderName, toText)
    ensures forall a :: a in Projected(params, meta, HeaderRetrieval(prepareHeaderName), Lower, toText) ==>
      IsLowerCase(a)
  {
    ProjectedFactored(params, meta, HeaderRetrieval(prepareHeaderName), Lower, prepareHeaderName, toText);
  }

  /** HeadersKeyBit.get_data; `params` of `None` is not iterable. */
  method HeadersKeyBitData<V>(
    params: Option<seq<string>>, request: Request<V>,
    prepareHeaderName: string -> string, toText: V -> string)
    returns (r: Result<map<string, string>, KeyBitError>)
    ensures params.None? ==> r == Failure(ParamsNotIterable)
    ensures params.Some? ==> (r.Success? &&
      r.value == LookedUpAt(AssignedKeys(params.value, Lower), request.meta, prepareHeaderName, toText))
    ensures r.Success? ==> forall a :: a in r.value ==> IsLowerCase(a)
  {
    if params.None? {
      return Failure(ParamsNotIterable);
    }
    var data := DictKeyBitData(params.value, request.meta, HeaderRetrieval(prepareHeaderName), Lower, toText);
    HeadersProjection(params.value, request.meta, prepareHeaderName, toText);
    r := Success(data);
  }

  /** RequestMetaKeyBit.get_data: `META` with the identity hooks. */
  method RequestMetaKeyBitData<V>(params: Option<seq<string>>, request: Request<V>, toText: V -> string)
    returns (r: Result<map<string, string>, KeyBitError>)
    ensures params.None? ==> r == Failure(ParamsNotIterable)
    ensures params.Some? ==> r == Success(map k | k in params.value && k in request.meta &&
      request.meta[k].Some? :: toText(request.meta[k].value))
  {
    if params.None? {
      return Failure(ParamsNotIterable);
    }
    var data := DictKeyBitData(params.value, request.meta, Identity, Identity, toText);
    IdentityHooksSubMap(params.value, request.meta, toText);
    r := Success(data);
  }

  /** QueryParamsKeyBit.get_data: `GET` with the identity hooks. */
  method QueryParamsKeyBitData<V>(params: Option<seq<string>>, request: Request<V>, toText: V -> string)
    returns (r: Result<map<string, string>, KeyBitError>)
    ensures params.None? ==> r == Failure(ParamsNotIterable)
    ensures params.Some? ==> r == Success(map k | k in params.value && k in request.queryParams &&
      request.queryParams[k].Some? :: toText(request.queryParams[k].value))
  {
    if params.None? {
      return Failure(ParamsNotIterable);
    }
    var data := DictKeyBitData(params.value, request.queryParams, Identity, Identity, toText);
    IdentityHooksSubMap(params.value, request.queryParams, toText);
    r := Success(data);
  }

  /**
    The fields PaginationKeyBit queries: `page_kwarg`, then `paginate_by_param`,
    each only when the view defines it.
  */
  function PaginationFields(view: View): (fields: seq<string>)
    ensures forall f :: f in fields <==> view.pageKwarg == Some(f) || view.paginateByParam == Some(f)
    ensures |fields| == (if view.pageKwarg.Some? then 1 else 0) + (if view.paginateByParam.Some? then 1 else 0)
    ensures view.pageKwarg.Some? ==> fields[0] == view.pageKwarg.value
    ensures view.paginateByParam.Some? ==> fields[|fields| - 1] == view.paginateByParam.value
  {
    (if view.pageKwarg.Some? then [view.pageKwarg.value] else []) +
    (if view.paginateByParam.Some? then [view.paginateByParam.value] else [])
  }

  /**
    PaginationKeyBit.get_data: discards the incoming `params`, builds the field
    list from the view's pagination attributes and projects `GET` with it.
  */
  method PaginationKeyBitData<V>(params: Option<seq<string>>, view: View, request: Request<V>, toText: V -> string)
    returns (data: map<string, string>)
    ensures data == map f | f in PaginationFields(view) && f in request.queryParams &&
      request.queryParams[f].Some? :: toText(request.queryParams[f].value)
    ensures view.pageKwarg.None? && view.paginateByParam.None? ==> data == map[]
  {
    var fields: seq<string> := [];
    if view.pageKwarg.Some? {
      fields := fields + [view.pageKwarg.value];
    }
    if view.paginateByParam.Some? {
      fields := fields + [view.paginateByParam.value];
    }
    assert fields == PaginationFields(view);
    data := DictKeyBitData(fields, request.queryParams, Identity, Identity, toText);
    IdentityHooksSubMap(fields, request.queryParams, toText);
  }

  /** The keys of a map in some order, each once (`kwargs.keys()`). */
  method KeysInSomeOrder<V>(m: map<string, V>) returns (keys: seq<string>)
    ensures forall k :: k in keys <==> k in m
    ensures forall i, j :: 0 <= i < j < |keys| ==> keys[i] != keys[j]
  {
    keys := [];
    var rest := m.Keys;
    while rest != {}
      invariant rest <= m.Keys
      invariant forall k :: k in keys <==> k in m.Keys - rest
      invariant forall i, j :: 0 <= i < j < |keys| ==> keys[i] != keys[j]
      decreases rest
    {
      var k :| k in rest;
      assert k !in keys;
      assert forall i :: 0 <= i < |keys| ==> keys[i] != k;
      keys := keys + [k];
      rest := rest - {k};
    }
  }

  /**
    KwargsKeyBit.get_data: `params or kwargs.keys()` as the fields, with the
    keyword arguments as the source map and the identity hooks.
  */
  method KwargsKeyBitData<V>(params: Option<seq<string>>, kwargs: map<string, Option<V>>, toText: V -> string)
    returns (data: map<string, string>)
    ensures params.None? || params.value == [] ==>
      data == map k | k in kwargs && kwargs[k].Some? :: toText(kwargs[k].value)
    ensures params.Some? && params.value != [] ==>
      data == map k | k in params.value && k in kwargs && kwargs[k].Some? :: toText(kwargs[k].value)
  {
    var fields: seq<string>;
    if params.None? || params.value == [] {
      fields := KeysInSomeOrder(kwargs);
    } else {
      fields := params.value;
    }
    data := DictKeyBitData(fields, kwargs, Identity, Identity, toText);
    IdentityHooksSubMap(fields, kwargs, toText);
  }
}
