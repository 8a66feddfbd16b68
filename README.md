# Cache-key bits of drf-extensions, modelled in Dafny

drf-extensions builds response-cache keys from small strategy objects called
"key bits". Each bit reads one piece of the request context and returns one
fragment of the key. The context is the view, the view method, the request,
and the positional and keyword arguments. This project models the bits in
`rest_framework_extensions/key_constructor/bits.py` and proves what each one
returns.

- `wrappers.dfy` (module `Wrappers`): `Option` and `Result`.
- `key_bits.dfy` (module `KeyBits`): the bits and the lemmas about them.
- `key_bits_examples.dfy` (module `KeyBitsExamples`): client methods that
  check, from the contracts alone, one example for each of the headers,
  request-meta, query-params, user, pagination, kwargs, args and identity
  bits. The headers, request-meta, query-params, user and pagination examples
  use the docstring values at bits.py:112-114, 130-132, 141-143, 93-98 and
  152-154.

How the Python values are represented:

- A Python dict whose values may be `None` (`request.META`, `request.GET`,
  `kwargs`) is a `map<string, Option<V>>`.
- `force_text` is a parameter `toText: V -> string`.
- `prepare_header_name` is a parameter `prepareHeaderName: string -> string`.
  Its module, `rest_framework_extensions/utils.py`, is not part of this model.
- `hasattr` checks on the view, and the reflection on `__module__`,
  `__class__.__name__` and `__name__`, are fields of the `View` and
  `ViewMethod` records.
- The `TypeError` of iterating `params=None` and the `IndexError` of
  `args[i]` are `Failure` values of a `Result`.

Two parts of the file work by updating state step by step: the dict base
`get_data` loop, which updates a map, and the pagination field list, which is
reset and then appended to. `DictKeyBitData` keeps that loop and is proved
equal to the function `Projected`. `PaginationKeyBitData` builds its field
list by the same updates. `Projected` folds over the fields in order, and a
later field overwrites an earlier one. The lemmas about `Projected` say which
keys appear, which value each key carries, and that the result does not
depend on the order of the fields when the retrieval key is a function of the
assignment key. The identity hooks and the headers hooks both satisfy that
condition.

Every bit is a function of its inputs, so calling a bit twice on the same
context gives the same result. `KeysInSomeOrder` is free to choose any
order, but `KwargsKeyBitData`'s result does not depend on that order.

Some helpers stand for source constructs and are described by the rows below
rather than given rows of their own:

- `JoinDotted` is `'.'.join` (bits.py:53, bits.py:61).
- `Identity` is the default key hook (bits.py:44-48).
- `Projected` is the fold that the loop at bits.py:35-38 computes.
- `HeaderRetrieval` is the headers retrieval hook (bits.py:120-123).
- `HasAuthenticatedUser` is the condition of `UserKeyBit` (bits.py:102).
- `IndexInRange` is Python's valid index range for `args[i]`
  (bits.py:193), `-len(args) <= i < len(args)`.

## Model

| member | source | states |
|---|---|---|
| `KeyBits.Lookup` | rest_framework_extensions/key_constructor/bits.py:36-37 | `source.get(key)` then `is not None`: a value is found exactly when the key is present and its value is not `None` |
| `KeyBits.DictKeyBitData` | rest_framework_extensions/key_constructor/bits.py:25-39 | the loop over `params` builds exactly the fold `Projected` (each hit field stores the text of its value under the assignment key, and later fields overwrite earlier ones); empty `params` give the empty map |
| `KeyBits.ProjectedKeys` | rest_framework_extensions/key_constructor/bits.py:35-38 | a key appears in the output if and only if some field has that assignment key and its retrieval key holds a non-`None` value; no other key appears |
| `KeyBits.ProjectedLastHit` | rest_framework_extensions/key_constructor/bits.py:35-38 | the value stored under a key is `toText` of the source value of the last field that hits that key |
| `KeyBits.ProjectedFactored` | rest_framework_extensions/key_constructor/bits.py:35-38 | when the retrieval key is a function of the assignment key, the output is the order-independent reference map `LookedUpAt` over the set of assigned keys |
| `KeyBits.IdentityHooksSubMap` | rest_framework_extensions/key_constructor/bits.py:44-48 | with the default identity hooks, the output is the source restricted to the listed fields whose value is not `None`, with each value coerced to text |
| `KeyBits.LowerChar` | rest_framework_extensions/key_constructor/bits.py:123-126 | one character of the model's ASCII lowering: a capital `A`-`Z` becomes its lower-case letter, every other character is kept, and the result is never a capital |
| `KeyBits.Lower` | rest_framework_extensions/key_constructor/bits.py:123-126 | the model's ASCII lowering of `key.lower()`: same length as the input, each character lowered by `LowerChar`; the result has no capital letter |
| `KeyBits.HeadersProjection` | rest_framework_extensions/key_constructor/bits.py:117-126 | the headers hooks look up `prepare_header_name(lower(k))` in `META` and store under `lower(k)`; every output key is lower-case |
| `KeyBits.HeadersKeyBitData` | rest_framework_extensions/key_constructor/bits.py:111-126 | `HeadersKeyBit.get_data`: with `params` of `None` it fails as not iterable; otherwise it returns the lower-cased-name map read from `META` through `prepare_header_name`, and all its keys are lower-case |
| `KeyBits.RequestMetaKeyBitData` | rest_framework_extensions/key_constructor/bits.py:129-137 | `RequestMetaKeyBit.get_data`: fails on `params` of `None`; otherwise returns `META` restricted to the listed fields that are not `None`, as text |
| `KeyBits.QueryParamsKeyBitData` | rest_framework_extensions/key_constructor/bits.py:140-148 | `QueryParamsKeyBit.get_data`: fails on `params` of `None`; otherwise returns `GET` restricted to the listed fields that are not `None`, as text |
| `KeyBits.PaginationFields` | rest_framework_extensions/key_constructor/bits.py:158-162 | the field list holds exactly the pagination attributes the view defines, `page_kwarg` first and `paginate_by_param` last, one entry for each |
| `KeyBits.PaginationKeyBitData` | rest_framework_extensions/key_constructor/bits.py:157-163 | `PaginationKeyBit.get_data` ignores the incoming `params` and returns `GET` restricted to the view's pagination fields; a view defining neither gives the empty map |
| `KeyBits.KeysInSomeOrder` | rest_framework_extensions/key_constructor/bits.py:201 | `kwargs.keys()`: every key of the map exactly once |
| `KeyBits.KwargsKeyBitData` | rest_framework_extensions/key_constructor/bits.py:197-210 | `KwargsKeyBit.get_data`: with `params` missing or empty, the result is all of `kwargs` minus its `None` values, as text; with non-empty `params`, only those keys |
| `KeyBits.Position` | rest_framework_extensions/key_constructor/bits.py:193 | the position Python's `args[i]` reads: `i` itself for a non-negative index, and `len + i`, counting from the end, for a negative one; always inside the sequence |
| `KeyBits.SelectArgs` | rest_framework_extensions/key_constructor/bits.py:193 | `[args[i] for i in params]` succeeds if and only if every index is in Python's range `-len <= i < len`; it then has one element per index, the element each index denotes (negative indices count from the end); otherwise it fails with the first out-of-range index |
| `KeyBits.ArgsKey` | rest_framework_extensions/key_constructor/bits.py:190-194 | `ArgsKeyBit.get_data` returns `args` unchanged when the bit's own `params` is `None`, and the index selection otherwise |
| `KeyBits.UserKey` | rest_framework_extensions/key_constructor/bits.py:101-108 | the text of the user's id when the request has a user that is truthy and authenticated, and the literal `"anonymous"` in every other case |
| `KeyBits.UniqueViewId` | rest_framework_extensions/key_constructor/bits.py:51-56 | `'.'.join([module, class name])` is `module + "." + className` |
| `KeyBits.UniqueMethodId` | rest_framework_extensions/key_constructor/bits.py:59-65 | the method id is `module + "." + className + "." + methodName`, that is, the view id extended by `"." + methodName` |
| `KeyBits.DottedNameDetermined` | rest_framework_extensions/key_constructor/bits.py:53-56 | a dotted name whose last component has no dot determines both the prefix and that component |
| `KeyBits.UniqueViewIdInjective` | rest_framework_extensions/key_constructor/bits.py:51-56 | for class names without dots, which holds for every class defined by a `class` statement, equal view ids mean the same module and the same class |
| `KeyBits.UniqueMethodIdInjective` | rest_framework_extensions/key_constructor/bits.py:59-65 | for dot-free class and method names, equal method ids mean the same module, class and method name |

## Left out

- `ListSqlQueryKeyBit` and `RetrieveSqlQueryKeyBit` (bits.py:166-187): every
  step is a Django ORM call (`filter_queryset`, `get_queryset`, `.filter`,
  the `EmptyQuerySet` test, the SQL text of `queryset.query`, the
  `ValueError` raised during type conversion). None of that code is visible.
- `LanguageKeyBit` (bits.py:75-76): it reads the process-wide active locale
  through Django's `get_language`.
- `FormatKeyBit` (bits.py:88-89): a single attribute read from the
  content-negotiation result, with nothing to prove.
- The `NotImplementedError` base methods (bits.py:11-15, 41-42) are abstract.
  The model supplies each bit's source map and hooks as arguments instead.
- The bodies of `force_text` and `prepare_header_name` are not modelled.
  Both are function parameters.
- Lower: lower-cases only the ASCII letters `A`-`Z`. Python's `str.lower`
  also lower-cases other Unicode letters, and can change the length
  (`"İ".lower()` has two code points). The model always keeps the length.
- `request.GET` is a Django `QueryDict`, whose `.get` returns the last value
  of a repeated parameter. The model's map already holds that last value.
- PaginationKeyBitData: a pagination attribute that exists but is `None` is
  modelled as absent. Python appends `None` to the field list, but looking
  up `None` in the query parameters finds nothing, so the output is the same.
- KeysInSomeOrder: does not model the insertion order of `kwargs.keys()`.
  It picks an unspecified order. `KwargsKeyBitData`'s output does not depend
  on that order.
- Only the iterables that the bits are configured with in practice are
  modelled. `params` is a list of strings or `None`, and the indices of
  `ArgsKeyBit` are a list of integers or `None`. Iterating a string, or an
  index that is not an integer (a `TypeError`), is not modelled.
- Errors raised by `force_text` itself and missing attributes on the request
  or view objects (both propagate to the caller in the source) are not
  modelled.
- Result order: a Python dict keeps insertion order, and a `map` does not.
  Also `ArgsKeyBit` returns the `args` tuple unchanged but returns a list
  after selection (bits.py:193-194), and `seq` stands for both. Neither
  difference matters inside bits.py.

Notes on the code:

- `PaginationKeyBit.get_data` replaces `params` with a fresh list
  (bits.py:158), so configured fields are ignored.
- The docstring example at bits.py:154 shows an integer `100`. The value
  passes through `force_text`, so it is text.
