/** The specification engine, independent of the entity it filters.

    A specification is the structure a builder hands to the query layer: the
    always-true `where(null)`, a conjunction, or an `attribute IN (values)`
    test. A row is seen through its attributes; a provider turns the values
    of one search parameter into an `IN` test on one attribute; a provider
    manager finds a provider by its key.
 */
module Specification {
  import opened Wrappers
  import opened Cars

  /** The attribute values the search parameters compare against. */
  datatype Value = Text(text: string) | Frame(frame: CarFrame) | Long(long: int) | Flag(flag: bool)

  datatype Specification =
    | Everything
    | And(left: Specification, right: Specification)
    | In(attribute: string, values: seq<Value>)

  /** Whether a row, given by its attribute values, meets a specification.
      An `IN` test holds when the attribute equals one of the values. */
  predicate Satisfies(spec: Specification, row: string -> Option<Value>) {
    match spec
    case Everything => true
    case And(l, r) => Satisfies(l, row) && Satisfies(r, row)
    case In(a, vs) => row(a).Some? && row(a).value in vs
  }

  /** A provider: the key it is registered under and the attribute its
      `IN` test reads. */
  datatype Provider = Provider(key: string, attribute: string)

  /** `getSpecification(params)` of a provider. */
  function GetSpecification(p: Provider, params: seq<Value>): (s: Specification)
    ensures forall row :: Satisfies(s, row) <==> row(p.attribute).Some? && row(p.attribute).value in params
  {
    In(p.attribute, params)
  }

  /** The failure message of a provider manager. */
  function MissingProviderMessage(key: string): string {
    "Can`t find correct specification provider for key: " + key
  }

  /** Position `i` holds the first provider registered under `key`. */
  predicate FirstWithKey(providers: seq<Provider>, key: string, i: int) {
    && 0 <= i < |providers|
    && providers[i].key == key
    && forall j :: 0 <= j < i ==> providers[j].key != key
  }

  /** `getSpecificationProvider(key)`: the first provider in list order
      whose key equals `key`; a configuration failure when there is none.
      The list is only read. */
  function GetSpecificationProvider(providers: seq<Provider>, key: string): (r: Result<Provider>)
    ensures r.Ok? <==> exists i :: 0 <= i < |providers| && providers[i].key == key
    ensures r.Ok? ==> r.value.key == key
    ensures r.Ok? ==> exists i :: FirstWithKey(providers, key, i) && providers[i] == r.value
    ensures r.Err? ==> r.error == Configuration(MissingProviderMessage(key))
    decreases |providers|
  {
    if |providers| == 0 then Err(Configuration(MissingProviderMessage(key)))
    else if providers[0].key == key then Ok(providers[0])
    else
      var rest := GetSpecificationProvider(providers[1..], key);
      assert forall i :: 1 <= i < |providers| ==> providers[i] == providers[1..][i - 1];
      rest
  }

  /** The elements of a `String[]` parameter, as values. */
  function Texts(ss: seq<string>): (vs: seq<Value>)
    ensures forall s :: Text(s) in vs <==> s in ss
  {
    if |ss| == 0 then [] else [Text(ss[0])] + Texts(ss[1..])
  }

  /** The elements of a `CarFrame[]` parameter, as values. */
  function Frames(fs: seq<CarFrame>): (vs: seq<Value>)
    ensures forall f :: Frame(f) in vs <==> f in fs
  {
    if |fs| == 0 then [] else [Frame(fs[0])] + Frames(fs[1..])
  }

  /** The elements of a `Long[]` parameter, as values. */
  function Longs(ns: seq<int>): (vs: seq<Value>)
    ensures forall n :: Long(n) in vs <==> n in ns
  {
    if |ns| == 0 then [] else [Long(ns[0])] + Longs(ns[1..])
  }

  /** The elements of a `Boolean[]` parameter, as values. */
  function Flags(bs: seq<bool>): (vs: seq<Value>)
    ensures forall b :: Flag(b) in vs <==> b in bs
  {
    if |bs| == 0 then [] else [Flag(bs[0])] + Flags(bs[1..])
  }

  /** A search parameter that is present: neither null nor empty. */
  predicate Present<T>(param: Option<seq<T>>) {
    param.Some? && |param.value| > 0
  }

  /** An `IN` test depends on the set of its values only: order and
      repetitions do not matter. */
  lemma InDependsOnValueSet(a: string, vs: seq<Value>, ws: seq<Value>, row: string -> Option<Value>)
    requires forall v :: v in vs <==> v in ws
    ensures Satisfies(In(a, vs), row) <==> Satisfies(In(a, ws), row)
  {
  }

  /** Adding values to an `IN` test never rejects a row it accepted. */
  lemma InMonotone(a: string, vs: seq<Value>, ws: seq<Value>, row: string -> Option<Value>)
    requires forall v :: v in vs ==> v in ws
    ensures Satisfies(In(a, vs), row) ==> Satisfies(In(a, ws), row)
  {
  }
}
