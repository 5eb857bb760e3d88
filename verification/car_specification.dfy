/** Car search: the brand and car-frame providers, the provider manager
    that holds them, and the builder that combines the optional search
    parameters.
 */
module CarSpecification {
  import opened Wrappers
  import opened Cars
  import opened Specification

  const BRAND: string := "brand"
  const CAR_FRAME: string := "carFrame"

  /** Filters on the `brand` attribute, registered under "brand". */
  const BrandProvider: Provider := Provider(BRAND, BRAND)

  /** Filters on the `carFrame` attribute, registered under "carFrame". */
  const CarFrameProvider: Provider := Provider(CAR_FRAME, CAR_FRAME)

  /** The car providers the application registers. */
  const CarProviders: seq<Provider> := [BrandProvider, CarFrameProvider]

  /** A car as the query layer sees it: its attributes by name. */
  function CarRow(car: Car): string -> Option<Value> {
    (a: string) =>
      if a == "id" then Some(Long(car.id))
      else if a == "model" then Some(Text(car.model))
      else if a == BRAND then Some(Text(car.brand))
      else if a == CAR_FRAME then Some(Frame(car.carFrame))
      else None
  }

  /** The search parameters; `None` stands for a null array. */
  datatype CarSearchParameters = CarSearchParameters(
    brands: Option<seq<string>>,
    carFrames: Option<seq<CarFrame>>)

  /** The intended meaning of a car search: each present parameter restricts
      its field to the listed values; an absent or empty one restricts
      nothing. */
  predicate Matches(params: CarSearchParameters, car: Car) {
    && (Present(params.brands) ==> car.brand in params.brands.value)
    && (Present(params.carFrames) ==> car.carFrame in params.carFrames.value)
  }

  /** `getSpecificationProvider` of the car provider manager. */
  function GetCarSpecificationProvider(key: string): (r: Result<Provider>)
    ensures r.Ok? <==> key == BRAND || key == CAR_FRAME
    ensures r.Ok? ==> r.value.key == key && r.value.attribute == key
    ensures r.Err? ==> r.error == Configuration(MissingProviderMessage(key))
  {
    assert CarProviders[0].key == BRAND && CarProviders[1].key == CAR_FRAME;
    assert forall i :: 0 <= i < |CarProviders| ==> CarProviders[i].key == CarProviders[i].attribute;
    assert forall i :: 0 <= i < |CarProviders| ==> CarProviders[i].key == BRAND || CarProviders[i].key == CAR_FRAME;
    GetSpecificationProvider(CarProviders, key)
  }

  /** The brand provider accepts a car exactly when its brand is one of the
      parameters. */
  lemma BrandProviderAccepts(params: seq<string>, car: Car)
    ensures BrandProvider.key == "brand"
    ensures Satisfies(GetSpecification(BrandProvider, Texts(params)), CarRow(car)) <==> car.brand in params
  {
  }

  /** The car-frame provider accepts a car exactly when its frame is one of
      the parameters. */
  lemma CarFrameProviderAccepts(params: seq<CarFrame>, car: Car)
    ensures CarFrameProvider.key == "carFrame"
    ensures Satisfies(GetSpecification(CarFrameProvider, Frames(params)), CarRow(car)) <==> car.carFrame in params
  {
  }

  /** `build(searchParameters)`: starts from the always-true specification
      and adds, in this order, the brand test and the car-frame test for
      each parameter that is present. */
  function Build(providers: seq<Provider>, params: CarSearchParameters): (r: Result<Specification>)
    ensures r.Err? <==>
      || (Present(params.brands) && GetSpecificationProvider(providers, BRAND).Err?)
      || (Present(params.carFrames) && GetSpecificationProvider(providers, CAR_FRAME).Err?)
    ensures r.Err? ==> r.error.Configuration?
  {
    var withBrands :-
      if Present(params.brands) then
        var p :- GetSpecificationProvider(providers, BRAND);
        Ok(And(Everything, GetSpecification(p, Texts(params.brands.value))))
      else Ok(Everything);
    if Present(params.carFrames) then
      var p :- GetSpecificationProvider(providers, CAR_FRAME);
      Ok(And(withBrands, GetSpecification(p, Frames(params.carFrames.value))))
    else Ok(withBrands)
  }

  /** With the registered providers the builder never fails, and the
      specification it builds accepts exactly the cars that match. */
  lemma BuildMeansMatches(params: CarSearchParameters, car: Car)
    ensures Build(CarProviders, params).Ok?
    ensures Satisfies(Build(CarProviders, params).value, CarRow(car)) <==> Matches(params, car)
  {
    var brand := GetCarSpecificationProvider(BRAND);
    var frame := GetCarSpecificationProvider(CAR_FRAME);
    var row := CarRow(car);
    var first := if Present(params.brands)
      then And(Everything, In(BRAND, Texts(params.brands.value))) else Everything;
    assert Satisfies(first, row) <==> (Present(params.brands) ==> car.brand in params.brands.value);
    var spec := if Present(params.carFrames)
      then And(first, In(CAR_FRAME, Frames(params.carFrames.value))) else first;
    assert Build(CarProviders, params) == Ok(spec);
    assert Satisfies(spec, row) <==>
      Satisfies(first, row) && (Present(params.carFrames) ==> car.carFrame in params.carFrames.value);
  }

  /** `BuildMeansMatches` for every car at once. */
  lemma BuildAllMatch(params: CarSearchParameters)
    ensures Build(CarProviders, params).Ok?
    ensures forall car: Car :: Satisfies(Build(CarProviders, params).value, CarRow(car)) <==> Matches(params, car)
  {
    BuildMeansMatches(params, Car(0, "", "", SEDAN, 0, 0.0, false));
    forall car: Car
      ensures Satisfies(Build(CarProviders, params).value, CarRow(car)) <==> Matches(params, car)
    {
      BuildMeansMatches(params, car);
    }
  }

  /** Without parameters every car is accepted. */
  lemma NoParametersAcceptAll(car: Car)
    ensures Build(CarProviders, CarSearchParameters(None, None)).Ok?
    ensures Satisfies(Build(CarProviders, CarSearchParameters(None, None)).value, CarRow(car))
  {
    BuildMeansMatches(CarSearchParameters(None, None), car);
  }

  /** An empty array is treated exactly like a null one. */
  lemma EmptyIsNull(providers: seq<Provider>, params: CarSearchParameters)
    ensures Build(providers, params.(brands := Some([]))) == Build(providers, params.(brands := None))
    ensures Build(providers, params.(carFrames := Some([]))) == Build(providers, params.(carFrames := None))
  {
  }

  /** Only the sets of values matter, not their order or repetitions. */
  lemma OrderIndependent(params: CarSearchParameters, other: CarSearchParameters, car: Car)
    requires params.brands.Some? <==> other.brands.Some?
    requires params.brands.Some? ==> (forall b :: b in params.brands.value <==> b in other.brands.value)
    requires params.carFrames.Some? <==> other.carFrames.Some?
    requires params.carFrames.Some? ==> (forall f :: f in params.carFrames.value <==> f in other.carFrames.value)
    ensures Build(CarProviders, params).Ok? && Build(CarProviders, other).Ok?
    ensures Satisfies(Build(CarProviders, params).value, CarRow(car)) <==>
            Satisfies(Build(CarProviders, other).value, CarRow(car))
  {
    BuildMeansMatches(params, car);
    BuildMeansMatches(other, car);
    if params.brands.Some? && |params.brands.value| > 0 {
      assert params.brands.value[0] in other.brands.value;
    }
    if other.brands.Some? && |other.brands.value| > 0 {
      assert other.brands.value[0] in params.brands.value;
    }
    if params.carFrames.Some? && |params.carFrames.value| > 0 {
      assert params.carFrames.value[0] in other.carFrames.value;
    }
    if other.carFrames.Some? && |other.carFrames.value| > 0 {
      assert other.carFrames.value[0] in params.carFrames.value;
    }
  }

  /** Adding brands to a brand list that is already present never drops a
      car from the result. */
  lemma MoreBrandsAcceptMore(params: CarSearchParameters, more: seq<string>, car: Car)
    requires Present(params.brands)
    ensures Build(CarProviders, params).Ok?
    ensures Build(CarProviders, params.(brands := Some(params.brands.value + more))).Ok?
    ensures Satisfies(Build(CarProviders, params).value, CarRow(car)) ==>
            Satisfies(Build(CarProviders, params.(brands := Some(params.brands.value + more))).value, CarRow(car))
  {
    BuildMeansMatches(params, car);
    BuildMeansMatches(params.(brands := Some(params.brands.value + more)), car);
  }

  /** Adding frames to a frame list that is already present never drops a
      car from the result. */
  lemma MoreFramesAcceptMore(params: CarSearchParameters, more: seq<CarFrame>, car: Car)
    requires Present(params.carFrames)
    ensures Build(CarProviders, params).Ok?
    ensures Build(CarProviders, params.(carFrames := Some(params.carFrames.value + more))).Ok?
    ensures Satisfies(Build(CarProviders, params).value, CarRow(car)) ==>
            Satisfies(Build(CarProviders, params.(carFrames := Some(params.carFrames.value + more))).value, CarRow(car))
  {
    BuildMeansMatches(params, car);
    BuildMeansMatches(params.(carFrames := Some(params.carFrames.value + more)), car);
  }
}
