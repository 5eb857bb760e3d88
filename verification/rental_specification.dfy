/** Rental search: the user and active-flag providers, the provider manager
    that holds them, and the builder that combines the optional search
    parameters.
 */
module RentalSpecification {
  import opened Wrappers
  import opened Rentals
  import opened Specification

  const USER: string := "userId"
  const IS_ACTIVE: string := "isActive"

  /** Filters on the `userId` attribute, registered under "userId". */
  const UserProvider: Provider := Provider(USER, USER)

  /** Filters on the `isActive` attribute, registered under "isActive". */
  const ActiveProvider: Provider := Provider(IS_ACTIVE, IS_ACTIVE)

  /** The rental providers the application registers. */
  const RentalProviders: seq<Provider> := [UserProvider, ActiveProvider]

  /** A rental as the query layer sees it: its attributes by name. */
  function RentalRow(rental: Rental): string -> Option<Value> {
    (a: string) =>
      if a == "id" then Some(Long(rental.id))
      else if a == "carId" then Some(Long(rental.carId))
      else if a == USER then Some(Long(rental.userId))
      else if a == IS_ACTIVE then Some(Flag(rental.isActive))
      else None
  }

  /** The search parameters; `None` stands for a null array. */
  datatype RentalSearchParameters = RentalSearchParameters(
    userId: Option<seq<int>>,
    isActive: Option<seq<bool>>)

  /** The intended meaning of a rental search: each present parameter
      restricts its field to the listed values; an absent or empty one
      restricts nothing. */
  predicate Matches(params: RentalSearchParameters, rental: Rental) {
    && (Present(params.userId) ==> rental.userId in params.userId.value)
    && (Present(params.isActive) ==> rental.isActive in params.isActive.value)
  }

  /** `getSpecificationProvider` of the rental provider manager. */
  function GetRentalSpecificationProvider(key: string): (r: Result<Provider>)
    ensures r.Ok? <==> key == USER || key == IS_ACTIVE
    ensures r.Ok? ==> r.value.key == key && r.value.attribute == key
    ensures r.Err? ==> r.error == Configuration(MissingProviderMessage(key))
  {
    assert RentalProviders[0].key == USER && RentalProviders[1].key == IS_ACTIVE;
    assert forall i :: 0 <= i < |RentalProviders| ==> RentalProviders[i].key == RentalProviders[i].attribute;
    assert forall i :: 0 <= i < |RentalProviders| ==>
      RentalProviders[i].key == USER || RentalProviders[i].key == IS_ACTIVE;
    GetSpecificationProvider(RentalProviders, key)
  }

  /** The user provider accepts a rental exactly when its user id is one of
      the parameters. */
  lemma UserProviderAccepts(params: seq<int>, rental: Rental)
    ensures UserProvider.key == "userId"
    ensures Satisfies(GetSpecification(UserProvider, Longs(params)), RentalRow(rental)) <==> rental.userId in params
  {
  }

  /** The active provider accepts a rental exactly when its active flag is
      one of the parameters; `{true, false}` accepts every rental. */
  lemma ActiveProviderAccepts(params: seq<bool>, rental: Rental)
    ensures ActiveProvider.key == "isActive"
    ensures Satisfies(GetSpecification(ActiveProvider, Flags(params)), RentalRow(rental)) <==> rental.isActive in params
    ensures true in params && false in params ==>
      Satisfies(GetSpecification(ActiveProvider, Flags(params)), RentalRow(rental))
  {
  }

  /** `build(searchParameters)`: starts from the always-true specification
      and adds, in this order, the user test and the active-flag test for
      each parameter that is present. */
  function Build(providers: seq<Provider>, params: RentalSearchParameters): (r: Result<Specification>)
    ensures r.Err? <==>
      || (Present(params.userId) && GetSpecificationProvider(providers, USER).Err?)
      || (Present(params.isActive) && GetSpecificationProvider(providers, IS_ACTIVE).Err?)
    ensures r.Err? ==> r.error.Configuration?
  {
    var withUsers :-
      if Present(params.userId) then
        var p :- GetSpecificationProvider(providers, USER);
        Ok(And(Everything, GetSpecification(p, Longs(params.userId.value))))
      else Ok(Everything);
    if Present(params.isActive) then
      var p :- GetSpecificationProvider(providers, IS_ACTIVE);
      Ok(And(withUsers, GetSpecification(p, Flags(params.isActive.value))))
    else Ok(withUsers)
  }

  /** With the registered providers the builder never fails, and the
      specification it builds accepts exactly the rentals that match. */
  lemma BuildMeansMatches(params: RentalSearchParameters, rental: Rental)
    ensures Build(RentalProviders, params).Ok?
    ensures Satisfies(Build(RentalProviders, params).value, RentalRow(rental)) <==> Matches(params, rental)
  {
    var user := GetRentalSpecificationProvider(USER);
    var active := GetRentalSpecificationProvider(IS_ACTIVE);
    var row := RentalRow(rental);
    var first := if Present(params.userId)
      then And(Everything, In(USER, Longs(params.userId.value))) else Everything;
    assert Satisfies(first, row) <==> (Present(params.userId) ==> rental.userId in params.userId.value);
    var spec := if Present(params.isActive)
      then And(first, In(IS_ACTIVE, Flags(params.isActive.value))) else first;
    assert Build(RentalProviders, params) == Ok(spec);
    assert Satisfies(spec, row) <==>
      Satisfies(first, row) && (Present(params.isActive) ==> rental.isActive in params.isActive.value);
  }

  /** `BuildMeansMatches` for every rental at once. */
  lemma BuildAllMatch(params: RentalSearchParameters)
    ensures Build(RentalProviders, params).Ok?
    ensures forall rental: Rental :: Satisfies(Build(RentalProviders, params).value, RentalRow(rental)) <==> Matches(params, rental)
  {
    BuildMeansMatches(params, Rental(0, 0, 0, None, 0, 0, true, false));
    forall rental: Rental
      ensures Satisfies(Build(RentalProviders, params).value, RentalRow(rental)) <==> Matches(params, rental)
    {
      BuildMeansMatches(params, rental);
    }
  }

  /** Without parameters every rental is accepted. */
  lemma NoParametersAcceptAll(rental: Rental)
    ensures Build(RentalProviders, RentalSearchParameters(None, None)).Ok?
    ensures Satisfies(Build(RentalProviders, RentalSearchParameters(None, None)).value, RentalRow(rental))
  {
    BuildMeansMatches(RentalSearchParameters(None, None), rental);
  }

  /** An empty array is treated exactly like a null one. */
  lemma EmptyIsNull(providers: seq<Provider>, params: RentalSearchParameters)
    ensures Build(providers, params.(userId := Some([]))) == Build(providers, params.(userId := None))
    ensures Build(providers, params.(isActive := Some([]))) == Build(providers, params.(isActive := None))
  {
  }
}
