# Car sharing service core, modelled in Dafny

This project models the business core of a car-sharing back end: the fleet
(cars with an available-unit count and a daily rate), rentals that reserve
and give back a unit, the fee a returned rental costs, payment records for
checkout sessions, user registration and profile changes, and the
specification engine that turns optional search arrays into query filters.

Everything is functional. Each table is a map from id to row plus the
identity counter that hands out ids (`Table`). Soft deletion is a flag that
hides a row from every lookup by id. A service call takes the store and
returns `Ok((store', answer))` or `Err(error)`; an error means the
transaction rolled back and the caller keeps the old store. Dates are whole
day numbers. Money is an exact `real`. `Car.inventory` is a Java `int`, so
its decrement and increment wrap around explicitly at the 32-bit bounds.

Things the core calls but does not define are parameters: "today" for the
return date, the payment provider (`stripe`, which answers a session
description with a session or a refusal reason), the URL parser (`isUrl`) and the password encoder
(`encode`). A chat notification is returned as an event, not sent.

Module layout: `Wrappers` (Option, Result, error kinds), `Text` (decimal
rendering of ids in messages), `Table`, the entities `Cars`, `Rentals`,
`Payments`, `Users`, the shared `Store`, the fee rules `FeeStrategy`, the
engine `Specification` with `CarSpecification` and `RentalSpecification`,
the request rules `CarRequest`, and one module per service: `CarService`,
`RentalService`, `PaymentService`, `UserService`.

Where the code and the written design disagree, the model follows the code:

- The design says a car's available count never goes negative. Renting
  decrements it with no guard, so it can go below zero and wrap at the
  32-bit minimum (`Cars.Decrement`).
- The design says the scheduled return date is at least the rental date.
  Nothing checks it: `RentalService.RentalRequest` carries any two dates.
- The design says payment status only moves forward from PENDING. The
  callbacks overwrite it unconditionally, so a PAID payment can become
  CANCELED (`PaymentService.PaidCanBeCanceled`).
- The design says an actual return date, once set, never changes and that
  a deleted car is excluded from every mutation. A repeated return
  overwrites the date and gives back another unit
  (`RentalService.ReturnTwice`). The rental's car is read through its
  association, so a deleted car still gets the unit back.
- The payment service names the user in its not-found message without an
  id ("Can`t find a user by id"). The rental service's message has the id.
  `updateCarById` uses an apostrophe ("Can't") where every other lookup
  uses a backtick.
- The services read `getCarId`, `getUserId` and `getRentalId` from rentals
  and payments, while the entities hold associations. The model stores the
  ids and resolves them through the store, so a dangling id is an error.

## Model

| member | source | states |
|---|---|---|
| FeeStrategy.GetPaymentAmount | src/main/java/car/sharing/service/strategy/PaymentStrategy.java:8-15 | the on-time strategy is chosen exactly when the actual return is on or before the scheduled day; the late one exactly when it is after |
| FeeStrategy.OnTimeAmount | src/main/java/car/sharing/service/strategy/PaymentRentalOnTime.java:11-18 | returning on the rental day costs nothing, and a non-negative rate with a return no earlier than the start gives a non-negative fee |
| FeeStrategy.LateAmount | src/main/java/car/sharing/service/strategy/PaymentRentalLate.java:9-22 | the scheduled days plus a fine of 1.5 rates per overdue day equal the on-time price for the days used plus half a rate per overdue day |
| FeeStrategy.StrategyFeeIsClosedForm | src/main/java/car/sharing/service/strategy/PaymentStrategy.java:8-15 | the chosen strategy's amount is one rate per day used plus half a rate for every day past the scheduled return |
| FeeStrategy.OnTimeIgnoresSchedule | src/main/java/car/sharing/service/strategy/PaymentRentalOnTime.java:13 | the on-time price does not depend on the scheduled return date, so an early return pays only for the days used |
| FeeStrategy.OnTimeLinear | src/main/java/car/sharing/service/strategy/PaymentRentalOnTime.java:17 | the on-time price is additive and homogeneous in the daily rate |
| FeeStrategy.LateExceedsOnTime | src/main/java/car/sharing/service/strategy/PaymentRentalLate.java:17-21 | with a positive rate and at least one overdue day the late price is strictly above the on-time price for the same dates |
| FeeStrategy.StrategiesAgreeAtBoundary | src/main/java/car/sharing/service/strategy/PaymentRentalLate.java:17-21 | returned on the scheduled day, both strategies give the same price |
| FeeStrategy.FeeNonNegative | src/main/java/car/sharing/service/strategy/PaymentRentalLate.java:17-21 | a non-negative rate and a return no earlier than the start never give a negative fee, under either strategy |
| FeeStrategy.FeeMonotoneInReturnDay | src/main/java/car/sharing/service/strategy/PaymentStrategy.java:8-15 | with a non-negative rate, returning later never costs less, across the switch from on-time to late |
| FeeStrategy.ClosedFormMonotone | src/main/java/car/sharing/service/strategy/PaymentRentalLate.java:17-21 | in closed form, a day's rate plus half a rate per overdue day never decreases as the return day moves later |
| FeeStrategy.FeeExamples | src/main/java/car/sharing/service/strategy/PaymentRentalLate.java:17-21 | at 50 a day from day 5, due day 10: returned day 10 costs 250, returned day 14 costs 550 |
| PaymentService.CalculateTotalAmount | src/main/java/car/sharing/service/impl/PaymentServiceImpl.java:95-124 | the inline calculation fails with the car's not-found message or on an absent return date, and otherwise equals the strategy pattern's fee |
| PaymentService.InlineAgreesWithStrategy | src/main/java/car/sharing/service/impl/PaymentServiceImpl.java:105-124 | each inline helper equals its strategy class, and the helper the inline branch picks equals the strategy fee |
| PaymentService.CalculateTotalAmountExamples | src/test/java/car/sharing/service/PaymentServiceTest.java:86-100 | at 100 a day over ten scheduled days, an on-time return costs 1000 and a return two days late 1300 |
| PaymentService.SavePayment | src/main/java/car/sharing/service/impl/PaymentServiceImpl.java:136-151 | an unparsable URL or an already used session id fails with nothing saved; otherwise a new live PENDING payment with the request's type, the rental, the price and the session's id and URL is added and nothing else changes |
| PaymentService.CreatePaymentSession | src/main/java/car/sharing/service/impl/PaymentServiceImpl.java:52-63 | a missing rental or a failed price ends the call with that error; a provider refusal becomes "Can`t create a session: " and the reason; a created session is saved as `SavePayment` states; a stored payment is PENDING, priced at the strategy fee, carries the provider's session for that price, and its session id was unused |
| PaymentService.SetStatusBySession | src/main/java/car/sharing/service/impl/PaymentServiceImpl.java:65-93 | succeeds exactly when one live payment has the session id and its rental and that rental's user are found; otherwise fails with the session, rental or user not-found message in that order; on success only that payment's status changes, and a notification is produced exactly when the user has a chat linked |
| PaymentService.SuccessPayment | src/main/java/car/sharing/service/impl/PaymentServiceImpl.java:65-78 | succeeds exactly when the payment, its rental and its user are found, failing as the cancel callback would otherwise; the session's payment becomes PAID and no other row, table or id counter changes; the notification carries the success text |
| PaymentService.CancelPayment | src/main/java/car/sharing/service/impl/PaymentServiceImpl.java:80-93 | succeeds exactly when the payment, its rental and its user are found, failing as the success callback would otherwise; the session's payment becomes CANCELED and no other row, table or id counter changes; the notification carries the cancel text |
| PaymentService.StatusChangeKeepsSessions | src/main/java/car/sharing/service/impl/PaymentServiceImpl.java:165-169 | a status change does not change which payment a session id finds |
| PaymentService.PaidCanBeCanceled | src/main/java/car/sharing/service/impl/PaymentServiceImpl.java:80-93 | after a successful payment the cancel callback still succeeds and leaves the payment CANCELED |
| PaymentService.SuccessIdempotent | src/main/java/car/sharing/service/impl/PaymentServiceImpl.java:65-78 | a repeated success callback succeeds and changes nothing more |
| PaymentService.UnknownSessionFails | src/test/java/car/sharing/service/PaymentServiceTest.java:208-225 | when no live payment has the session id, both callbacks fail with "Can`t find a session by id: " and the id |
| PaymentService.UserRentalIds | src/main/java/car/sharing/repository/rental/RentalRepository.java:14 | the ids listed are exactly those of the user's live rentals |
| PaymentService.GetPayments | src/main/java/car/sharing/service/impl/PaymentServiceImpl.java:43-50 | every payment listed is live and belongs to one of the user's rentals |
| PaymentService.GetPaymentsAreTheUsers | src/main/java/car/sharing/repository/payment/PaymentRepository.java:13-14 | in a consistent store the listed payments are exactly the live payments of the user's live rentals |
| PaymentService.ValidCarPricesNonNegative | src/main/java/car/sharing/dto/car/CreateCarRequestDto.java:21-22 | a request with a fee that passes the minimum check creates a car, and that car is never priced below zero for a return no earlier than the start |
| RentalService.CreateRental | src/main/java/car/sharing/service/impl/RentalServiceImpl.java:32-43 | fails with the user's then the car's not-found message; otherwise adds an active, unreturned rental with the request's dates and car, lowers that car's count by one (wrapping) and changes nothing else |
| RentalService.ActualReturnDate | src/main/java/car/sharing/service/impl/RentalServiceImpl.java:59-69 | a missing rental fails with its message; otherwise the rental gets today's date and becomes inactive, its car's count rises by one, and nothing else changes; in a consistent store a live rental always succeeds |
| RentalService.GetRental | src/main/java/car/sharing/service/impl/RentalServiceImpl.java:54-57 | succeeds exactly for a live rental and returns it; otherwise fails with "Can`t find a rental by id: " and the id |
| RentalService.Search | src/main/java/car/sharing/service/impl/RentalServiceImpl.java:45-52 | returns exactly the live rentals that match the search parameters |
| RentalService.LiveRentals | src/main/java/car/sharing/model/Rental.java:25-26 | the rentals visible to queries are exactly the rows not soft-deleted |
| RentalService.CreateThenReturnRestoresCars | src/main/java/car/sharing/service/impl/RentalServiceImpl.java:38-66 | renting a car and returning the rental leaves the car table exactly as before, wrap-around included |
| RentalService.ReturnTwice | src/main/java/car/sharing/service/impl/RentalServiceImpl.java:59-69 | a second return also succeeds, records the later date and gives back a second unit |
| RentalService.CreatedRentalIsFound | src/main/java/car/sharing/service/impl/RentalServiceImpl.java:45-57 | a new rental is found by id and by a search on its user |
| CarService.CreateCar | src/main/java/car/sharing/service/impl/CarServiceImpl.java:26-31 | a request without a fee fails on the not-null fee column; otherwise a new live car with the request's fields is added under a fresh id, found by id afterwards, and nothing else changes |
| CarService.UpdateCarById | src/main/java/car/sharing/service/impl/CarServiceImpl.java:33-45 | a missing car fails with "Can't find a car by id: " and the id, and then a request without a fee fails on the fee column; otherwise every field takes the request's value, the id stays, and no other row changes |
| CarService.DeleteCarById | src/main/java/car/sharing/service/impl/CarServiceImpl.java:47-51 | the car is no longer found by id, only its deleted flag changes, every other lookup answers as before, and a missing id changes nothing |
| CarService.FindCarById | src/main/java/car/sharing/service/impl/CarServiceImpl.java:53-60 | succeeds exactly for a live car and returns it; otherwise fails with "Can`t find a car by id: " and the id |
| CarService.Search | src/main/java/car/sharing/service/impl/CarServiceImpl.java:71-79 | returns exactly the live cars that match the search parameters |
| CarService.LiveCars | src/main/java/car/sharing/model/Car.java:23-24 | the cars visible to queries are exactly the rows not soft-deleted |
| CarService.DeleteHidesCar | src/main/java/car/sharing/model/Car.java:23-24 | after deletion a car is found neither by id nor by any search |
| CarService.DeleteIdempotent | src/main/java/car/sharing/service/impl/CarServiceImpl.java:47-51 | deleting twice is the same as deleting once |
| CarService.UpdateThenFind | src/main/java/car/sharing/service/impl/CarServiceImpl.java:33-45 | the updated car is what the next lookup returns, and repeating the update changes nothing more |
| CarService.SearchExample | src/test/java/car/sharing/controller/CarControllerTest.java:196-210 | in the test fleet, brands "3" and "e39" with sedans and universals select exactly the second and third car |
| CarService.ValidRequestWithoutFeeFails | src/main/java/car/sharing/model/Car.java:37-38 | a request without a fee passes validation, yet creating the car fails on the not-null fee column on every store |
| UserService.Register | src/main/java/car/sharing/service/impl/UserServiceImpl.java:39-53 | a taken e-mail fails with its message; otherwise a new user with the request's names and e-mail, the encoded password, only the CUSTOMER role and no chat is added and nothing else changes; e-mails stay unique |
| UserService.UpdateUserInfo | src/main/java/car/sharing/service/impl/UserServiceImpl.java:61-68 | a missing user fails with "Can`t find user by id: " and the id; otherwise only the first and last name change |
| UserService.UpdateRoleForUser | src/main/java/car/sharing/service/impl/UserServiceImpl.java:30-37 | a missing user fails with its message; otherwise the role set becomes exactly the requested role and nothing else changes |
| UserService.ProfileHidesCredentials | src/main/java/car/sharing/service/impl/UserServiceImpl.java:55-59 | the profile answer never depends on the password, the roles or the linked chat, and two users give the same profile exactly when they agree on id, e-mail and names |
| UserService.RegisterTwiceFails | src/test/java/car/sharing/service/UserServiceTest.java:102-119 | after a registration, a second one with the same e-mail fails with the registration message |
| UserService.PasswordIsEncoded | src/main/java/car/sharing/service/impl/UserServiceImpl.java:48 | the stored password is the encoder's image of the raw one |
| UserService.RoleChangesCompose | src/main/java/car/sharing/service/impl/UserServiceImpl.java:30-37 | two role changes leave the same store as the last one alone |
| CarRequest.Trim | src/main/java/car/sharing/dto/car/CreateCarRequestDto.java:12-16 | the trimmed string is a slice of the input with only control characters and spaces cut off either end, and it neither starts nor ends with one |
| CarRequest.NotBlankIffVisibleChar | src/main/java/car/sharing/dto/car/CreateCarRequestDto.java:12-16 | a string is not blank exactly when it has a character above the space |
| CarRequest.ValidExample | src/test/java/car/sharing/controller/CarControllerTest.java:212-215 | the test's Toyota Corolla request passes validation |
| CarRequest.MissingFeeIsValid | src/main/java/car/sharing/dto/car/CreateCarRequestDto.java:21-22 | a request with no fee at all passes validation, since the minimum check accepts an absent value |
| CarRequest.ShortModelInvalid | src/main/java/car/sharing/dto/car/CreateCarRequestDto.java:12-14 | a four-character model fails the length rule |
| CarRequest.BlankBrandInvalid | src/main/java/car/sharing/dto/car/CreateCarRequestDto.java:15-16 | a brand of spaces only is blank |
| Specification.GetSpecificationProvider | src/main/java/car/sharing/repository/car/CarSpecificationProviderManager.java:16-22 | succeeds exactly when some provider has the key, and then returns the first such provider in list order; otherwise fails with "Can`t find correct specification provider for key: " and the key |
| Specification.GetSpecification | src/main/java/car/sharing/repository/car/spec/BrandSpecificationProvider.java:18-21 | the provider's filter accepts a row exactly when its attribute equals one of the parameters |
| Specification.Texts | src/main/java/car/sharing/repository/car/spec/BrandSpecificationProvider.java:19-20 | a string array's values are exactly its elements |
| Specification.Frames | src/main/java/car/sharing/repository/car/spec/CarFrameSpecificationProvider.java:19-20 | a car-frame array's values are exactly its elements |
| Specification.Longs | src/main/java/car/sharing/repository/rental/spec/UserSpecificationProvider.java:19-20 | a user-id array's values are exactly its elements |
| Specification.Flags | src/main/java/car/sharing/repository/rental/spec/ActiveSpecificationProvider.java:19-20 | a flag array's values are exactly its elements |
| Specification.InDependsOnValueSet | src/main/java/car/sharing/repository/car/spec/BrandSpecificationProvider.java:19-20 | an IN filter depends only on the set of its values, not their order or repetitions |
| Specification.InMonotone | src/main/java/car/sharing/repository/car/spec/CarFrameSpecificationProvider.java:19-20 | adding values to an IN filter never rejects a row it accepted |
| CarSpecification.GetCarSpecificationProvider | src/main/java/car/sharing/repository/car/CarSpecificationProviderManager.java:16-22 | with the registered providers, exactly "brand" and "carFrame" resolve, each to a provider filtering on that attribute; any other key fails with the missing-provider message |
| CarSpecification.BrandProviderAccepts | src/main/java/car/sharing/repository/car/spec/BrandSpecificationProvider.java:11-21 | the brand provider's key is "brand" and it accepts a car exactly when its brand is a parameter |
| CarSpecification.CarFrameProviderAccepts | src/main/java/car/sharing/repository/car/spec/CarFrameSpecificationProvider.java:11-21 | the car-frame provider's key is "carFrame" and it accepts a car exactly when its frame is a parameter |
| CarSpecification.Build | src/main/java/car/sharing/repository/car/CarSpecificationBuilder.java:19-33 | fails, with a configuration error, exactly when a present parameter has no registered provider |
| CarSpecification.BuildMeansMatches | src/main/java/car/sharing/repository/car/CarSpecificationBuilder.java:19-33 | with the registered providers the builder succeeds and accepts a car exactly when it meets every non-empty parameter |
| CarSpecification.BuildAllMatch | src/main/java/car/sharing/repository/car/CarSpecificationBuilder.java:19-33 | the same for every car at once |
| CarSpecification.NoParametersAcceptAll | src/main/java/car/sharing/repository/car/CarSpecificationBuilder.java:19-33 | with both arrays absent every car is accepted |
| CarSpecification.EmptyIsNull | src/main/java/car/sharing/repository/car/CarSpecificationBuilder.java:21-28 | an empty array builds the same specification as a null one |
| CarSpecification.OrderIndependent | src/main/java/car/sharing/repository/car/CarSpecificationBuilder.java:21-31 | two parameter sets with the same values in any order and multiplicity accept the same cars |
| CarSpecification.MoreBrandsAcceptMore | src/main/java/car/sharing/repository/car/spec/BrandSpecificationProvider.java:19-20 | adding brands to a non-empty brand array never drops a car |
| CarSpecification.MoreFramesAcceptMore | src/main/java/car/sharing/repository/car/spec/CarFrameSpecificationProvider.java:19-20 | adding frames to a non-empty frame array never drops a car |
| RentalSpecification.GetRentalSpecificationProvider | src/main/java/car/sharing/repository/rental/RentalSpecificationProviderManager.java:16-22 | with the registered providers, exactly "userId" and "isActive" resolve, each to a provider filtering on that attribute; any other key fails with the missing-provider message |
| RentalSpecification.UserProviderAccepts | src/main/java/car/sharing/repository/rental/spec/UserSpecificationProvider.java:11-21 | the user provider's key is "userId" and it accepts a rental exactly when its user id is a parameter |
| RentalSpecification.ActiveProviderAccepts | src/main/java/car/sharing/repository/rental/spec/ActiveSpecificationProvider.java:11-21 | the active provider's key is "isActive", it accepts a rental exactly when its flag is a parameter, and both flags together accept every rental |
| RentalSpecification.Build | src/main/java/car/sharing/repository/rental/RentalSpecificationBuilder.java:20-34 | fails, with a configuration error, exactly when a present parameter has no registered provider |
| RentalSpecification.BuildMeansMatches | src/main/java/car/sharing/repository/rental/RentalSpecificationBuilder.java:20-34 | with the registered providers the builder succeeds and accepts a rental exactly when it meets every non-empty parameter |
| RentalSpecification.BuildAllMatch | src/main/java/car/sharing/repository/rental/RentalSpecificationBuilder.java:20-34 | the same for every rental at once |
| RentalSpecification.NoParametersAcceptAll | src/main/java/car/sharing/repository/rental/RentalSpecificationBuilder.java:20-34 | with both arrays absent every rental is accepted |
| RentalSpecification.EmptyIsNull | src/main/java/car/sharing/repository/rental/RentalSpecificationBuilder.java:22-29 | an empty array builds the same specification as a null one |
| Store.FindCar | src/main/java/car/sharing/model/Car.java:23-24 | a car is found exactly when its row exists and is not soft-deleted |
| Store.FindRental | src/main/java/car/sharing/model/Rental.java:25-26 | a rental is found exactly when its row exists and is not soft-deleted |
| Store.FindUser | src/main/java/car/sharing/service/impl/UserServiceImpl.java:70-74 | a user is found exactly when its row exists; users have no soft-delete flag |
| Store.FindPaymentBySession | src/main/java/car/sharing/model/Payment.java:45-46 | the lookup finds a live payment with that session id, is empty exactly when no live payment has it, and never fails when session ids are unique |
| Store.EmptyDb | src/main/java/car/sharing/model/Payment.java:45-46 | the empty store meets every store invariant |
| Table.Insert | src/main/java/car/sharing/model/Car.java:26-28 | a saved row gets the next generated id, which no existing row has, and every other row stays |
| Table.Update | src/main/java/car/sharing/service/impl/CarServiceImpl.java:44 | saving a changed row replaces only that row and keeps the id counter |
| Cars.ToJavaInt | src/main/java/car/sharing/model/Car.java:36 | the result is the exact value reduced into 32 bits, and a value already in range is unchanged |
| Cars.Decrement | src/main/java/car/sharing/service/impl/RentalServiceImpl.java:38 | the count drops by one, and the minimum wraps to the maximum |
| Cars.Increment | src/main/java/car/sharing/service/impl/RentalServiceImpl.java:66 | the count rises by one, and the maximum wraps to the minimum |
| Cars.IncrementUndoesDecrement | src/main/java/car/sharing/service/impl/RentalServiceImpl.java:38-66 | giving a unit back undoes reserving it for every count |
| Payments.WithStatus | src/main/java/car/sharing/service/impl/PaymentServiceImpl.java:71 | only the status changes |
| Text.ParseNatToString | src/main/java/car/sharing/service/impl/RentalServiceImpl.java:74 | the decimal rendering of an id in a message reads back as the id |
| Text.ParseLongToString | src/main/java/car/sharing/service/impl/CarServiceImpl.java:58 | the rendering of any id, negative ones included, reads back as that id |
| Text.MessageIdentifiesId | src/main/java/car/sharing/service/impl/RentalServiceImpl.java:80 | two not-found messages with one prefix are equal only for equal ids |

## Left out

- Controllers, HTTP routing, role checks and status codes: they only call the services.
- The chat bot and the notification sender: chat UI and asynchronous delivery. A notification is modelled as the returned event only.
- The payment provider client: session creation is the parameter `stripe`, and its conversion to cents is not modelled.
- Password hashing, authentication and tokens: foreign calls. The encoder is the parameter `encode`.
- The validation of the registration request: its e-mail and password-match validators are not part of this model.
- The object mappers: their generated code is not part of this model. Field-by-field copies are assumed (`ToResponse`, `NewRental`), and `toUpdateRole`'s joined role string is given as the role set.
- `findAllCars` with paging: pagination and ordering are a persistence concern. Searches return sets because the query order is unspecified.
- Calendar arithmetic and decimal scale: dates are day numbers and amounts are exact. The fine factor `overdueDays * 1.5` is a double in the source, and it is exact for every distance between two dates.
- Concurrency and isolation: each service call is one atomic step.
- The `User` entity is modelled with the fields the services read and write; it has no soft-delete flag.
- The role table: a role row is identified with its enum value, so the roles found for a role name are exactly that role.
- Spring Data `deleteById` on an id with no live row is modelled as doing nothing.
- `Store.Valid` (ids match keys, unique session ids and e-mails, references resolve) is the schema's invariant. The service contracts prove they preserve it. Of the database's own checks, only the unique session id (`SavePayment`) and the not-null fee column (`CreateCar`, `UpdateCarById`) are modelled as failures; the foreign keys and the identity column are assumed.
- PaymentService.GetPayments: the exact characterisation needs the store invariant, so it is stated in `GetPaymentsAreTheUsers` under `Store.Valid`. The function's own contract gives only one direction.
- The provider's reason for a refusal is a string parameter. The source appends the exception's own text, which comes from the provider library.
- A violated constraint is a `ConstraintViolation` error carrying the column name. The persistence library's exception text is not modelled.
- CarRequest.Valid: the model's length rule counts characters, while `@Length` counts UTF-16 code units. A model name with characters outside the Basic Multilingual Plane can pass one check and fail the other.
