# Auction house: the User entity and auction-lot creation

This project models two pieces of an auction-house service written in Java, and proves what
each promises.

- **`User`** (`model/User.java`). The validating constructor checks username, password,
  firstName, lastName and organisation, in that order. It throws a `BusinessException` naming
  the first one that is blank. A string is blank when log4j's `Strings.isBlank` says so: it is
  null, empty or whitespace only. After construction the user is a mutable record. `block` and
  `unblock` set the `blocked` flag, `isAdmin` starts false, and plain setters change one field
  each. `validatePassword` compares with `String.equals`, and `toString` renders the username.
  In the model, `User` is a Dafny class with the same fields. `Fields()` gives the whole state
  as one value. `WellFormed()` is the non-blank guarantee that only the validating constructor
  sets up. The setters validate nothing, so a blank value breaks that guarantee.
- **`AuctionLotService.create`** (`service/AuctionLotService.java`). It looks up the owner by
  username and fails with `BusinessException("owner name cannot be null")` when there is none.
  Otherwise it draws an id from the lot registry (`AuctionState.nextId`), builds the
  `AuctionLot`, adds it to the registry and returns it. `CreateLot` is the pure transition on
  the registry state (counter, lots by id). The service method `Create` is proved to make
  exactly that transition on the `AuctionState` object.

Modules: `Java` (nullable strings, `Optional`, exceptions as a `Result` datatype,
`Character.isWhitespace`), `Log4jStrings` (`isBlank`), `Users`, `AuctionModel` (the lot
constructor, `AuctionState` and `UserState`, reduced to what `create` uses) and
`AuctionService`.

Behaviour of the code worth noting:
- A missing owner is a `BusinessException` with the message above, not a not-found error.
- `create` itself validates nothing beyond the owner. The symbol, quantity and price checks
  belong to the lot constructor.
- A failed `create` is not atomic: the id is drawn before the lot constructor can throw, so a
  rejected lot still advances the counter (`CreateLot`, `ZeroMinPriceIsBusinessError`). The
  lots are unchanged.

Sources that are not part of this model: `AuctionLot.java`, `AuctionState.java` and
`UserState.java`. Their behaviour is assumed as follows:
- the counter starts at 0, and `nextId` increments it and returns the new value, so ids
  are 1, 2, …. The code at hand does not fix the starting value. The controller tests assert
  only that ids are positive, and one of them expects no lot under the id
  `getOwnerIndex().size()`, which would be taken if the test data's two lots were numbered 1
  and 2. So the start at 0 is an assumption, and so is `FirstLotGetsIdOne`'s id 1;
- `add` rejects an id that is already filed. The model names that rejection
  `DuplicateIdException`, a placeholder for whatever `add` throws; from a valid registry the
  rejection cannot happen;
- the lot constructor accepts exactly a non-blank symbol, a positive quantity and a positive
  minimum price, and otherwise throws a `BusinessException`. The controller test that expects
  400 for a zero minimum price does not tell this apart from a rejection by request-body
  validation before `create` runs (also mapped to 400); on that path the counter would not
  move;
- `getByUsername` is a lookup in a map keyed by username, and a null name finds nobody.

## Model

| member | source | states |
|---|---|---|
| `Users.User.Construct` | auctionhouse/src/main/java/com/weareadaptive/auction/model/User.java:27-52 | Fails exactly when one of the five strings is blank. The message names the first blank one in checking order. On success every field equals its argument, isAdmin and blocked are false, and the user is well formed. |
| `Users.FirstBlankIndex` | auctionhouse/src/main/java/com/weareadaptive/auction/model/User.java:29-43 | The checking order: the index returned is the first blank value, and all values before it are non-blank. It equals the length when none is blank. |
| `Users.User.constructor` | auctionhouse/src/main/java/com/weareadaptive/auction/model/User.java:24-25 | The no-argument constructor leaves every field at its Java default: null strings, id 0, not admin, not blocked. So it does not set up the non-blank guarantee. |
| `Log4jStrings.AllWhitespaceIffEvery` | auctionhouse/src/main/java/com/weareadaptive/auction/model/User.java:29-43 | The per-character walk behind `isBlank` holds exactly when every character is whitespace. |
| `Log4jStrings.NonBlankIffVisibleChar` | auctionhouse/src/main/java/com/weareadaptive/auction/model/User.java:29-43 | A string passes a constructor check exactly when it is non-null and holds some non-whitespace character. |
| `Users.User.ToString` | auctionhouse/src/main/java/com/weareadaptive/auction/model/User.java:55-59 | The result has the form `User{username='…'}`, and the username text (`null` for a null reference) can be read back from it. |
| `Users.ToStringDependsOnlyOnUsername` | auctionhouse/src/main/java/com/weareadaptive/auction/model/User.java:55-59 | Two users with the same username render alike, whatever their other fields. |
| `Users.ToStringDistinguishesUsernames` | auctionhouse/src/main/java/com/weareadaptive/auction/model/User.java:55-59 | Two users render alike exactly when their usernames print the same. The only collision is a null username with the text "null". |
| `Users.User.ValidatePassword` | auctionhouse/src/main/java/com/weareadaptive/auction/model/User.java:77-79 | The result is true exactly when the candidate is non-null with the stored characters. A null stored password throws NullPointerException, which a well-formed user never does. It reads the state and changes nothing. |
| `Users.User.SetUsername` | auctionhouse/src/main/java/com/weareadaptive/auction/model/User.java:65-67 | Changes only username. A blank value is accepted and breaks the non-blank guarantee. |
| `Users.User.SetPassword` | auctionhouse/src/main/java/com/weareadaptive/auction/model/User.java:73-75 | Changes only password. A blank value is accepted and breaks the non-blank guarantee. |
| `Users.User.SetFirstName` | auctionhouse/src/main/java/com/weareadaptive/auction/model/User.java:85-88 | Changes only firstName, with no validation. A blank value breaks the non-blank guarantee. |
| `Users.User.SetLastName` | auctionhouse/src/main/java/com/weareadaptive/auction/model/User.java:94-96 | Changes only lastName. A blank value is accepted and breaks the non-blank guarantee. |
| `Users.User.SetId` | auctionhouse/src/main/java/com/weareadaptive/auction/model/User.java:102-104 | Changes only id and keeps well-formedness as it was. |
| `Users.User.SetOrganisation` | auctionhouse/src/main/java/com/weareadaptive/auction/model/User.java:110-112 | Changes only organisation. A blank value is accepted and breaks the non-blank guarantee. |
| `Users.User.SetAdmin` | auctionhouse/src/main/java/com/weareadaptive/auction/model/User.java:118-120 | Changes only isAdmin and keeps well-formedness as it was. |
| `Users.User.SetBlocked` | auctionhouse/src/main/java/com/weareadaptive/auction/model/User.java:126-128 | Changes only blocked and keeps well-formedness as it was. |
| `Users.User.Block` | auctionhouse/src/main/java/com/weareadaptive/auction/model/User.java:130-132 | Afterwards the user is blocked and every other field is as before. |
| `Users.User.Unblock` | auctionhouse/src/main/java/com/weareadaptive/auction/model/User.java:134-136 | Afterwards the user is not blocked and every other field is as before. |
| `Users.BlockUnblockScenario` | auctionhouse/src/main/java/com/weareadaptive/auction/model/User.java:130-136 | The net effect of block, block, unblock, unblock: a user ends unblocked with every other field as before, and a user that was not blocked ends exactly as it was. (Idempotence of each call follows from the contracts of `Block` and `Unblock`.) |
| `AuctionService.CreateLot` | auctionhouse/src/main/java/com/weareadaptive/auction/service/AuctionLotService.java:22-33 | Without an owner: the fixed BusinessException, no id drawn, nothing added. With an owner: exactly one id is drawn, even when the lot is rejected, and every failure leaves the lots unchanged. On success the lot has the drawn id (on a valid registry, positive and new), the resolved owner and the requested symbol, quantity and minPrice. It is the one lot added, and every other lot is kept. The registry invariant is preserved. On a valid registry with an owner, the call succeeds exactly when the lot constructor accepts. |
| `AuctionService.AuctionLotService.Create` | auctionhouse/src/main/java/com/weareadaptive/auction/service/AuctionLotService.java:22-33 | The result and the new registry state are those `CreateLot` gives for the old state and the owner lookup. The registry invariant is preserved. |
| `AuctionService.ZeroMinPriceIsBusinessError` | auctionhouse/src/test/java/com/weareadaptive/auction/controller/AuctionControllerTest.java:70-86 | A request with minPrice 0 fails with a BusinessException, which the boundary maps to 400. The counter has moved and the lots have not. |
| `AuctionService.FirstLotGetsIdOne` | auctionhouse/src/test/java/com/weareadaptive/auction/controller/AuctionControllerTest.java:47-68 | On an empty registry every request the lot constructor accepts gets id 1, which is positive, for any symbol, minPrice and quantity. The id 1 comes from the assumed counter start, not from the test, which checks only that the id is positive. The lot carries the requested symbol, minPrice and quantity and is the only lot filed. |
| `AuctionModel.AddToRegistry` | auctionhouse/src/main/java/com/weareadaptive/auction/service/AuctionLotService.java:30 | add fails exactly when the id is taken, and a failed add changes nothing. A successful add files the lot under its id, grows the lot count by one and keeps every other lot and the counter. |
| `AuctionModel.AuctionState.NextId` | auctionhouse/src/main/java/com/weareadaptive/auction/service/AuctionLotService.java:29 | Returns the counter's next value and changes nothing else. On a valid registry the id is positive and not yet filed. |
| `AuctionModel.AuctionState.Add` | auctionhouse/src/main/java/com/weareadaptive/auction/service/AuctionLotService.java:30 | Makes exactly the transition `AddToRegistry` describes. It keeps the registry invariant when the lot's id was drawn from the counter. |
| `AuctionModel.AuctionState.constructor` | auctionhouse/src/main/java/com/weareadaptive/auction/service/AuctionLotService.java:29 | The registry starts with the counter at 0 and no lots, and is valid. This is the assumed counter start listed above. |
| `AuctionModel.NewAuctionLot` | auctionhouse/src/main/java/com/weareadaptive/auction/service/AuctionLotService.java:29 | The lot constructor called here builds the lot with exactly the given id, owner, symbol, quantity and minPrice when the arguments are accepted, and otherwise throws a BusinessException. Which arguments it accepts is the assumption listed above. |
| `AuctionModel.UserState.GetByUsername` | auctionhouse/src/main/java/com/weareadaptive/auction/service/AuctionLotService.java:23 | Finds a user exactly when the name is non-null and filed, and then returns the user filed under it. A null name finds nobody. This is the assumed lookup listed above. |
| `AuctionModel.UserState.constructor` | auctionhouse/src/main/java/com/weareadaptive/auction/service/AuctionLotService.java:23 | The user registry holds exactly the users it is given, filed by username. This is the assumed lookup map listed above; it sets up the registries the scenarios use. |
| `AuctionService.AuctionLotService.constructor` | auctionhouse/src/main/java/com/weareadaptive/auction/service/AuctionLotService.java:17-20 | The service keeps the lot registry and the user registry it is given. |

## Left out

- Getters (`getUsername`, `isAdmin`, `isBlocked`, …): these are reads of the class's fields.
- Concurrency: `nextId` and `add` are modelled as sequential calls. Atomicity is not modelled.
- Java `int` overflow: ids, quantities and the counter are unbounded integers. `nextId` wrapping
  around after 2^31 - 1 draws is not modelled.
- `minPrice` is a `double` that is only passed through. It is a `real` here, without
  floating-point behaviour.
- Characters are Unicode scalar values, not UTF-16 code units. Which characters count as
  whitespace follows `Character.isWhitespace`. Older log4j versions used `trim()` instead,
  which treats every character up to U+0020 as blank. No proof depends on this class beyond
  the concrete scenarios.
- The lot constructor's exception message is a placeholder. `AuctionLot.java` is not part of
  this model, so only its kind (BusinessException) is stated.
- The exception kind of `add`'s rejection (`DuplicateIdException`) is a placeholder.
  `AuctionState.java` is not part of this model; from a valid registry that path is never taken.
- Persistence annotations and identity generation for `User` are left out. They are storage
  concerns.
- Object identity of lots: in the code, the lot filed by `add` and the lot `create` returns
  are the same object. Here `AuctionLot` is a value, so the model states only that the two
  are equal, not that they are one object that later changes would affect alike.
- The owner index of `AuctionState` is left out. `create` does not use it directly.
- The HTTP layer is left out: controllers, the mapping of exceptions to status codes and the
  integration tests. The tests serve only as evidence of expected outcomes.
- The bidding, closing and allocation logic is not part of this model. It lives in sources that
  are not part of this model.
