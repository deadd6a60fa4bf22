/** The collaborators AuctionLotService.create calls: the lot constructor, the lot registry
    (AuctionState) and the user registry (UserState). Their sources are not part of this
    model, so each is reduced to what create relies on. */
module AuctionModel {
  import opened Java
  import opened Log4jStrings
  import opened Users

  /** An auction lot as create builds it: its id, its owner, what is sold and the price floor. */
  datatype AuctionLot = AuctionLot(id: int, owner: User, symbol: JString, quantity: int, minPrice: real)

  /** What the lot constructor accepts: a non-blank symbol, a positive quantity and a strictly
      positive minimum price. */
  predicate LotArgumentsAccepted(symbol: JString, quantity: int, minPrice: real) {
    !IsBlank(symbol) && quantity > 0 && minPrice > 0.0
  }

  const InvalidLotMessage: string := "invalid auction lot arguments"

  /** The lot constructor: builds the lot from its arguments or throws a BusinessException. */
  function NewAuctionLot(id: int, owner: User, symbol: JString, quantity: int, minPrice: real)
    : (r: Result<AuctionLot>)
    ensures r.Success? <==> LotArgumentsAccepted(symbol, quantity, minPrice)
    ensures r.Success? ==> r.value == AuctionLot(id, owner, symbol, quantity, minPrice)
    ensures r.Failure? ==> r.error.BusinessException?
  {
    if LotArgumentsAccepted(symbol, quantity, minPrice)
    then Success(AuctionLot(id, owner, symbol, quantity, minPrice))
    else Failure(BusinessException(InvalidLotMessage))
  }

  /** The registry's state: the id counter and the lots by id. */
  datatype Registry = Registry(currentId: int, lots: map<int, AuctionLot>)

  /** The registry invariant: every lot is filed under its own id, and that id was drawn from the
      counter, so ids still to be drawn are free. */
  predicate RegistryValid(reg: Registry) {
    && reg.currentId >= 0
    && forall id :: id in reg.lots ==> 0 < id <= reg.currentId && reg.lots[id].id == id
  }

  /** add: files the lot under its id, or throws when the id is taken, leaving the registry as
      it was. */
  function AddToRegistry(reg: Registry, lot: AuctionLot): (out: (Outcome, Registry))
    ensures out.0.Fail? <==> lot.id in reg.lots
    ensures out.0.Fail? ==> out.1 == reg
    ensures out.0.Pass? ==> out.1.currentId == reg.currentId
    ensures out.0.Pass? ==> out.1.lots.Keys == reg.lots.Keys + {lot.id} && out.1.lots[lot.id] == lot
    ensures out.0.Pass? ==> |out.1.lots| == |reg.lots| + 1
    ensures out.0.Pass? ==> forall id :: id in reg.lots ==> out.1.lots[id] == reg.lots[id]
  {
    if lot.id in reg.lots then (Fail(DuplicateIdException(lot.id)), reg)
    else (Pass, reg.(lots := reg.lots[lot.id := lot]))
  }

  /** The lot registry (AuctionState): an id counter and the lots by id. */
  class AuctionState {
    var currentId: int
    var lots: map<int, AuctionLot>

    function Snapshot(): Registry
      reads this
    {
      Registry(currentId, lots)
    }

    predicate Valid()
      reads this
    {
      RegistryValid(Snapshot())
    }

    constructor ()
      ensures Snapshot() == Registry(0, map[])
      ensures Valid()
    {
      currentId := 0;
      lots := map[];
    }

    /** Increments the counter and returns its new value; the lots are untouched. */
    method NextId() returns (id: int)
      modifies this
      ensures id == old(currentId) + 1
      ensures Snapshot() == old(Snapshot()).(currentId := id)
      ensures old(Valid()) ==> Valid() && id > 0 && id !in lots
    {
      currentId := currentId + 1;
      id := currentId;
    }

    method Add(lot: AuctionLot) returns (outcome: Outcome)
      modifies this
      ensures (outcome, Snapshot()) == AddToRegistry(old(Snapshot()), lot)
      ensures old(Valid()) && 0 < lot.id <= old(currentId) ==> Valid()
    {
      if lot.id in lots {
        outcome := Fail(DuplicateIdException(lot.id));
      } else {
        lots := lots[lot.id := lot];
        outcome := Pass;
      }
    }
  }

  /** The user registry (UserState), reduced to its lookup by username. */
  class UserState {
    var byUsername: map<string, User>

    constructor (users: map<string, User>)
      ensures byUsername == users
    {
      byUsername := users;
    }

    /** getByUsername: the user filed under that name, or an empty Optional (also for null). */
    function GetByUsername(name: JString): (r: Optional<User>)
      reads this
      ensures r.Of? <==> name.Str? && name.chars in byUsername
      ensures r.Of? ==> r.value == byUsername[name.chars]
    {
      if name.Str? && name.chars in byUsername then Of(byUsername[name.chars]) else Empty
    }
  }
}
