/** AuctionLotService.create: resolve the owner, draw an id, build the lot, add it. */
module AuctionService {
  import opened Java
  import opened Users
  import opened AuctionModel

  const OwnerMissingMessage: string := "owner name cannot be null"

  /** The registry transition create makes, given the owner lookup's result. The owner check
      comes first; the id is drawn before the lot constructor runs, so a rejected lot still
      moves the counter; only a built lot reaches add. */
  function CreateLot(reg: Registry, owner: Optional<User>, symbol: JString, minPrice: real,
                     quantity: int): (out: (Result<AuctionLot>, Registry))
    // no owner: the fixed error, and no id drawn, nothing added
    ensures owner.Empty? ==> out == (Failure(BusinessException(OwnerMissingMessage)), reg)
    // an owner: exactly one id drawn, whatever happens next
    ensures owner.Of? ==> out.1.currentId == reg.currentId + 1
    // every failure leaves the lots as they were
    ensures out.0.Failure? ==> out.1.lots == reg.lots
    // success: the lot carries the drawn id, the resolved owner and the arguments unchanged
    ensures out.0.Success? ==>
              owner.Of? && out.0.value == AuctionLot(reg.currentId + 1, owner.value, symbol, quantity, minPrice)
    // success adds exactly that lot under its id and keeps every other lot
    ensures out.0.Success? ==>
              && out.1.lots.Keys == reg.lots.Keys + {out.0.value.id}
              && out.1.lots[out.0.value.id] == out.0.value
              && forall id :: id in reg.lots ==> out.1.lots[id] == reg.lots[id]
    ensures RegistryValid(reg) ==> RegistryValid(out.1)
    // on a valid registry the id is positive and new, the lot count grows by one, and with an
    // owner the call succeeds exactly when the lot constructor accepts the arguments
    ensures RegistryValid(reg) && out.0.Success? ==>
              out.0.value.id > 0 && out.0.value.id !in reg.lots && |out.1.lots| == |reg.lots| + 1
    ensures RegistryValid(reg) && owner.Of? ==>
              (out.0.Success? <==> LotArgumentsAccepted(symbol, quantity, minPrice))
  {
    match owner
    case Empty => (Failure(BusinessException(OwnerMissingMessage)), reg)
    case Of(user) =>
      var id := reg.currentId + 1;
      var drawn := reg.(currentId := id);
      match NewAuctionLot(id, user, symbol, quantity, minPrice)
      case Failure(e) => (Failure(e), drawn)
      case Success(lot) =>
        var (outcome, added) := AddToRegistry(drawn, lot);
        if outcome.Fail? then (Failure(outcome.error), added) else (Success(lot), added)
  }

  /** A request with a zero minimum price is a business error: the counter has moved, the lots
      have not. */
  lemma ZeroMinPriceIsBusinessError(reg: Registry, owner: User, symbol: JString, quantity: int)
    ensures var out := CreateLot(reg, Of(owner), symbol, 0.0, quantity);
            && out.0.Failure? && out.0.error.BusinessException?
            && out.1 == reg.(currentId := reg.currentId + 1)
  {
  }

  class AuctionLotService {
    static const AuctionLotEntity: string := "AuctionLot"
    const auctionState: AuctionState
    const userState: UserState

    constructor (auctionState: AuctionState, userState: UserState)
      ensures this.auctionState == auctionState && this.userState == userState
    {
      this.auctionState := auctionState;
      this.userState := userState;
    }

    method Create(ownerName: JString, symbol: JString, minPrice: real, quantity: int)
      returns (r: Result<AuctionLot>)
      modifies auctionState
      ensures (r, auctionState.Snapshot())
              == CreateLot(old(auctionState.Snapshot()), userState.GetByUsername(ownerName),
                           symbol, minPrice, quantity)
      ensures old(auctionState.Valid()) ==> auctionState.Valid()
    {
      var owner := userState.GetByUsername(ownerName);
      if owner.Empty? {
        return Failure(BusinessException(OwnerMissingMessage));
      }
      var id := auctionState.NextId();
      var lot := NewAuctionLot(id, owner.value, symbol, quantity, minPrice);
      if lot.Failure? {
        return Failure(lot.error);
      }
      var outcome := auctionState.Add(lot.value);
      if outcome.Fail? {
        return Failure(outcome.error);
      }
      r := lot;
    }
  }

  /** The controller test's rejected request: a zero minimum price is a business error, after
      which the counter has moved and the lots have not. */
  method ZeroMinPriceScenario(owner: User)
  {
    var state := new AuctionState();
    var users := new UserState(map["user1" := owner]);
    var service := new AuctionLotService(state, users);
    var rejected := service.Create(Str("user1"), Str("AAPL"), 0.0, 10);
    assert rejected.Failure? && rejected.error.BusinessException?;
    assert state.lots == map[] && state.currentId == 1;
  }

  /** The controller test's accepted request on an empty registry: with the counter starting at
      0, any accepted request gets id 1 and its lot carries the symbol, minimum price and
      quantity as requested. */
  lemma FirstLotGetsIdOne(owner: User, symbol: JString, minPrice: real, quantity: int)
    requires LotArgumentsAccepted(symbol, quantity, minPrice)
    ensures var lot := AuctionLot(1, owner, symbol, quantity, minPrice);
            CreateLot(Registry(0, map[]), Of(owner), symbol, minPrice, quantity)
            == (Success(lot), Registry(1, map[1 := lot]))
  {
  }

  /** One such request through the service object. */
  method CreatedScenario(owner: User)
  {
    var state := new AuctionState();
    var users := new UserState(map["user1" := owner]);
    var service := new AuctionLotService(state, users);
    assert users.GetByUsername(Str("user1")) == Of(owner);
    assert !IsWhitespace("AAPL"[0]);
    FirstLotGetsIdOne(owner, Str("AAPL"), 2.5, 10);
    var created := service.Create(Str("user1"), Str("AAPL"), 2.5, 10);
    assert created == Success(AuctionLot(1, owner, Str("AAPL"), 10, 2.5));
    assert state.lots == map[1 := created.value];
  }

  /** An owner name nobody has fails before any id is drawn. */
  method UnknownOwnerScenario(owner: User)
  {
    var state := new AuctionState();
    var users := new UserState(map["user1" := owner]);
    var service := new AuctionLotService(state, users);
    assert "nobody"[0] != "user1"[0];
    var unknown := service.Create(Str("nobody"), Str("AAPL"), 2.5, 10);
    assert unknown == Failure(BusinessException(OwnerMissingMessage));
    assert state.currentId == 0 && state.lots == map[];
  }
}
