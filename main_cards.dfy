/**
 * The trip cards and the two collaborators the main screens talk to: the
 * view model behind `MainViewModelProtocol`, and its `MainDataManager`, the
 * Core Data store. Both are gateways that record the calls made on them.
 */
module MainCards {
  import opened Wrappers
  import opened Foundation
  import opened SubCards

  /** `MainCardDTO`, with the fields the main screens read. */
  datatype MainCard = MainCard(
    id: Uuid,
    title: string,
    image: Option<Image>,
    date: Date,
    subCards: seq<SubCard>)

  function MainCardId(card: MainCard): Uuid { card.id }

  /** One call on `MainViewModelProtocol`. */
  datatype Command =
    | AppendMainCard(title: string, image: Option<Image>)
    | ChangeSubCards(id: Uuid, cards: seq<SubCard>)
    | DeleteCard(id: Uuid)
    | BookmarkCard(id: Uuid)
    | EditMainCardTitle(id: Uuid, title: string)
    | EditMainCardImage(id: Uuid, image: Option<Image>)
    | EditMainCardDate(id: Uuid, date: Date)

  /** An error thrown by the store: a `CoreDataError`, or any other `Error`. */
  datatype AppError =
    | CoreDataError(description: string, localizedDescription: string)
    | OtherError(localizedDescription: string)

  /** One call on `MainDataManager`. */
  datatype StoreCall = WriteMainCard(card: MainCard) | SaveContext | ReadMainCards

  /**
   * `MainDataManager`. Its internals are not part of this model: the n-th
   * call it receives fails with `failure(n)` when that is an error, and a
   * successful read as the n-th call returns `stored(n)`.
   */
  class MainDataManager {
    /** Every call received, in order. */
    var calls: seq<StoreCall>
    const failure: nat -> Option<AppError>
    const stored: nat -> seq<MainCard>

    constructor (failure: nat -> Option<AppError>, stored: nat -> seq<MainCard>)
      ensures calls == [] && this.failure == failure && this.stored == stored
    {
      calls := [];
      this.failure := failure;
      this.stored := stored;
    }

    /** `writeMainCard(mainModel:)`; a thrown error is the returned one. */
    method WriteMainCard(mainModel: MainCard) returns (error: Option<AppError>)
      modifies this
      ensures calls == old(calls) + [StoreCall.WriteMainCard(mainModel)]
      ensures error == failure(|old(calls)|)
    {
      error := failure(|calls|);
      calls := calls + [StoreCall.WriteMainCard(mainModel)];
    }

    /** `saveContext()`: the commit. */
    method SaveContext() returns (error: Option<AppError>)
      modifies this
      ensures calls == old(calls) + [StoreCall.SaveContext]
      ensures error == failure(|old(calls)|)
    {
      error := failure(|calls|);
      calls := calls + [StoreCall.SaveContext];
    }

    /** `readMainCards()`. */
    method ReadMainCards() returns (result: Result<seq<MainCard>, AppError>)
      modifies this
      ensures calls == old(calls) + [StoreCall.ReadMainCards]
      ensures failure(|old(calls)|).Some? ==> result == Failure(failure(|old(calls)|).value)
      ensures failure(|old(calls)|).None? ==> result == Success(stored(|old(calls)|))
    {
      var n := |calls|;
      result := if failure(n).Some? then Failure(failure(n).value) else Success(stored(n));
      calls := calls + [StoreCall.ReadMainCards];
    }
  }

  /**
   * The view model behind `MainViewModelProtocol`. Its implementation is not
   * part of this model: a command is recorded, and what it does to `list`
   * is left open by the contracts.
   */
  class MainViewModel {
    /** `list.value`: the trip cards on screen. */
    var list: seq<MainCard>
    /** Every command received, in order. */
    var commands: seq<Command>
    const mainDataManager: MainDataManager

    constructor (list: seq<MainCard>, mainDataManager: MainDataManager)
      ensures this.list == list && commands == [] && this.mainDataManager == mainDataManager
    {
      this.list := list;
      commands := [];
      this.mainDataManager := mainDataManager;
    }

    method AppendMainCard(title: string, image: Option<Image>)
      modifies this
      ensures commands == old(commands) + [Command.AppendMainCard(title, image)]
    {
      commands := commands + [Command.AppendMainCard(title, image)];
    }

    method EditMainCardTitle(id: Uuid, title: string)
      modifies this
      ensures commands == old(commands) + [Command.EditMainCardTitle(id, title)]
    {
      commands := commands + [Command.EditMainCardTitle(id, title)];
    }

    method EditMainCardImage(id: Uuid, image: Option<Image>)
      modifies this
      ensures commands == old(commands) + [Command.EditMainCardImage(id, image)]
    {
      commands := commands + [Command.EditMainCardImage(id, image)];
    }

    method EditMainCardDate(id: Uuid, date: Date)
      modifies this
      ensures commands == old(commands) + [Command.EditMainCardDate(id, date)]
    {
      commands := commands + [Command.EditMainCardDate(id, date)];
    }
  }
}
