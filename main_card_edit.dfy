/**
 * `MainCardEditViewController`: the screen that creates a trip card or edits
 * the selected one, and turns its title, image and selection into commands
 * on the main view model.
 */
module MainCardEdit {
  import opened Wrappers
  import opened Foundation
  import opened Collections
  import opened MainCards

  /** `PHPickerResult`: one picked item, an opaque handle. */
  datatype PickerResult = PickerResult(handle: nat)

  class MainCardEditViewController {
    const mainViewModel: MainViewModel
    var selectedCardId: Option<Uuid>
    /** `titleView.text`. */
    var titleText: Option<string>
    /** `imageView.image`. */
    var image: Option<Image>
    /** `addButton.isHidden`. */
    var addButtonHidden: bool
    /** Whether `dismiss(animated:)` was requested. */
    var dismissed: bool

    /**
     * `init(mainViewmodel:)`: a screen for a new card. `TitleView` is not
     * part of this model, so the text its field starts with is a parameter.
     */
    constructor (mainViewModel: MainViewModel, initialTitle: Option<string>)
      ensures this.mainViewModel == mainViewModel && selectedCardId.None?
      ensures titleText == initialTitle && image.None? && !addButtonHidden && !dismissed
    {
      this.mainViewModel := mainViewModel;
      selectedCardId := None;
      titleText := initialTitle;
      image := None;
      addButtonHidden := false;
      dismissed := false;
    }

    /** `init(mainViewModel:id:)`: a screen for the card `id`, filled in by `loadMainCard`. */
    constructor Editing(mainViewModel: MainViewModel, id: Uuid, initialTitle: Option<string>)
      ensures this.mainViewModel == mainViewModel && selectedCardId == Some(id) && !dismissed
      ensures (forall i :: 0 <= i < |mainViewModel.list| ==> mainViewModel.list[i].id != id) ==>
        titleText == initialTitle && image.None? && !addButtonHidden
      ensures forall k :: Locates(mainViewModel.list, id, k) ==>
        && titleText == Some(mainViewModel.list[k].title)
        && image == mainViewModel.list[k].image
        && (addButtonHidden <==> mainViewModel.list[k].image.Some?)
    {
      this.mainViewModel := mainViewModel;
      selectedCardId := Some(id);
      titleText := initialTitle;
      image := None;
      addButtonHidden := false;
      dismissed := false;
      new;
      LoadMainCard(id);
    }

    /** `k` is the index of the first card with this id. */
    static predicate Locates(list: seq<MainCard>, id: Uuid, k: int)
    {
      0 <= k < |list| && list[k].id == id && forall j :: 0 <= j < k ==> list[j].id != id
    }

    /**
     * `loadMainCard(selectedCardID:)`: an unknown id changes nothing. For
     * the first card with this id, the title field shows its title; its
     * image, when it has one, replaces the shown image; and the add button
     * is hidden exactly when the card has an image.
     */
    method LoadMainCard(id: Uuid)
      modifies this`titleText, this`image, this`addButtonHidden
      ensures (forall i :: 0 <= i < |mainViewModel.list| ==> mainViewModel.list[i].id != id) ==>
        titleText == old(titleText) && image == old(image) && addButtonHidden == old(addButtonHidden)
      ensures forall k :: Locates(mainViewModel.list, id, k) ==>
        && titleText == Some(mainViewModel.list[k].title)
        && image == (if mainViewModel.list[k].image.Some? then mainViewModel.list[k].image else old(image))
        && (addButtonHidden <==> mainViewModel.list[k].image.Some?)
    {
      var list := mainViewModel.list;
      var index := FirstIndex(list, MainCardId, id);
      if index.None? {
        return;
      }
      forall k | Locates(list, id, k)
        ensures k == index.value
      {
        FirstIndexUnique(list, MainCardId, id, k);
      }
      var card := list[index.value];
      titleText := Some(card.title);
      if card.image.Some? {
        image := card.image;
        addButtonHidden := true;
      } else {
        addButtonHidden := false;
      }
    }

    /**
     * `doneAction()`, running its dismissal completion at once. With no title
     * nothing is sent. Without a selected card, one `appendMainCard` carries
     * the title and the shown image (none when there is none). For a selected
     * card, its title, image and date (`now`) are edited, in that order.
     */
    method DoneAction(now: Date)
      modifies this`dismissed, mainViewModel
      ensures dismissed
      ensures titleText.None? ==> mainViewModel.commands == old(mainViewModel.commands)
      ensures titleText.Some? && selectedCardId.None? ==>
        mainViewModel.commands == old(mainViewModel.commands) + [Command.AppendMainCard(titleText.value, image)]
      ensures titleText.Some? && selectedCardId.Some? ==>
        mainViewModel.commands == old(mainViewModel.commands) +
          [ Command.EditMainCardTitle(selectedCardId.value, titleText.value),
            Command.EditMainCardImage(selectedCardId.value, image),
            Command.EditMainCardDate(selectedCardId.value, now) ]
    {
      dismissed := true;
      if titleText.None? {
        return;
      }
      var title := titleText.value;
      var thumbnailImage := image;

      if selectedCardId.None? {
        if thumbnailImage.None? {
          mainViewModel.AppendMainCard(title, None);
        } else {
          mainViewModel.AppendMainCard(title, thumbnailImage);
        }
        return;
      }
      var cardId := selectedCardId.value;
      mainViewModel.EditMainCardTitle(cardId, title);
      mainViewModel.EditMainCardImage(cardId, image);
      mainViewModel.EditMainCardDate(cardId, now);
    }

    /** `cancelAction()`: dismisses, and sends nothing to the view model. */
    method CancelAction()
      modifies this`dismissed
      ensures dismissed && mainViewModel.commands == old(mainViewModel.commands)
      ensures mainViewModel.list == old(mainViewModel.list)
    {
      dismissed := true;
    }

    /**
     * `picker(_:didFinishPicking:)`: the add button is shown exactly when no
     * image is shown and nothing was picked. Loading the picked image is
     * asynchronous and not part of this model, so the image stays as it is.
     */
    method PickerDidFinish(results: seq<PickerResult>)
      modifies this`addButtonHidden
      ensures addButtonHidden <==> !(image.None? && |results| == 0)
    {
      if image.None? && |results| == 0 {
        addButtonHidden := false;
      } else {
        addButtonHidden := true;
      }
    }
  }
}
