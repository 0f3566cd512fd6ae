/**
 * `SubCardsViewModel`: the sub-cards of one trip card, and the draft sub-card
 * that the edit form writes into until the user confirms.
 */
module SubCards {
  import opened Wrappers
  import opened Foundation
  import opened Collections
  import opened Location

  /** `CardCategory`: its cases are not part of this model, so a tag stands for each. */
  datatype CardCategory = CardCategory(tag: nat)

  /** `SubCardModelDTO`, with the fields the view model writes. */
  datatype SubCard = SubCard(
    id: Uuid,
    title: Option<string>,
    images: Option<seq<Image>>,
    starsState: seq<bool>,
    price: Option<real>,
    location: Option<LocationDTO>,
    category: CardCategory,
    script: Option<string>)

  function CardId(card: SubCard): Uuid { card.id }

  /** The list after `deleteSubCard`: the cards whose id is not to be deleted, in order. */
  function Remaining(s: seq<SubCard>, idsToDelete: set<Uuid>): (r: seq<SubCard>)
    ensures |r| <= |s|
    ensures forall i :: 0 <= i < |r| ==> r[i].id !in idsToDelete
  {
    if s == [] then []
    else (if s[0].id in idsToDelete then [] else [s[0]]) + Remaining(s[1..], idsToDelete)
  }

  /** Exactly the cards whose id is not in the set remain. */
  lemma {:induction false} RemainingMembers(s: seq<SubCard>, idsToDelete: set<Uuid>)
    ensures forall c :: c in Remaining(s, idsToDelete) <==> c in s && c.id !in idsToDelete
  {
    if s != [] {
      RemainingMembers(s[1..], idsToDelete);
      assert s == [s[0]] + s[1..];
    }
  }

  /**
   * The remaining cards keep their relative order: deleting from `a + b`
   * is deleting from `a`, then from `b`, and concatenating.
   */
  lemma {:induction false} RemainingConcat(a: seq<SubCard>, b: seq<SubCard>, idsToDelete: set<Uuid>)
    ensures Remaining(a + b, idsToDelete) == Remaining(a, idsToDelete) + Remaining(b, idsToDelete)
  {
    if a == [] {
      assert a + b == b;
    } else {
      assert (a + b)[1..] == a[1..] + b;
      RemainingConcat(a[1..], b, idsToDelete);
    }
  }

  /** Deleting ids that no card has changes nothing. */
  lemma {:induction false} RemainingAbsent(s: seq<SubCard>, idsToDelete: set<Uuid>)
    requires forall i :: 0 <= i < |s| ==> s[i].id !in idsToDelete
    ensures Remaining(s, idsToDelete) == s
  {
    if s != [] {
      RemainingAbsent(s[1..], idsToDelete);
    }
  }

  /** Deleting the same ids twice is deleting them once. */
  lemma RemainingIdempotent(s: seq<SubCard>, idsToDelete: set<Uuid>)
    ensures Remaining(Remaining(s, idsToDelete), idsToDelete) == Remaining(s, idsToDelete)
  {
    var r := Remaining(s, idsToDelete);
    RemainingMembers(s, idsToDelete);
    assert forall i :: 0 <= i < |r| ==> r[i] in r;
    RemainingAbsent(r, idsToDelete);
  }

  /**
   * The draft price after `updateEditingCardPrice(price:)`: unchanged for no
   * text and for text whose last character is a `.` not preceded by another
   * `.`; otherwise `Double(text)`, which is `nil` when the text does not parse.
   */
  function DraftPrice(current: Option<real>, text: Option<string>, parse: string -> Option<real>): (r: Option<real>)
    ensures text.None? ==> r == current
    ensures text.Some? && EndsWithLoneDot(text.value) ==> r == current
    ensures text.Some? && !EndsWithLoneDot(text.value) ==> r == parse(text.value)
  {
    if text.Some? && Suffix(text.value, 1) == "." && Suffix(text.value, 2) != ".." then current
    else if text.Some? then parse(text.value)
    else current
  }

  /** The last `n` characters of `s` (all of `s` when it is shorter): Swift's `suffix(n)`. */
  function Suffix(s: string, n: nat): (r: string)
    ensures |r| == if |s| < n then |s| else n
    ensures r == s[|s| - |r|..]
  {
    if |s| < n then s else s[|s| - n..]
  }

  /** `s` ends in one `.` that does not follow another `.`. */
  predicate EndsWithLoneDot(s: string)
  {
    |s| >= 1 && s[|s| - 1] == '.' && (|s| == 1 || s[|s| - 2] != '.')
  }

  /** Feeding the same text to the price setter twice has the effect of feeding it once. */
  lemma DraftPriceIdempotent(current: Option<real>, text: Option<string>, parse: string -> Option<real>)
    ensures DraftPrice(DraftPrice(current, text, parse), text, parse) == DraftPrice(current, text, parse)
  {
  }

  /**
   * The guard only holds back a text ending in one `.`: "12." keeps the old
   * price, while "1..", and "1.2.3" with its second `.` inside, go to the parser.
   */
  lemma DraftPriceExamples(current: Option<real>, parse: string -> Option<real>)
    ensures DraftPrice(current, Some("12."), parse) == current
    ensures DraftPrice(current, Some("."), parse) == current
    ensures DraftPrice(current, Some("1.."), parse) == parse("1..")
    ensures DraftPrice(current, Some("1.2.3"), parse) == parse("1.2.3")
    ensures DraftPrice(current, Some("12"), parse) == parse("12")
  {
    assert !EndsWithLoneDot("1..");
    assert !EndsWithLoneDot("1.2.3");
    assert !EndsWithLoneDot("12");
  }

  class SubCardsViewModel {
    /** `list.value`: the committed sub-cards. */
    var list: seq<SubCard>
    /** `editingSubCard.value`: the draft. */
    var editingSubCard: SubCard

    /** Starts with no sub-cards; `SubCardModelDTO()` is not part of this model, so the draft is given. */
    constructor (draft: SubCard)
      ensures list == [] && editingSubCard == draft
    {
      list := [];
      editingSubCard := draft;
    }

    /** `selectCard(id:)`: the first sub-card with this id, or none; the list is only read. */
    function SelectCard(id: Uuid): (r: Option<SubCard>)
      reads this
      ensures r.None? <==> forall i :: 0 <= i < |list| ==> list[i].id != id
      ensures r.Some? ==> r.value.id == id
      ensures r.Some? ==> exists i :: 0 <= i < |list| && list[i] == r.value &&
                                      (forall j :: 0 <= j < i ==> list[j].id != id)
    {
      match FirstIndex(list, CardId, id)
      case None => None
      case Some(i) => Some(list[i])
    }

    /**
     * `updateSubCard(id:card:)`: the first sub-card with this id becomes `card`;
     * the length and every other entry stay; an unknown id changes nothing.
     */
    method UpdateSubCard(id: Uuid, card: SubCard)
      modifies this`list
      ensures |list| == |old(list)| && editingSubCard == old(editingSubCard)
      ensures (forall i :: 0 <= i < |old(list)| ==> old(list)[i].id != id) ==> list == old(list)
      ensures forall k :: (0 <= k < |old(list)| && old(list)[k].id == id &&
                           (forall j :: 0 <= j < k ==> old(list)[j].id != id)) ==> list == old(list)[k := card]
    {
      match FirstIndex(list, CardId, id)
      case None =>
      case Some(index) =>
        list := list[index := card];
    }

    /** `deleteSubCard(uuidsToDelete:)`: keeps the sub-cards whose id is not in the set. */
    method DeleteSubCard(uuidsToDelete: set<Uuid>)
      modifies this`list
      ensures list == Remaining(old(list), uuidsToDelete)
      ensures editingSubCard == old(editingSubCard)
    {
      list := Remaining(list, uuidsToDelete);
    }

    /** `updateEditingCardTitle(title:)`. */
    method UpdateEditingCardTitle(title: Option<string>)
      modifies this`editingSubCard
      ensures editingSubCard == old(editingSubCard).(title := title) && list == old(list)
    {
      editingSubCard := editingSubCard.(title := title);
    }

    /** `updateEditingCardImages(images:)`. */
    method UpdateEditingCardImages(images: Option<seq<Image>>)
      modifies this`editingSubCard
      ensures editingSubCard == old(editingSubCard).(images := images) && list == old(list)
    {
      editingSubCard := editingSubCard.(images := images);
    }

    /** `updateEditingCardStarState(starState:)`. */
    method UpdateEditingCardStarState(starState: seq<bool>)
      modifies this`editingSubCard
      ensures editingSubCard == old(editingSubCard).(starsState := starState) && list == old(list)
    {
      editingSubCard := editingSubCard.(starsState := starState);
    }

    /** `updateEditingCardPrice(price:)`, with `Double(_:)` as `parse`. */
    method UpdateEditingCardPrice(price: Option<string>, parse: string -> Option<real>)
      modifies this`editingSubCard
      ensures editingSubCard == old(editingSubCard).(price := DraftPrice(old(editingSubCard.price), price, parse))
      ensures list == old(list)
    {
      if price.Some? && Suffix(price.value, 1) == "." {
        if Suffix(price.value, 2) != ".." {
          return;
        }
      }
      if price.Some? {
        editingSubCard := editingSubCard.(price := parse(price.value));
      }
    }

    /** `updateEditingCardLocation(location:)`. */
    method UpdateEditingCardLocation(location: Option<LocationDTO>)
      modifies this`editingSubCard
      ensures editingSubCard == old(editingSubCard).(location := location) && list == old(list)
    {
      editingSubCard := editingSubCard.(location := location);
    }

    /** `updateEditingCardCategory(category:)`. */
    method UpdateEditingCardCategory(category: CardCategory)
      modifies this`editingSubCard
      ensures editingSubCard == old(editingSubCard).(category := category) && list == old(list)
    {
      editingSubCard := editingSubCard.(category := category);
    }

    /** `updateEditingCardScript(text:)`. */
    method UpdateEditingCardScript(text: Option<string>)
      modifies this`editingSubCard
      ensures editingSubCard == old(editingSubCard).(script := text) && list == old(list)
    {
      editingSubCard := editingSubCard.(script := text);
    }
  }
}
