/** The gift-gallery modal: a two-level cursor (gift index, slide index) over a
    catalogue of gifts. Every gift has its narrative slides followed by one
    terminal "Grazie Mille" contribution slide. */
module Gallery {
  import opened Wrappers

  datatype GalleryItem = GalleryItem(imageUrl: string, caption: string, emoji: Option<string>)

  datatype Gift = Gift(id: int, title: string, description: string, amount: int,
                       imageUrl: string, gallery: seq<GalleryItem>)

  datatype Cursor = Cursor(gift: int, slide: int)

  /** What the modal shows for a cursor: a narrative slide, or the contribution
      panel with its rotating message and the amount buttons. */
  datatype Slide = Story(item: GalleryItem) | ThankYou(message: string, values: seq<int>)

  const VALUE_OPTIONS: seq<int> := [50, 100, 250, 500, 1000, 2000]

  const CONTRIBUTION_MESSAGES: seq<string> := [
    "Ajude esse momento a acontecer",
    "Contribua de acordo com a sua realidade",
    "Torne esse sonho realidade",
    "Financie essa aventura",
    "Seja parte dessa história",
    "Faça essa viagem sair do papel"
  ]

  /** Horizontal swipe distance, in pixels, a gesture must exceed to navigate. */
  const MIN_SWIPE_DISTANCE: int := 50

  /** Narrative slides plus the thank-you slide. */
  function TotalSlides(g: Gift): nat {
    |g.gallery| + 1
  }

  predicate InBounds(gifts: seq<Gift>, c: Cursor) {
    0 <= c.gift < |gifts| && 0 <= c.slide < TotalSlides(gifts[c.gift])
  }

  /** The global initial slide. */
  const First: Cursor := Cursor(0, 0)

  /** The global terminal slide: the thank-you slide of the last gift. */
  function Terminal(gifts: seq<Gift>): Cursor
    requires |gifts| > 0
  {
    Cursor(|gifts| - 1, TotalSlides(gifts[|gifts| - 1]) - 1)
  }

  predicate IsLastSlide(gifts: seq<Gift>, c: Cursor)
    requires 0 <= c.gift < |gifts|
  {
    c.slide == TotalSlides(gifts[c.gift]) - 1
  }

  /** The "previous" control is hidden only on the first slide of the first gift. */
  predicate ShowPrev(gifts: seq<Gift>, c: Cursor) {
    !(c.slide == 0 && c.gift == 0)
  }

  /** The "next" control is hidden only on the last slide of the last gift. */
  predicate ShowNext(gifts: seq<Gift>, c: Cursor)
    requires 0 <= c.gift < |gifts|
  {
    !(IsLastSlide(gifts, c) && c.gift == |gifts| - 1)
  }

  /** `goNext`: the next slide of the gift, else the first slide of the next
      gift, else nowhere. */
  function Next(gifts: seq<Gift>, c: Cursor): (r: Cursor)
    requires 0 <= c.gift < |gifts|
    ensures InBounds(gifts, c) ==> InBounds(gifts, r)
  {
    if c.slide < TotalSlides(gifts[c.gift]) - 1 then Cursor(c.gift, c.slide + 1)
    else if c.gift != |gifts| - 1 then Cursor(c.gift + 1, 0)
    else c
  }

  /** `goPrev`: the previous slide of the gift, else the LAST slide of the
      previous gift, else nowhere. */
  function Prev(gifts: seq<Gift>, c: Cursor): (r: Cursor)
    requires 0 <= c.gift < |gifts|
    ensures InBounds(gifts, c) ==> InBounds(gifts, r)
  {
    if c.slide > 0 then Cursor(c.gift, c.slide - 1)
    else if c.gift != 0 then Cursor(c.gift - 1, TotalSlides(gifts[c.gift - 1]) - 1)
    else c
  }

  /** The slide rendered at an in-bounds cursor. */
  function SlideAt(gifts: seq<Gift>, c: Cursor): Slide
    requires InBounds(gifts, c)
  {
    if IsLastSlide(gifts, c) then
      ThankYou(CONTRIBUTION_MESSAGES[c.gift % |CONTRIBUTION_MESSAGES|], VALUE_OPTIONS)
    else
      Story(gifts[c.gift].gallery[c.slide])
  }

  /** The modal renders nothing for an empty catalogue. */
  function View(gifts: seq<Gift>, c: Cursor): (r: Option<Slide>)
    requires |gifts| == 0 || InBounds(gifts, c)
    ensures r.None? <==> |gifts| == 0
  {
    if |gifts| == 0 then None else Some(SlideAt(gifts, c))
  }

  /** The last index of every gift is the thank-you slide, and every earlier
      index shows the gallery entry of the same index. */
  lemma SlidesOfGift(gifts: seq<Gift>, c: Cursor)
    requires InBounds(gifts, c)
    ensures SlideAt(gifts, c).ThankYou? <==> c.slide == |gifts[c.gift].gallery|
    ensures c.slide < |gifts[c.gift].gallery| ==> SlideAt(gifts, c) == Story(gifts[c.gift].gallery[c.slide])
    ensures SlideAt(gifts, c).ThankYou? ==> SlideAt(gifts, c).values == VALUE_OPTIONS
  {
  }

  // ---------------------------------------------------------------------------
  // Edge flags
  // ---------------------------------------------------------------------------

  /** "previous" is hidden exactly at the global initial slide. */
  lemma ShowPrevOnlyAtFirst(gifts: seq<Gift>, c: Cursor)
    requires InBounds(gifts, c)
    ensures !ShowPrev(gifts, c) <==> c == First
  {
  }

  /** "next" is hidden exactly at the global terminal slide. */
  lemma ShowNextOnlyAtTerminal(gifts: seq<Gift>, c: Cursor)
    requires InBounds(gifts, c)
    ensures !ShowNext(gifts, c) <==> c == Terminal(gifts)
  {
  }

  /** A control is shown exactly when pressing it moves the cursor. */
  lemma ShowNextIffMoves(gifts: seq<Gift>, c: Cursor)
    requires InBounds(gifts, c)
    ensures ShowNext(gifts, c) <==> Next(gifts, c) != c
  {
  }

  lemma ShowPrevIffMoves(gifts: seq<Gift>, c: Cursor)
    requires InBounds(gifts, c)
    ensures ShowPrev(gifts, c) <==> Prev(gifts, c) != c
  {
  }

  // ---------------------------------------------------------------------------
  // Round trips
  // ---------------------------------------------------------------------------

  /** Stepping forward and back returns to the start, except at the terminal slide. */
  lemma PrevAfterNext(gifts: seq<Gift>, c: Cursor)
    requires InBounds(gifts, c) && c != Terminal(gifts)
    ensures Prev(gifts, Next(gifts, c)) == c
  {
  }

  /** Stepping back and forward returns to the start, except at the initial slide. */
  lemma NextAfterPrev(gifts: seq<Gift>, c: Cursor)
    requires InBounds(gifts, c) && c != First
    ensures Next(gifts, Prev(gifts, c)) == c
  {
  }

  /** At a gift boundary `goPrev` lands on the previous gift's thank-you slide. */
  lemma PrevCrossesToTerminalSlide(gifts: seq<Gift>, g: int)
    requires 0 < g < |gifts|
    ensures Prev(gifts, Cursor(g, 0)) == Cursor(g - 1, |gifts[g - 1].gallery|)
    ensures SlideAt(gifts, Prev(gifts, Cursor(g, 0))).ThankYou?
  {
  }

  // ---------------------------------------------------------------------------
  // Traversal length
  // ---------------------------------------------------------------------------

  /** The number of slides of the gifts before index `k`. */
  function SlidesBefore(gifts: seq<Gift>, k: nat): nat
    requires k <= |gifts|
  {
    if k == 0 then 0 else SlidesBefore(gifts, k - 1) + TotalSlides(gifts[k - 1])
  }

  /** All slides of the catalogue: sum of (gallery length + 1). */
  function SlideCount(gifts: seq<Gift>): nat {
    SlidesBefore(gifts, |gifts|)
  }

  /** The position of a cursor in the flattened slide sequence. */
  function Rank(gifts: seq<Gift>, c: Cursor): int
    requires 0 <= c.gift < |gifts|
  {
    SlidesBefore(gifts, c.gift) + c.slide
  }

  lemma {:induction false} SlidesBeforeMonotone(gifts: seq<Gift>, j: nat, k: nat)
    requires j <= k <= |gifts|
    ensures SlidesBefore(gifts, j) + (if j < k then TotalSlides(gifts[j]) else 0) <= SlidesBefore(gifts, k)
    decreases k - j
  {
    if j < k {
      SlidesBeforeMonotone(gifts, j + 1, k);
    }
  }

  /** An in-bounds cursor has a rank in [0, SlideCount), and distinct cursors
      have distinct ranks. */
  lemma RankBounds(gifts: seq<Gift>, c: Cursor)
    requires InBounds(gifts, c)
    ensures 0 <= Rank(gifts, c) < SlideCount(gifts)
  {
    SlidesBeforeMonotone(gifts, c.gift, |gifts|);
  }

  lemma RankInjective(gifts: seq<Gift>, c: Cursor, d: Cursor)
    requires InBounds(gifts, c) && InBounds(gifts, d)
    requires Rank(gifts, c) == Rank(gifts, d)
    ensures c == d
  {
    if c.gift < d.gift {
      SlidesBeforeMonotone(gifts, c.gift, d.gift);
    } else if d.gift < c.gift {
      SlidesBeforeMonotone(gifts, d.gift, c.gift);
    }
  }

  lemma TerminalRank(gifts: seq<Gift>)
    requires |gifts| > 0
    ensures Rank(gifts, Terminal(gifts)) == SlideCount(gifts) - 1
  {
  }

  /** Every effective `goNext` advances the rank by exactly one. */
  lemma NextRank(gifts: seq<Gift>, c: Cursor)
    requires InBounds(gifts, c) && c != Terminal(gifts)
    ensures Rank(gifts, Next(gifts, c)) == Rank(gifts, c) + 1
  {
  }

  /** `n` presses of "next" from cursor `c`. */
  function NextN(gifts: seq<Gift>, c: Cursor, n: nat): (r: Cursor)
    requires InBounds(gifts, c)
    ensures InBounds(gifts, r)
    decreases n
  {
    if n == 0 then c else NextN(gifts, Next(gifts, c), n - 1)
  }

  lemma {:induction false} NextNRank(gifts: seq<Gift>, c: Cursor, n: nat)
    requires InBounds(gifts, c)
    requires Rank(gifts, c) + n < SlideCount(gifts)
    ensures Rank(gifts, NextN(gifts, c, n)) == Rank(gifts, c) + n
    decreases n
  {
    if n > 0 {
      TerminalRank(gifts);
      assert c != Terminal(gifts);
      NextRank(gifts, c);
      NextNRank(gifts, Next(gifts, c), n - 1);
    }
  }

  /** From the first slide, exactly SlideCount - 1 presses of "next" reach the
      terminal slide, and no smaller number of presses does. */
  lemma TraversalLength(gifts: seq<Gift>, n: nat)
    requires |gifts| > 0
    ensures InBounds(gifts, First)
    ensures NextN(gifts, First, SlideCount(gifts) - 1) == Terminal(gifts)
    ensures n < SlideCount(gifts) - 1 ==> NextN(gifts, First, n) != Terminal(gifts)
  {
    RankBounds(gifts, Terminal(gifts));
    NextNRank(gifts, First, SlideCount(gifts) - 1);
    TerminalRank(gifts);
    RankInjective(gifts, NextN(gifts, First, SlideCount(gifts) - 1), Terminal(gifts));
    if n < SlideCount(gifts) - 1 {
      NextNRank(gifts, First, n);
    }
  }

  /** The deployed catalogue has six gifts of three narrative slides each. */
  predicate SixByThree(gifts: seq<Gift>) {
    |gifts| == 6 && forall i :: 0 <= i < 6 ==> |gifts[i].gallery| == 3
  }

  lemma SixByThreeSlideCount(gifts: seq<Gift>)
    requires SixByThree(gifts)
    ensures SlideCount(gifts) == 24
  {
    assert SlidesBefore(gifts, 1) == 4 by { assert |gifts[0].gallery| == 3; }
    assert SlidesBefore(gifts, 2) == 8 by { assert |gifts[1].gallery| == 3; }
    assert SlidesBefore(gifts, 3) == 12 by { assert |gifts[2].gallery| == 3; }
    assert SlidesBefore(gifts, 4) == 16 by { assert |gifts[3].gallery| == 3; }
    assert SlidesBefore(gifts, 5) == 20 by { assert |gifts[4].gallery| == 3; }
    assert SlidesBefore(gifts, 6) == 24 by { assert |gifts[5].gallery| == 3; }
  }

  /** On that catalogue, 23 presses of "next" take (0,0) to the terminal slide,
      and no fewer do. */
  lemma SixByThreeTraversal(gifts: seq<Gift>, n: nat)
    requires SixByThree(gifts)
    ensures NextN(gifts, First, 23) == Terminal(gifts)
    ensures n < 23 ==> NextN(gifts, First, n) != Terminal(gifts)
  {
    SixByThreeSlideCount(gifts);
    TraversalLength(gifts, n);
  }

  /** On that catalogue, opening at gift 2 and pressing "previous" three times
      lands on slide 1 of gift 1. */
  lemma SixByThreeBackFromGiftTwo(gifts: seq<Gift>)
    requires SixByThree(gifts)
    ensures Prev(gifts, Prev(gifts, Prev(gifts, Cursor(2, 0)))) == Cursor(1, 1)
  {
  }

  // ---------------------------------------------------------------------------
  // The component state
  // ---------------------------------------------------------------------------

  /** Truthiness of an optional touch coordinate: JavaScript treats both `null`
      and `0` as false. */
  predicate Truthy(x: Option<int>) {
    x.Some? && x.value != 0
  }

  class GalleryModal {
    const allGifts: seq<Gift>
    var currentGiftIndex: int
    var currentSlideIndex: int
    var animationKey: int
    var selectedValue: Option<int>
    var touchStart: Option<int>
    var touchEnd: Option<int>

    ghost predicate Valid()
      reads this
    {
      InBounds(allGifts, Cursor(currentGiftIndex, currentSlideIndex))
    }

    function Position(): Cursor
      reads this
    {
      Cursor(currentGiftIndex, currentSlideIndex)
    }

    function ShowPrevButton(): bool
      reads this
    {
      ShowPrev(allGifts, Position())
    }

    function ShowNextButton(): bool
      reads this
      requires Valid()
    {
      ShowNext(allGifts, Position())
    }

    /** Mounting the modal at `startingGiftIndex` (a valid catalogue index). */
    constructor (gifts: seq<Gift>, startingGiftIndex: int)
      requires 0 <= startingGiftIndex < |gifts|
      ensures Valid() && allGifts == gifts
      ensures Position() == Cursor(startingGiftIndex, 0) && animationKey == 0
      ensures selectedValue == None && touchStart == None && touchEnd == None
    {
      allGifts := gifts;
      currentGiftIndex := startingGiftIndex;
      currentSlideIndex := 0;
      animationKey := 0;
      selectedValue := None;
      touchStart := None;
      touchEnd := None;
    }

    /** The effect run when `startingGiftIndex` changes. */
    method Reset(startingGiftIndex: int)
      requires 0 <= startingGiftIndex < |allGifts|
      modifies this`currentGiftIndex, this`currentSlideIndex, this`animationKey, this`selectedValue
      ensures Valid()
      ensures Position() == Cursor(startingGiftIndex, 0) && animationKey == 0 && selectedValue == None
    {
      currentGiftIndex := startingGiftIndex;
      currentSlideIndex := 0;
      animationKey := 0;
      selectedValue := None;
    }

    method GoNext()
      requires Valid()
      modifies this`currentGiftIndex, this`currentSlideIndex, this`animationKey
      ensures Valid()
      ensures Position() == Next(allGifts, old(Position()))
      ensures animationKey == old(animationKey) + (if old(Position()) == Terminal(allGifts) then 0 else 1)
    {
      var totalSlides := TotalSlides(allGifts[currentGiftIndex]);
      var isLastGift := currentGiftIndex == |allGifts| - 1;
      if currentSlideIndex < totalSlides - 1 {
        currentSlideIndex := currentSlideIndex + 1;
        animationKey := animationKey + 1;
      } else if !isLastGift {
        currentGiftIndex := currentGiftIndex + 1;
        currentSlideIndex := 0;
        animationKey := animationKey + 1;
      }
    }

    method GoPrev()
      requires Valid()
      modifies this`currentGiftIndex, this`currentSlideIndex, this`animationKey
      ensures Valid()
      ensures Position() == Prev(allGifts, old(Position()))
      ensures animationKey == old(animationKey) + (if old(Position()) == First then 0 else 1)
    {
      var isFirstGift := currentGiftIndex == 0;
      if currentSlideIndex > 0 {
        currentSlideIndex := currentSlideIndex - 1;
        animationKey := animationKey + 1;
      } else if !isFirstGift {
        var prevGiftTotalSlides := TotalSlides(allGifts[currentGiftIndex - 1]);
        currentGiftIndex := currentGiftIndex - 1;
        currentSlideIndex := prevGiftTotalSlides - 1;
        animationKey := animationKey + 1;
      }
    }

    method OnTouchStart(clientX: int)
      modifies this`touchStart, this`touchEnd
      ensures touchStart == Some(clientX) && touchEnd == None
    {
      touchEnd := None;
      touchStart := Some(clientX);
    }

    method OnTouchMove(clientX: int)
      modifies this`touchEnd
      ensures touchEnd == Some(clientX)
    {
      touchEnd := Some(clientX);
    }

    /** A swipe navigates only beyond the threshold; a falsy coordinate (absent
        or 0) ends the handler early without clearing the touch state. */
    method OnTouchEnd()
      requires Valid()
      modifies this`currentGiftIndex, this`currentSlideIndex, this`animationKey, this`touchStart, this`touchEnd
      ensures Valid()
      ensures !(old(Truthy(touchStart)) && old(Truthy(touchEnd))) ==>
                Position() == old(Position()) && animationKey == old(animationKey)
                && touchStart == old(touchStart) && touchEnd == old(touchEnd)
      ensures old(Truthy(touchStart)) && old(Truthy(touchEnd)) ==>
                var distance := old(touchStart.value - touchEnd.value);
                && touchStart == None && touchEnd == None
                && Position() == (if distance > MIN_SWIPE_DISTANCE then Next(allGifts, old(Position()))
                                  else if distance < -MIN_SWIPE_DISTANCE then Prev(allGifts, old(Position()))
                                  else old(Position()))
                && animationKey == old(animationKey) + (if Position() == old(Position()) then 0 else 1)
    {
      if !Truthy(touchStart) || !Truthy(touchEnd) {
        return;
      }
      var showPrevButton, showNextButton := ShowPrevButton(), ShowNextButton();
      var distance := touchStart.value - touchEnd.value;
      var isLeftSwipe := distance > MIN_SWIPE_DISTANCE;
      var isRightSwipe := distance < -MIN_SWIPE_DISTANCE;
      ShowNextIffMoves(allGifts, Position());
      ShowPrevIffMoves(allGifts, Position());
      if isLeftSwipe && showNextButton {
        GoNext();
      }
      if isRightSwipe && showPrevButton {
        GoPrev();
      }
      touchStart := None;
      touchEnd := None;
    }

    /** Left edge region: "previous" when it is shown. */
    method HandleLeftEdgeClick()
      requires Valid()
      modifies this`currentGiftIndex, this`currentSlideIndex, this`animationKey
      ensures Valid()
      ensures Position() == Prev(allGifts, old(Position()))
      ensures animationKey == old(animationKey) + (if old(Position()) == First then 0 else 1)
    {
      ShowPrevOnlyAtFirst(allGifts, Position());
      if ShowPrevButton() {
        GoPrev();
      }
    }

    /** Right edge region: "next" when it is shown. */
    method HandleRightEdgeClick()
      requires Valid()
      modifies this`currentGiftIndex, this`currentSlideIndex, this`animationKey
      ensures Valid()
      ensures Position() == Next(allGifts, old(Position()))
      ensures animationKey == old(animationKey) + (if old(Position()) == Terminal(allGifts) then 0 else 1)
    {
      ShowNextOnlyAtTerminal(allGifts, Position());
      if ShowNextButton() {
        GoNext();
      }
    }

    /** A progress dot jumps within the current gift; the key advances even
        when the dot is the current slide. */
    method DotClick(index: int)
      requires Valid() && 0 <= index < TotalSlides(allGifts[currentGiftIndex])
      modifies this`currentSlideIndex, this`animationKey
      ensures Valid()
      ensures Position() == Cursor(old(currentGiftIndex), index)
      ensures animationKey == old(animationKey) + 1
    {
      currentSlideIndex := index;
      animationKey := animationKey + 1;
    }

    /** An amount button on the thank-you slide opens the payment modal. */
    method SelectValue(value: int)
      requires Valid() && IsLastSlide(allGifts, Position()) && value in VALUE_OPTIONS
      modifies this`selectedValue
      ensures selectedValue == Some(value)
    {
      selectedValue := Some(value);
    }

    method CloseValueModal()
      modifies this`selectedValue
      ensures selectedValue == None
    {
      selectedValue := None;
    }
  }
}
