/** The scratch-card board (src/pages/ScratchGame.tsx): six cards, each covered
    by a canvas overlay that the mouse or finger erases; releasing or leaving a card that
    was pressed reveals a reward drawn from a fixed table and credits its amount
    to the coin total. */
module ScratchGame {
  import opened Common
  import opened Canvas

  datatype RewardKind = Coin | Boost | Heart | Rainbow

  datatype Reward = Reward(kind: RewardKind, amount: int, icon: string, message: string)

  const Rewards: seq<Reward> := [
    Reward(Coin, 10, "🪙", "Found 10 gold coins! 💰"),
    Reward(Coin, 25, "💎", "Amazing! 25 diamonds discovered! ✨"),
    Reward(Coin, 50, "🌟", "Incredible! 50 star coins! 🌟"),
    Reward(Boost, 5, "⚡", "Energy boost! +5 power-ups! ⚡"),
    Reward(Heart, 1, "❤️", "You found a heart! Wellness +1! 💖"),
    Reward(Rainbow, 100, "🌈", "RAINBOW JACKPOT! 100 coins! 🎉")
  ]

  const CardCount := 6
  const InitialCoins := 245
  const OverlayWidth := 200
  const OverlayHeight := 150
  const ScratchRadius := 20
  const LabelColor := "#888"

  /** What a freshly initialised card shows: the silver gradient with the two
      centred lines of the "Scratch to / Reveal!" label. */
  const OverlayPicture := Picture(Painted(SilverGradient), [
    FillText("Scratch to", Point(100.0, 65.0), LabelColor),
    FillText("Reveal!", Point(100.0, 85.0), LabelColor)
  ])

  /** The amounts a finalised card can credit. */
  lemma RewardAmounts(r: Reward)
    requires r in Rewards
    ensures r.amount in {10, 25, 50, 5, 1, 100}
    ensures r.amount > 0
  {
  }

  /** `initializeCanvas`: without a 2D context nothing happens; otherwise the
      bitmap is reset to 200 by 150 and shows exactly the overlay, whatever was
      scratched off it before. */
  function InitializeCanvas(s: Surface): (r: Surface)
    ensures !s.hasContext ==> r == s
    ensures s.hasContext ==>
      r.hasContext && r.width == OverlayWidth && r.height == OverlayHeight
      && r.composite == SourceOver && Render(r.ops) == OverlayPicture
  {
    if !s.hasContext then s
    else
      var cleared := Resized(s, OverlayWidth, OverlayHeight);
      var covered := FilledWith(cleared, SilverGradient);
      var w := OverlayWidth as real;
      var h := OverlayHeight as real;
      WithText(WithText(covered, "Scratch to", Point(w / 2.0, h / 2.0 - 10.0), LabelColor),
               "Reveal!", Point(w / 2.0, h / 2.0 + 10.0), LabelColor)
  }

  /** A slot of `canvasRefs` after `resetGame`'s `forEach`: an attached canvas is
      initialised again, an empty slot stays empty. */
  function Reinitialized(slot: Option<Surface>): (r: Option<Surface>)
    ensures r.Some? <==> slot.Some?
    ensures slot.Some? && slot.value.hasContext ==>
      r.value.width == OverlayWidth && r.value.height == OverlayHeight && Render(r.value.ops) == OverlayPicture
    ensures slot.Some? && !slot.value.hasContext ==> r == slot
  {
    match slot
    case Some(c) => Some(InitializeCanvas(c))
    case None => None
  }

  /** `cards.every(card => !card)`. */
  function NoneScratched(cards: seq<bool>): (r: bool)
    ensures r <==> forall i :: 0 <= i < |cards| ==> !cards[i]
  {
    if cards == [] then true else !cards[0] && NoneScratched(cards[1..])
  }

  class ScratchBoard {
    var totalCoins: int
    var scratchedCards: seq<bool>
    var revealedRewards: seq<Option<Reward>>
    /** The card that received the last mouse-down and has not been finalised. */
    var isScratching: Option<nat>
    /** `canvasRefs.current`: the canvas element attached to each card, if any. */
    const canvasRefs: array<Option<Surface>>

    /** A card carries a reward exactly when it is scratched, every reward comes
        from the table, the pressed card is an unscratched one, and the total never
        falls below its starting value. */
    ghost predicate Valid()
      reads this
    {
      && |scratchedCards| == CardCount
      && |revealedRewards| == CardCount
      && canvasRefs.Length == CardCount
      && totalCoins >= InitialCoins
      && (isScratching.Some? ==> isScratching.value < CardCount && !scratchedCards[isScratching.value])
      && (forall i :: 0 <= i < CardCount ==> (revealedRewards[i].Some? <==> scratchedCards[i]))
      && (forall i :: 0 <= i < CardCount && revealedRewards[i].Some? ==> revealedRewards[i].value in Rewards)
    }

    constructor ()
      ensures Valid() && fresh(canvasRefs)
      ensures totalCoins == InitialCoins
      ensures scratchedCards == seq(CardCount, _ => false)
      ensures revealedRewards == seq(CardCount, _ => None)
      ensures isScratching == None
      ensures forall i :: 0 <= i < CardCount ==> canvasRefs[i] == None
    {
      totalCoins := InitialCoins;
      scratchedCards := seq(CardCount, _ => false);
      revealedRewards := seq(CardCount, _ => None);
      isScratching := None;
      canvasRefs := new Option<Surface>[CardCount](_ => None);
    }

    /** The ref callback of card `i`: the slot takes the element, and an
        unscratched card's canvas is initialised; a scratched card's canvas is
        left as it is. */
    method AttachCanvas(i: nat, element: Option<Surface>)
      requires Valid() && i < CardCount
      modifies canvasRefs
      ensures Valid()
      ensures canvasRefs[i] == if element.Some? && !scratchedCards[i] then Reinitialized(element) else element
      ensures forall j :: 0 <= j < CardCount && j != i ==> canvasRefs[j] == old(canvasRefs[j])
    {
      canvasRefs[i] := element;
      if element.Some? && !scratchedCards[i] {
        canvasRefs[i] := Reinitialized(element);
      }
    }

    /** Mouse-down on card `i`: a scratched card ignores it; otherwise card `i`
        becomes the card being scratched. */
    method StartScratching(i: nat)
      requires Valid() && i < CardCount
      modifies this
      ensures Valid()
      ensures isScratching == if old(scratchedCards[i]) then old(isScratching) else Some(i)
      ensures scratchedCards == old(scratchedCards) && revealedRewards == old(revealedRewards)
      ensures totalCoins == old(totalCoins)
    {
      if scratchedCards[i] {
        return;
      }
      isScratching := Some(i);
    }

    /** Mouse-move over card `i` at viewport point `client`: only while card `i`
        is the pressed, unscratched card and has a canvas with a context, a disc
        of radius 20 around the local point is erased from that canvas; no other
        canvas and no game state changes. */
    method Scratch(i: nat, client: Point, rect: Rect)
      requires Valid() && i < CardCount
      modifies canvasRefs
      ensures Valid()
      ensures forall j :: 0 <= j < CardCount && j != i ==> canvasRefs[j] == old(canvasRefs[j])
      ensures canvasRefs[i] ==
        if isScratching == Some(i) && !scratchedCards[i] && old(canvasRefs[i]).Some? && old(canvasRefs[i]).value.hasContext
        then Some(ErasedDisc(old(canvasRefs[i]).value, ToLocal(client, rect), ScratchRadius))
        else old(canvasRefs[i])
    {
      if isScratching != Some(i) || scratchedCards[i] {
        return;
      }
      var canvas := canvasRefs[i];
      if canvas.None? || !canvas.value.hasContext {
        return;
      }
      canvasRefs[i] := Some(ErasedDisc(canvas.value, ToLocal(client, rect), ScratchRadius));
    }

    /** `finishScratching(i)` with `Rewards[pick]` as the random draw: an already
        scratched card changes nothing; otherwise card `i` alone becomes scratched,
        gets that reward, the total grows by its amount and no card is pressed. */
    method FinishScratching(i: nat, pick: nat)
      requires Valid() && i < CardCount && pick < |Rewards|
      modifies this
      ensures Valid()
      ensures old(scratchedCards[i]) ==>
        && scratchedCards == old(scratchedCards) && revealedRewards == old(revealedRewards)
        && totalCoins == old(totalCoins) && isScratching == old(isScratching)
      ensures !old(scratchedCards[i]) ==>
        && scratchedCards == old(scratchedCards)[i := true]
        && revealedRewards == old(revealedRewards)[i := Some(Rewards[pick])]
        && totalCoins == old(totalCoins) + Rewards[pick].amount
        && isScratching == None
    {
      if scratchedCards[i] {
        return;
      }
      isScratching := None;
      scratchedCards := scratchedCards[i := true];
      var reward := Rewards[pick];
      revealedRewards := revealedRewards[i := Some(reward)];
      totalCoins := totalCoins + reward.amount;
    }

    /** Mouse-up and mouse-leave on card `i`: the card is finalised only if it is
        the pressed one, however little was scratched; otherwise nothing changes. */
    method EndScratchGesture(i: nat, pick: nat)
      requires Valid() && i < CardCount && pick < |Rewards|
      modifies this
      ensures Valid()
      ensures old(isScratching) == Some(i) ==>
        && scratchedCards == old(scratchedCards)[i := true]
        && revealedRewards == old(revealedRewards)[i := Some(Rewards[pick])]
        && totalCoins == old(totalCoins) + Rewards[pick].amount
        && isScratching == None
      ensures old(isScratching) != Some(i) ==>
        && scratchedCards == old(scratchedCards) && revealedRewards == old(revealedRewards)
        && totalCoins == old(totalCoins) && isScratching == old(isScratching)
    {
      if isScratching == Some(i) {
        FinishScratching(i, pick);
      }
    }

    /** `resetGame`: every card hidden again with no reward and none pressed, the
        coin total kept, and every attached canvas back to the overlay. */
    method ResetGame()
      requires Valid()
      modifies this, canvasRefs
      ensures Valid()
      ensures scratchedCards == seq(CardCount, _ => false)
      ensures revealedRewards == seq(CardCount, _ => None)
      ensures isScratching == None
      ensures totalCoins == old(totalCoins)
      ensures forall i :: 0 <= i < CardCount ==> canvasRefs[i] == Reinitialized(old(canvasRefs[i]))
    {
      scratchedCards := seq(CardCount, _ => false);
      revealedRewards := seq(CardCount, _ => None);
      isScratching := None;
      for i := 0 to canvasRefs.Length
        modifies canvasRefs
        invariant forall j :: 0 <= j < i ==> canvasRefs[j] == Reinitialized(old(canvasRefs[j]))
        invariant forall j :: i <= j < canvasRefs.Length ==> canvasRefs[j] == old(canvasRefs[j])
      {
        if canvasRefs[i].Some? {
          canvasRefs[i] := Some(InitializeCanvas(canvasRefs[i].value));
        }
      }
    }

    /** The "New Cards" button is enabled exactly when some card is scratched. */
    function NewCardsEnabled(): (enabled: bool)
      reads this
      requires Valid()
      ensures enabled <==> exists i :: 0 <= i < CardCount && scratchedCards[i]
    {
      !NoneScratched(scratchedCards)
    }
  }

  /** Pressing the card at index 3, scratching it a little and releasing it reveals that card
      alone and credits one of the table's amounts. */
  method ScratchOneCard(pick: nat) returns (gained: int, revealed: seq<bool>, reward: Option<Reward>)
    requires pick < |Rewards|
    ensures gained in {10, 25, 50, 5, 1, 100}
    ensures revealed == [false, false, false, true, false, false]
    ensures reward == Some(Rewards[pick]) && gained == Rewards[pick].amount
  {
    var board := new ScratchBoard();
    var before := board.totalCoins;
    board.AttachCanvas(3, Some(Surface(0, 0, true, SourceOver, [])));
    board.StartScratching(3);
    board.Scratch(3, Point(412.0, 318.0), Rect(380.0, 290.0, 200.0, 150.0));
    board.EndScratchGesture(3, pick);
    RewardAmounts(Rewards[pick]);
    gained := board.totalCoins - before;
    revealed := board.scratchedCards;
    reward := board.revealedRewards[3];
  }

  /** Releasing a card that was never pressed reveals nothing and credits nothing. */
  method ReleaseWithoutPress(pick: nat) returns (gained: int, anyRevealed: bool)
    requires pick < |Rewards|
    ensures gained == 0 && !anyRevealed
  {
    var board := new ScratchBoard();
    var before := board.totalCoins;
    board.EndScratchGesture(2, pick);
    gained := board.totalCoins - before;
    anyRevealed := board.NewCardsEnabled();
  }

  /** Revealing all six cards and then pressing "New Cards" hides all six again,
      forgets their rewards and keeps the coins they credited. */
  method RevealAllThenReset(picks: seq<nat>) returns (coinsBefore: int, coinsAfter: int, revealed: seq<bool>, rewards: seq<Option<Reward>>)
    requires |picks| == CardCount
    requires forall k :: 0 <= k < |picks| ==> picks[k] < |Rewards|
    ensures coinsAfter == coinsBefore > InitialCoins
    ensures revealed == seq(CardCount, _ => false)
    ensures rewards == seq(CardCount, _ => None)
  {
    var board := new ScratchBoard();
    for k := 0 to CardCount
      invariant board.Valid() && fresh(board.canvasRefs)
      invariant forall j :: 0 <= j < k ==> board.scratchedCards[j]
      invariant forall j :: k <= j < CardCount ==> !board.scratchedCards[j]
      invariant board.isScratching == None
      invariant k > 0 ==> board.totalCoins > InitialCoins
    {
      board.StartScratching(k);
      board.EndScratchGesture(k, picks[k]);
      RewardAmounts(Rewards[picks[k]]);
    }
    coinsBefore := board.totalCoins;
    board.ResetGame();
    coinsAfter := board.totalCoins;
    revealed := board.scratchedCards;
    rewards := board.revealedRewards;
  }
}
