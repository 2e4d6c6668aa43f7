/**
 * The short-video player (assets/components/apps/YouTubeShortsApp.tsx): a
 * fixed list of five shorts, the index of the one shown, and the set of
 * liked short ids. The wheel's `deltaY` is taken as an integer; only its
 * sign matters.
 */
module Shorts {
  import opened Wrappers

  datatype Short = Short(id: string, embedUrl: string, title: string, channel: string, likes: string, comments: string)

  const EmbedOptions := "?autoplay=1&controls=0&loop=1&rel=0&showinfo=0&mute=0"

  const ShortsList: seq<Short> := [
    Short("1", "https://www.youtube.com/embed/bOkq5SbOBUo" + EmbedOptions, "Amazing sunset at the beach", "Nature Clips", "323K", "1.2K"),
    Short("2", "https://www.youtube.com/embed/EngW7tLk6R8" + EmbedOptions, "Quick cooking hack you need to know", "Food Tips", "142K", "921"),
    Short("3", "https://www.youtube.com/embed/J7MYJ8Kxhwc" + EmbedOptions, "This dog has an amazing talent", "Cute Pets", "2.1M", "45K"),
    Short("4", "https://www.youtube.com/embed/Z3H1PkI9gTw" + EmbedOptions, "Mind-blowing science experiment", "Science Now", "567K", "3.4K"),
    Short("5", "https://www.youtube.com/embed/lJoNVUkq3Fs" + EmbedOptions, "Coolest dance move of 2023", "Dance Trends", "875K", "5.6K")
  ]

  datatype Direction = Next | Prev

  /** `navigateToShort` on an index into a list of `n` shorts: one step, never past either end. */
  function Navigated(index: int, n: int, direction: Direction): (r: int)
    ensures 0 <= index < n ==> 0 <= r < n
    ensures direction == Next ==> r == (if index < n - 1 then index + 1 else index)
    ensures direction == Prev ==> r == (if index > 0 then index - 1 else index)
  {
    if direction == Next && index < n - 1 then index + 1
    else if direction == Prev && index > 0 then index - 1
    else index
  }

  /** The wheel: a downward scroll goes to the next short, anything else (zero included) to the previous one. */
  function WheelDirection(deltaY: int): (d: Direction)
    ensures d == Next <==> deltaY > 0
    ensures d == Prev <==> deltaY <= 0
  {
    if deltaY > 0 then Next else Prev
  }

  /** The arrow keys: down goes next, up goes previous, any other key does nothing. */
  function KeyDirection(key: string): (d: Option<Direction>)
    ensures d == Some(Next) <==> key == "ArrowDown"
    ensures d == Some(Prev) <==> key == "ArrowUp"
    ensures d.None? <==> key != "ArrowDown" && key != "ArrowUp"
  {
    if key == "ArrowDown" then Some(Next)
    else if key == "ArrowUp" then Some(Prev)
    else None
  }

  /** The like toggle: an absent id is added, a present one removed. */
  function Toggled(liked: set<string>, id: string): (r: set<string>)
    ensures id in r <==> id !in liked
    ensures forall other :: other != id ==> (other in r <==> other in liked)
  {
    if id in liked then liked - {id} else liked + {id}
  }

  /** Liking twice restores the set. */
  lemma ToggleTwice(liked: set<string>, id: string)
    ensures Toggled(Toggled(liked, id), id) == liked
  {
  }

  /** Next then previous returns to the same short unless already at the end. */
  lemma {:induction false} NextThenPrev(index: int, n: int)
    requires 0 <= index < n - 1
    ensures Navigated(Navigated(index, n, Next), n, Prev) == index
  {
  }

  /** `k` navigations in the same direction. */
  function Steps(index: int, n: int, direction: Direction, k: nat): (r: int)
    ensures 0 <= index < n ==> 0 <= r < n
    decreases k
  {
    if k == 0 then index else Steps(Navigated(index, n, direction), n, direction, k - 1)
  }

  /** Going forward `k` times moves `k` shorts on, stopping at the last one. */
  lemma {:induction false} StepsForwardSaturate(index: int, n: int, k: nat)
    requires 0 <= index < n
    ensures Steps(index, n, Next, k) == if index + k < n - 1 then index + k else n - 1
    decreases k
  {
    if k > 0 {
      StepsForwardSaturate(Navigated(index, n, Next), n, k - 1);
    }
  }

  /** Going back `k` times moves `k` shorts back, stopping at the first one. */
  lemma {:induction false} StepsBackSaturate(index: int, n: int, k: nat)
    requires 0 <= index < n
    ensures Steps(index, n, Prev, k) == if index - k > 0 then index - k else 0
    decreases k
  {
    if k > 0 {
      StepsBackSaturate(Navigated(index, n, Prev), n, k - 1);
    }
  }

  class YouTubeShortsApp {
    var currentShortIndex: int
    var likedShorts: set<string>

    /** The shown short is always one of the list. */
    ghost predicate Valid()
      reads this
    {
      0 <= currentShortIndex < |ShortsList|
    }

    constructor ()
      ensures Valid() && currentShortIndex == 0 && likedShorts == {}
    {
      currentShortIndex := 0;
      likedShorts := {};
    }

    function CurrentShort(): (s: Short)
      requires Valid()
      reads this
      ensures s in ShortsList
    {
      ShortsList[currentShortIndex]
    }

    method NavigateToShort(direction: Direction)
      requires Valid()
      modifies this
      ensures Valid()
      ensures currentShortIndex == Navigated(old(currentShortIndex), |ShortsList|, direction)
      ensures likedShorts == old(likedShorts)
    {
      if direction == Next && currentShortIndex < |ShortsList| - 1 {
        currentShortIndex := currentShortIndex + 1;
      } else if direction == Prev && currentShortIndex > 0 {
        currentShortIndex := currentShortIndex - 1;
      }
    }

    method Wheel(deltaY: int)
      requires Valid()
      modifies this
      ensures Valid()
      ensures currentShortIndex == Navigated(old(currentShortIndex), |ShortsList|, WheelDirection(deltaY))
      ensures likedShorts == old(likedShorts)
    {
      if deltaY > 0 {
        NavigateToShort(Next);
      } else {
        NavigateToShort(Prev);
      }
    }

    /** A key press while the window is closed changes nothing. */
    method KeyDown(key: string, isOpen: bool)
      requires Valid()
      modifies this
      ensures Valid()
      ensures !isOpen || KeyDirection(key).None? ==> currentShortIndex == old(currentShortIndex)
      ensures isOpen && KeyDirection(key).Some? ==>
        currentShortIndex == Navigated(old(currentShortIndex), |ShortsList|, KeyDirection(key).value)
      ensures likedShorts == old(likedShorts)
    {
      if !isOpen {
        return;
      }
      if key == "ArrowDown" {
        NavigateToShort(Next);
      } else if key == "ArrowUp" {
        NavigateToShort(Prev);
      }
    }

    method ToggleLike(shortId: string)
      modifies this
      ensures likedShorts == Toggled(old(likedShorts), shortId)
      ensures currentShortIndex == old(currentShortIndex)
    {
      if shortId in likedShorts {
        likedShorts := likedShorts - {shortId};
      } else {
        likedShorts := likedShorts + {shortId};
      }
    }
  }
}
