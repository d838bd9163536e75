/** The player component's state and its transitions: the current track, the
    playing flag, the two gesture coordinates and the card styles. Requests to
    the audio element are returned as values instead of being performed. */
module Player {
  import opened TrackIndex
  import opened CardLayout
  import opened Swipe

  /** What a transition asks of the audio element: nothing, pause, play, or
      stop, rewind, load track `track` and play it once it can play. */
  datatype AudioRequest = NoRequest | Pause | Play | LoadAndPlay(track: nat)

  class MusicPlayer {
    /** `musicData.length`. */
    const trackCount: nat
    /** `currentSongIndex`. */
    var current: nat
    /** `isPlaying`. */
    var playing: bool
    /** `touchStartXRef.current` and `touchEndXRef.current`. */
    var touchStartX: int
    var touchEndX: int
    /** The style of each card, one per track (`cardsRefs`). */
    const cards: array<CardStyle>

    /** The current index is a track, and the cards show the layout for it. */
    ghost predicate Valid()
      reads this, cards
    {
      trackCount > 0 && current < trackCount && cards.Length == trackCount &&
      cards[..] == Layout(trackCount, current)
    }

    /** Mount: the first track, paused, gesture coordinates 0, and the layout
        effect applied once. */
    constructor (n: nat)
      requires n > 0
      ensures Valid() && fresh(cards) && trackCount == n
      ensures current == 0 && !playing
      ensures touchStartX == 0 && touchEndX == 0
    {
      trackCount := n;
      current := 0;
      playing := false;
      touchStartX, touchEndX := 0, 0;
      cards := new CardStyle[n](_ => TierOf(0));
      new;
      Rearrange(cards, 0);
    }

    /** `togglePlay`: pause if playing, play otherwise, and flip the flag. */
    method TogglePlay() returns (request: AudioRequest)
      requires Valid()
      modifies this
      ensures Valid()
      ensures playing == !old(playing) && current == old(current)
      ensures touchStartX == old(touchStartX) && touchEndX == old(touchEndX)
      ensures request == if old(playing) then Pause else Play
    {
      request := if playing then Pause else Play;
      playing := !playing;
    }

    /** `changeSong`: select track `index` and mark the player as playing,
        whatever the state before; the cards end up in the layout for `index`. */
    method ChangeSong(index: nat) returns (request: AudioRequest)
      requires Valid() && index < trackCount
      modifies this, cards
      ensures Valid()
      ensures current == index && playing
      ensures touchStartX == old(touchStartX) && touchEndX == old(touchEndX)
      ensures request == LoadAndPlay(index)
    {
      var previous := current;
      current := index;
      playing := true;
      request := LoadAndPlay(index);
      // the rearrangeCards closure in changeSong still reads the old index ...
      Rearrange(cards, previous);
      // ... and the effect on currentSongIndex lays the cards out again once
      // the index has actually changed
      if index != previous {
        Rearrange(cards, index);
      }
    }

    /** `handleNext`: the following track, wrapping from the last to the first. */
    method Next() returns (request: AudioRequest)
      requires Valid()
      modifies this, cards
      ensures Valid()
      ensures current == NextIndex(old(current), trackCount) && playing
      ensures current == if old(current) == trackCount - 1 then 0 else old(current) + 1
      ensures touchStartX == old(touchStartX) && touchEndX == old(touchEndX)
      ensures request == LoadAndPlay(current)
    {
      request := ChangeSong(NextIndex(current, trackCount));
    }

    /** `handlePrev`: the preceding track, wrapping from the first to the last. */
    method Prev() returns (request: AudioRequest)
      requires Valid()
      modifies this, cards
      ensures Valid()
      ensures current == PrevIndex(old(current), trackCount) && playing
      ensures current == if old(current) == 0 then trackCount - 1 else old(current) - 1
      ensures touchStartX == old(touchStartX) && touchEndX == old(touchEndX)
      ensures request == LoadAndPlay(current)
    {
      request := ChangeSong(PrevIndex(current, trackCount));
    }

    /** The audio element's `ended` event is wired to `handleNext`. */
    method Ended() returns (request: AudioRequest)
      requires Valid()
      modifies this, cards
      ensures Valid()
      ensures current == NextIndex(old(current), trackCount) && playing
      ensures touchStartX == old(touchStartX) && touchEndX == old(touchEndX)
      ensures request == LoadAndPlay(current)
    {
      request := Next();
    }

    /** A click on card `index` selects that track unless it is already the
        current one, in which case nothing happens. */
    method CardClick(index: nat) returns (request: AudioRequest)
      requires Valid() && index < trackCount
      modifies this, cards
      ensures Valid()
      ensures index == old(current) ==>
        current == old(current) && playing == old(playing) && request == NoRequest &&
        cards[..] == old(cards[..])
      ensures index != old(current) ==> current == index && playing && request == LoadAndPlay(index)
      ensures touchStartX == old(touchStartX) && touchEndX == old(touchEndX)
    {
      if index != current {
        request := ChangeSong(index);
      } else {
        request := NoRequest;
      }
    }

    /** `handleTouchStart` as written: records only the start coordinate, so
        the end coordinate keeps whatever the previous gesture (or mount) left. */
    method TouchStartAsWritten(x: int)
      modifies this
      ensures touchStartX == x && touchEndX == old(touchEndX)
      ensures current == old(current) && playing == old(playing)
    {
      touchStartX := x;
    }

    /** `handleTouchStart` corrected: a new touch starts a new gesture, so both
        coordinates begin at the touch point. */
    method TouchStart(x: int)
      modifies this
      ensures touchStartX == x && touchEndX == x
      ensures current == old(current) && playing == old(playing)
    {
      touchStartX := x;
      touchEndX := x;
    }

    /** `handleTouchMove`: the latest horizontal position of the finger. */
    method TouchMove(x: int)
      modifies this
      ensures touchEndX == x && touchStartX == old(touchStartX)
      ensures current == old(current) && playing == old(playing)
    {
      touchEndX := x;
    }

    /** `handleTouchEnd` followed by the index change of `swipeCard`: a left
        swipe goes to the next track, a right swipe to the previous one, and
        a displacement of at most 50 pixels changes nothing. */
    method TouchEnd() returns (gesture: Gesture, request: AudioRequest)
      requires Valid()
      modifies this, cards
      ensures Valid()
      ensures gesture == Classify(old(touchStartX), old(touchEndX))
      ensures current == Target(gesture, old(current), trackCount)
      ensures gesture == NoSwipe ==>
        playing == old(playing) && request == NoRequest && cards[..] == old(cards[..])
      ensures gesture != NoSwipe ==> playing && request == LoadAndPlay(current)
      ensures touchStartX == old(touchStartX) && touchEndX == old(touchEndX)
    {
      gesture := Classify(touchStartX, touchEndX);
      if gesture == SwipeLeft {
        request := Next();
      } else if gesture == SwipeRight {
        request := Prev();
      } else {
        request := NoRequest;
      }
    }

    /** A tap (touch start and end with no move) under the corrected touch
        start never changes the track. */
    method Tap(x: int) returns (gesture: Gesture, request: AudioRequest)
      requires Valid()
      modifies this, cards
      ensures Valid()
      ensures gesture == NoSwipe && request == NoRequest
      ensures current == old(current) && playing == old(playing)
    {
      TouchStart(x);
      gesture, request := TouchEnd();
    }
  }

  /** As written, the very first tap on the card stack at x = 200 is taken
      for a 200-pixel left swipe against the end coordinate 0 set at mount,
      and moves a fresh three-track player from track 0 to track 1. */
  method FirstTapAsWrittenSwipes() returns (gesture: Gesture, before: nat, after: nat)
    ensures gesture == SwipeLeft
    ensures before == 0 && after == 1
  {
    var player := new MusicPlayer(3);
    before := player.current;
    player.TouchStartAsWritten(200);
    var request;
    gesture, request := player.TouchEnd();
    after := player.current;
  }

  /** With the corrected touch start the same tap leaves the player where it
      was. */
  method FirstTapStays() returns (gesture: Gesture, before: nat, after: nat)
    ensures gesture == NoSwipe
    ensures before == 0 && after == 0
  {
    var player := new MusicPlayer(3);
    before := player.current;
    var request;
    gesture, request := player.Tap(200);
    after := player.current;
  }
}
