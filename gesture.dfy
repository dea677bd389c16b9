/** How the swipe screens read a finished drag. The offset (dx, dy) is the
    pointer's position relative to where the drag started; dy grows downwards
    as in screen coordinates. */
module Gesture {

  /** Distance in pixels a drag must cover to count as a swipe. */
  const SwipeThreshold: nat := 100
  /** Movement in pixels beyond which a press is a drag rather than a click. */
  const DragSlop: nat := 5

  function Abs(x: int): nat
  {
    if x < 0 then -x else x
  }

  /** What `finishSwipe` of the four-direction swipe screen does. */
  datatype Decision =
    | MarkWatched    // down: "already seen"
    | AddFavorite    // up: favourite
    | AddCandidate   // right: onto the pile to choose from
    | Skip           // left, or a horizontal swipe with no movie shown
    | Revert         // below the threshold: the card springs back

  predicate IsVertical(dx: int, dy: int, hasMovie: bool)
  {
    Abs(dy) > Abs(dx) && Abs(dy) >= SwipeThreshold && hasMovie
  }

  /** The vertical test comes first and needs a movie on screen; failing it,
      a horizontal offset at the threshold decides. */
  function Classify(dx: int, dy: int, hasMovie: bool): (d: Decision)
    ensures d == MarkWatched <==> IsVertical(dx, dy, hasMovie) && dy > 0
    ensures d == AddFavorite <==> IsVertical(dx, dy, hasMovie) && dy <= 0
    ensures d == AddCandidate <==> !IsVertical(dx, dy, hasMovie) && Abs(dx) >= SwipeThreshold && dx > 0 && hasMovie
    ensures d == Skip <==> !IsVertical(dx, dy, hasMovie) && Abs(dx) >= SwipeThreshold && !(dx > 0 && hasMovie)
    ensures d == Revert <==> !IsVertical(dx, dy, hasMovie) && Abs(dx) < SwipeThreshold
  {
    if Abs(dy) > Abs(dx) && Abs(dy) >= SwipeThreshold && hasMovie then
      if dy > 0 then MarkWatched else AddFavorite
    else if Abs(dx) >= SwipeThreshold then
      if dx > 0 && hasMovie then AddCandidate else Skip
    else Revert
  }

  predicate Decisive(d: Decision)
  {
    d != Revert
  }

  /** With a movie on screen, a drag is decisive exactly when it reaches the
      threshold on either axis. */
  lemma DecisiveWithMovie(dx: int, dy: int)
    ensures Decisive(Classify(dx, dy, true)) <==> Abs(dx) >= SwipeThreshold || Abs(dy) >= SwipeThreshold
  {
  }

  /** Without a movie only the horizontal axis can decide, and only as a skip. */
  lemma NoMovieOnlySkips(dx: int, dy: int)
    ensures Classify(dx, dy, false) == (if Abs(dx) >= SwipeThreshold then Skip else Revert)
  {
  }

  /** Vertical and horizontal displacements of 140 and 150: the vertical test
      asks for |dy| > |dx|, so this drag is a right swipe. */
  lemma DiagonalGoesHorizontal()
    ensures Classify(150, 140, true) == AddCandidate
    ensures Classify(150, -140, true) == AddCandidate
    ensures Classify(-150, 140, true) == Skip
  {
  }

  /** A vertical displacement that beats the horizontal one wins even when both
      pass the threshold. */
  lemma VerticalHasPriority(dx: int, dy: int)
    requires Abs(dx) >= SwipeThreshold && Abs(dy) > Abs(dx)
    ensures Classify(dx, dy, true) == (if dy > 0 then MarkWatched else AddFavorite)
  {
  }

  /** `handleMouseMove`: once either offset exceeds 5 pixels the press is a drag. */
  predicate MovedBeyondSlop(dx: int, dy: int)
  {
    Abs(dx) > DragSlop || Abs(dy) > DragSlop
  }

  /** What `finishSwipe` of the horizontal-only swipe screen does. */
  datatype HorizontalDecision =
    | OpenSelection  // right with a movie: ask watch now / later
    | FetchNext      // left, or no movie: load another movie
    | SpringBack     // below the threshold

  function ClassifyHorizontal(dx: int, hasMovie: bool): (d: HorizontalDecision)
    ensures d == OpenSelection <==> Abs(dx) >= SwipeThreshold && dx > 0 && hasMovie
    ensures d == FetchNext <==> Abs(dx) >= SwipeThreshold && !(dx > 0 && hasMovie)
    ensures d == SpringBack <==> Abs(dx) < SwipeThreshold
  {
    if Abs(dx) >= SwipeThreshold then
      if dx > 0 && hasMovie then OpenSelection else FetchNext
    else SpringBack
  }

  /** The two screens agree on the horizontal axis whenever the four-direction
      screen does not see a vertical swipe. */
  lemma HorizontalAgrees(dx: int, dy: int, hasMovie: bool)
    requires !IsVertical(dx, dy, hasMovie)
    ensures Classify(dx, dy, hasMovie) == AddCandidate <==> ClassifyHorizontal(dx, hasMovie) == OpenSelection
    ensures Classify(dx, dy, hasMovie) == Skip <==> ClassifyHorizontal(dx, hasMovie) == FetchNext
    ensures Classify(dx, dy, hasMovie) == Revert <==> ClassifyHorizontal(dx, hasMovie) == SpringBack
  {
  }
}
