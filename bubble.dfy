/**
 * The floating chat window (src/features/bubble/components/Bubble.tsx): the
 * opened / started / fullscreen / transitioning signals driven by `openBot`,
 * `closeBot`, `toggleBot` and `toggleFullscreen`, and the offsets that keep
 * the window on screen. The `setTimeout` callbacks become pending timers that
 * `Fire` runs one at a time, in whatever order the clock would, after the 200
 * and 50 millisecond delays the source waits.
 */
module Bubble {
  import opened Wrappers
  import Storage

  /** A scheduled callback: after 200 ms the fullscreen flag is set to
    * `target`, and it schedules the 50 ms one that ends the transition (and,
    * for `closeBot`, closes the window). */
  datatype Timer = SetFullscreen(target: bool, close: bool) | EndTransition(close: bool)

  /** Two units for a timer that schedules another, one for a last one. */
  function Weight(pending: seq<Timer>): nat
  {
    if |pending| == 0 then 0
    else (if pending[0].SetFullscreen? then 2 else 1) + Weight(pending[1..])
  }

  lemma {:induction false} WeightSplit(a: seq<Timer>, b: seq<Timer>)
    ensures Weight(a + b) == Weight(a) + Weight(b)
    decreases |a|
  {
    if |a| > 0 {
      WeightSplit(a[1..], b);
      assert (a + b)[0] == a[0] && (a + b)[1..] == a[1..] + b;
    } else {
      assert a + b == b;
    }
  }

  /** The fullscreen flag once the queue has run in order from `current`. */
  function LastTarget(pending: seq<Timer>, current: bool): bool
    decreases |pending|
  {
    if |pending| == 0 then current
    else if pending[0].SetFullscreen? then LastTarget(pending[1..], pending[0].target)
    else LastTarget(pending[1..], current)
  }

  lemma {:induction false} LastTargetEnd(pending: seq<Timer>, current: bool, close: bool)
    ensures LastTarget(pending + [EndTransition(close)], current) == LastTarget(pending, current)
    decreases |pending|
  {
    if |pending| == 0 {
    } else {
      assert (pending + [EndTransition(close)])[1..] == pending[1..] + [EndTransition(close)];
      LastTargetEnd(pending[1..], if pending[0].SetFullscreen? then pending[0].target else current, close);
    }
  }

  /** Some pending timer will close the window. */
  predicate Closes(pending: seq<Timer>)
  {
    exists i :: 0 <= i < |pending| && pending[i].close
  }

  /** The queue once its first timer has run. */
  function FireHead(pending: seq<Timer>): seq<Timer>
    requires |pending| > 0
  {
    if pending[0].SetFullscreen? then pending[1..] + [EndTransition(pending[0].close)] else pending[1..]
  }

  /** Running the first timer costs weight, keeps the final fullscreen flag,
    * and keeps every pending close but the one it runs. */
  lemma HeadStep(pending: seq<Timer>, current: bool)
    requires |pending| > 0
    ensures Weight(FireHead(pending)) < Weight(pending)
    ensures LastTarget(FireHead(pending), if pending[0].SetFullscreen? then pending[0].target else current) ==
      LastTarget(pending, current)
    ensures Closes(pending) <==> Closes(FireHead(pending)) || (pending[0].EndTransition? && pending[0].close)
  {
    var head, tail := pending[0], pending[1..];
    assert pending == [head] + tail;
    WeightSplit([head], tail);
    if head.SetFullscreen? {
      WeightSplit(tail, [EndTransition(head.close)]);
      LastTargetEnd(tail, head.target, head.close);
      var after := FireHead(pending);
      if Closes(pending) {
        var k :| 0 <= k < |pending| && pending[k].close;
        if k == 0 {
          assert after[|after| - 1].close;
        } else {
          assert after[k - 1] == pending[k];
        }
      }
      if Closes(after) {
        var k :| 0 <= k < |after| && after[k].close;
        if k < |tail| {
          assert pending[k + 1] == after[k];
        } else {
          assert pending[0].close;
        }
      }
    } else {
      if Closes(pending) && !head.close {
        var k :| 0 <= k < |pending| && pending[k].close;
        assert tail[k - 1] == pending[k];
      }
      if Closes(tail) {
        var k :| 0 <= k < |tail| && tail[k].close;
        assert pending[k + 1] == tail[k];
      }
    }
  }

  /** `buttonBottom + buttonSize + 10`, the gap kept under the window. */
  function ChatWindowBottom(buttonBottom: Option<int>, size: Storage.SizeSetting): int
  {
    buttonBottom.GetOr(20) + Storage.ButtonSize(size) + 10
  }

  function Min(a: int, b: int): int
  {
    if a <= b then a else b
  }

  function Max(a: int, b: int): int
  {
    if a >= b then a else b
  }

  /** The window's `bottom`: just above the button, but never higher than
    * the viewport minus the gap under it. */
  function WindowBottom(positionBottom: int, buttonSize: int, innerHeight: int, chatWindowBottom: int): int
  {
    Min(positionBottom + buttonSize + 10, innerHeight - chatWindowBottom)
  }

  /** The window's `right`: the button's offset, pulled in so that the window
    * (of its configured width, 410 by default) stays inside the viewport, and
    * never negative. */
  function WindowRight(positionRight: int, innerWidth: int, width: Option<int>): int
  {
    Max(0, Min(positionRight, innerWidth - width.GetOr(410) - 10))
  }

  /** The right offset is never negative, never beyond the button's own, keeps
    * the window inside a viewport wide enough for it, and is the button's
    * offset whenever that already fits. */
  lemma WindowRightClamp(positionRight: int, innerWidth: int, width: Option<int>)
    ensures 0 <= WindowRight(positionRight, innerWidth, width)
    ensures positionRight >= 0 ==> WindowRight(positionRight, innerWidth, width) <= positionRight
    ensures innerWidth - width.GetOr(410) - 10 >= 0 ==>
      WindowRight(positionRight, innerWidth, width) + width.GetOr(410) + 10 <= innerWidth
    ensures 0 <= positionRight <= innerWidth - width.GetOr(410) - 10 ==>
      WindowRight(positionRight, innerWidth, width) == positionRight
  {
  }

  /** The bottom offset never leaves less than the gap above the viewport's
    * top edge, and sits just above the button whenever that fits. */
  lemma WindowBottomClamp(positionBottom: int, buttonSize: int, innerHeight: int, chatWindowBottom: int)
    ensures WindowBottom(positionBottom, buttonSize, innerHeight, chatWindowBottom) <= innerHeight - chatWindowBottom
    ensures WindowBottom(positionBottom, buttonSize, innerHeight, chatWindowBottom) <= positionBottom + buttonSize + 10
    ensures positionBottom + buttonSize + 10 <= innerHeight - chatWindowBottom ==>
      WindowBottom(positionBottom, buttonSize, innerHeight, chatWindowBottom) == positionBottom + buttonSize + 10
  {
  }

  /** With the button where the theme puts it, the window's bottom edge sits
    * 10 px above the button's top edge whenever the viewport is at least twice
    * that height; a shorter viewport pulls the window down, never up. */
  lemma WindowRestsOnButton(buttonBottom: Option<int>, size: Storage.SizeSetting, innerHeight: int)
    ensures var gap := ChatWindowBottom(buttonBottom, size);
      WindowBottom(buttonBottom.GetOr(20), Storage.ButtonSize(size), innerHeight, gap) <= gap
    ensures var gap := ChatWindowBottom(buttonBottom, size);
      innerHeight >= 2 * gap ==>
        WindowBottom(buttonBottom.GetOr(20), Storage.ButtonSize(size), innerHeight, gap) == buttonBottom.GetOr(20) + Storage.ButtonSize(size) + 10
    ensures var gap := ChatWindowBottom(buttonBottom, size);
      innerHeight < 2 * gap ==>
        WindowBottom(buttonBottom.GetOr(20), Storage.ButtonSize(size), innerHeight, gap) == innerHeight - gap
  {
  }

  class ChatWindow {
    var isOpened: bool
    var isStarted: bool
    var isFullscreen: bool
    var isTransitioning: bool
    var pending: seq<Timer>
    /** `buttonPosition`, which dragging the button moves. */
    var positionBottom: int
    var positionRight: int

    /** The button's configured offsets, 20 by default. */
    constructor(bottom: Option<int>, right: Option<int>)
      ensures !isOpened && !isStarted && !isFullscreen && !isTransitioning && pending == []
      ensures positionBottom == bottom.GetOr(20) && positionRight == right.GetOr(20)
    {
      isOpened := false;
      isStarted := false;
      isFullscreen := false;
      isTransitioning := false;
      pending := [];
      positionBottom := bottom.GetOr(20);
      positionRight := right.GetOr(20);
    }

    /** `toggleFullscreen`: the transition starts now, and the flip to the
      * opposite of the current flag waits for the timer. */
    method ToggleFullscreen()
      modifies this`isTransitioning, this`pending
      ensures isTransitioning
      ensures pending == old(pending) + [SetFullscreen(!isFullscreen, false)]
    {
      isTransitioning := true;
      pending := pending + [SetFullscreen(!isFullscreen, false)];
    }

    /** `openBot`: the bot starts (once) and the window opens. */
    method OpenBot()
      modifies this`isStarted, this`isOpened
      ensures isStarted && isOpened
    {
      if !isStarted {
        isStarted := true;
      }
      isOpened := true;
    }

    /** `closeBot`: outside fullscreen the window closes at once; in
      * fullscreen it first leaves fullscreen and closes with the last timer. */
    method CloseBot()
      modifies this`isOpened, this`isTransitioning, this`pending
      ensures old(isFullscreen) ==>
        isOpened == old(isOpened) && isTransitioning && pending == old(pending) + [SetFullscreen(false, true)]
      ensures !old(isFullscreen) ==> !isOpened && isTransitioning == old(isTransitioning) && pending == old(pending)
    {
      if isFullscreen {
        isTransitioning := true;
        pending := pending + [SetFullscreen(false, true)];
      } else {
        isOpened := false;
      }
    }

    /** `toggleBot`. */
    method ToggleBot()
      modifies this`isStarted, this`isOpened, this`isTransitioning, this`pending
      ensures !old(isOpened) ==> isStarted && isOpened && isTransitioning == old(isTransitioning) && pending == old(pending)
      ensures old(isOpened) && !isFullscreen ==> !isOpened && isStarted == old(isStarted) && pending == old(pending)
      ensures old(isOpened) && isFullscreen ==>
        isOpened && isStarted == old(isStarted) && pending == old(pending) + [SetFullscreen(false, true)]
    {
      if isOpened {
        CloseBot();
      } else {
        OpenBot();
      }
    }

    /** The component's cleanup: the only place the bot stops. */
    method Cleanup()
      modifies this`isStarted
      ensures !isStarted
    {
      isStarted := false;
    }

    /** The clock runs timer `i`. */
    method Fire(i: nat)
      requires i < |pending|
      modifies this`isFullscreen, this`isTransitioning, this`isOpened, this`pending
      ensures old(pending[i]).SetFullscreen? ==>
        isFullscreen == old(pending[i]).target && isTransitioning == old(isTransitioning) && isOpened == old(isOpened) &&
        pending == old(pending[..i] + pending[i + 1..]) + [EndTransition(old(pending[i]).close)]
      ensures old(pending[i]).EndTransition? ==>
        isFullscreen == old(isFullscreen) && !isTransitioning &&
        isOpened == (old(isOpened) && !old(pending[i]).close) &&
        pending == old(pending[..i] + pending[i + 1..])
    {
      var rest := pending[..i] + pending[i + 1..];
      match pending[i] {
        case SetFullscreen(target, close) =>
          isFullscreen := target;
          pending := rest + [EndTransition(close)];
        case EndTransition(close) =>
          isTransitioning := false;
          if close {
            isOpened := false;
          }
          pending := rest;
      }
    }

    /** Run every pending timer in the order scheduled: the window ends with
      * the fullscreen flag the last scheduled flip asked for, out of its
      * transition if anything was pending, and closed if a close was pending. */
    method Settle()
      modifies this`isFullscreen, this`isTransitioning, this`isOpened, this`pending
      ensures pending == []
      ensures isFullscreen == LastTarget(old(pending), old(isFullscreen))
      ensures old(pending) != [] ==> !isTransitioning
      ensures old(pending) == [] ==> isTransitioning == old(isTransitioning)
      ensures isOpened == (old(isOpened) && !Closes(old(pending)))
    {
      ghost var target := LastTarget(pending, isFullscreen);
      ghost var closing := Closes(pending);
      ghost var nonEmpty := pending != [];
      ghost var wasOpened := isOpened;
      while pending != []
        invariant LastTarget(pending, isFullscreen) == target
        invariant nonEmpty ==> (!isTransitioning || pending != [])
        invariant !nonEmpty ==> pending == [] && isTransitioning == old(isTransitioning)
        invariant Closes(pending) ==> closing
        invariant !closing ==> isOpened == wasOpened
        invariant closing && !Closes(pending) ==> !isOpened
        decreases Weight(pending)
      {
        ghost var before := pending;
        HeadStep(before, isFullscreen);
        assert before[..0] + before[1..] == before[1..];
        Fire(0);
        assert pending == FireHead(before);
      }
    }

    /** The window's `bottom` and `right` in pixels; none in fullscreen. */
    function Bottom(buttonSize: int, innerHeight: int, chatWindowBottom: int): (r: Option<int>)
      reads this`isFullscreen, this`positionBottom
      ensures r.None? <==> isFullscreen
      ensures r.Some? ==> r.value <= innerHeight - chatWindowBottom
    {
      if isFullscreen then None else Some(WindowBottom(positionBottom, buttonSize, innerHeight, chatWindowBottom))
    }

    function Right(innerWidth: int, width: Option<int>): (r: Option<int>)
      reads this`isFullscreen, this`positionRight
      ensures r.None? <==> isFullscreen
      ensures r.Some? ==> 0 <= r.value
    {
      if isFullscreen then None else Some(WindowRight(positionRight, innerWidth, width))
    }
  }

  /** After one `toggleFullscreen` with nothing else pending the flag has
    * flipped exactly once; two toggles before the first timer fires both aim
    * at the same flag, so they flip it only once too. */
  lemma ToggleSettles(current: bool)
    ensures LastTarget([SetFullscreen(!current, false)], current) == !current
    ensures !Closes([SetFullscreen(!current, false)])
    ensures LastTarget([SetFullscreen(!current, false), SetFullscreen(!current, false)], current) == !current
  {
  }

  /** A `closeBot` in fullscreen, once settled, leaves fullscreen and closes. */
  lemma CloseSettles(current: bool)
    ensures LastTarget([SetFullscreen(false, true)], current) == false
    ensures Closes([SetFullscreen(false, true)])
  {
    assert [SetFullscreen(false, true)][0].close;
  }
}
