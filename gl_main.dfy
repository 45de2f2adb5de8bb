/**
 * The OpenGL prototype's event handling: the screen-size query, the key
 * handler that toggles rotation, and the main loop that polls at most one
 * event and then renders.
 */
module GlMain {
  import opened Maybe
  import opened Sdl
  import FailFast

  const SDL_OK: int := 0

  /** The number of first presses of keys other than Escape: each one toggles rotation. */
  function Toggles(polls: seq<Option<Event>>): nat
  {
    if polls == [] then 0
    else
      var last := polls[|polls| - 1];
      Toggles(polls[..|polls| - 1]) + (if last.Some? && IsOtherPress(last.value) then 1 else 0)
  }

  /** The loop goes on unless the event is a first Escape press; quit requests are not handled. */
  predicate Continues(polled: Option<Event>)
  {
    !(polled.Some? && IsEscapePress(polled.value))
  }

  datatype Action = Handle(event: Event) | Render

  /** The calls of the main loop, pass by pass: the polled event first, then the render. */
  function Trace(polls: seq<Option<Event>>): seq<Action>
  {
    if polls == [] then []
    else
      var last := polls[|polls| - 1];
      Trace(polls[..|polls| - 1]) + (if last.Some? then [Handle(last.value)] else []) + [Render]
  }

  class Context {
    var width: int
    var height: int
    var loop: bool
    var rotate: bool

    constructor ()
      ensures !loop && !rotate
    {
      width := 0;
      height := 0;
      loop := false;
      rotate := false;
    }

    /**
     * get_screen_size: `status` and `w`, `h` are what SDL_GetCurrentDisplayMode
     * reported; the size is stored only when the query succeeded, and the
     * status is passed back.
     */
    method GetScreenSize(status: int, w: int, h: int) returns (result: int)
      modifies this
      ensures result == status
      ensures status == SDL_OK ==> width == w && height == h
      ensures status != SDL_OK ==> width == old(width) && height == old(height)
      ensures loop == old(loop) && rotate == old(rotate)
    {
      if status == SDL_OK {
        width := w;
        height := h;
      }
      result := status;
    }

    /**
     * handle_event and handle_keyboard_event: only key-down events are
     * handled; auto-repeats are ignored; Escape stops the loop; any other
     * key flips rotation and plays the sound (`played`).
     */
    method HandleEvent(event: Event) returns (played: bool)
      modifies this
      ensures played <==> IsOtherPress(event)
      ensures rotate == (if IsOtherPress(event) then !old(rotate) else old(rotate))
      ensures loop == (if IsEscapePress(event) then false else old(loop))
      ensures width == old(width) && height == old(height)
    {
      played := false;
      if event.KeyDown? && event.repeat == 0 {
        if event.key == Escape {
          loop := false;
        } else {
          rotate := !rotate;
          played := true;
        }
      }
    }

    /**
     * main_loop over a finite run of polls: each pass handles the polled
     * event, if any, and then renders. Only a first Escape press ends it.
     * Rotation ends flipped exactly when an odd number of other keys were
     * pressed.
     */
    method MainLoop(polls: seq<Option<Event>>) returns (passes: nat, plays: nat, actions: seq<Action>)
      modifies this
      ensures !old(loop) ==> passes == 0 && !loop
      ensures old(loop) ==> passes == |FailFast.RunSteps(polls, Continues).attempted|
      ensures old(loop) ==> (loop <==> FailFast.RunSteps(polls, Continues).ok)
      ensures actions == Trace(polls[..passes])
      ensures plays == Toggles(polls[..passes])
      ensures rotate == (if plays % 2 == 1 then !old(rotate) else old(rotate))
    {
      passes := 0;
      plays := 0;
      actions := [];
      while loop && passes < |polls|
        invariant 0 <= passes <= |polls|
        invariant !old(loop) ==> passes == 0 && !loop
        invariant actions == Trace(polls[..passes])
        invariant plays == Toggles(polls[..passes])
        invariant rotate == (if plays % 2 == 1 then !old(rotate) else old(rotate))
        invariant loop ==> FailFast.SucceededBefore(polls, Continues, passes)
        invariant old(loop) && !loop ==> 0 < passes && !Continues(polls[passes - 1]) &&
                                         FailFast.SucceededBefore(polls, Continues, passes - 1)
      {
        var polled := polls[passes];
        if polled.Some? {
          actions := actions + [Handle(polled.value)];
          var played := HandleEvent(polled.value);
          if played {
            plays := plays + 1;
          }
        }
        actions := actions + [Render];
        assert polls[..passes + 1][..passes] == polls[..passes];
        passes := passes + 1;
      }
      if old(loop) {
        assert FailFast.EndsAfter(polls, Continues, passes);
        FailFast.RunEndsAfter(polls, Continues, passes);
      }
    }
  }
}
