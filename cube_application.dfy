/**
 * The application shell of the Vulkan renderer: start-up, the main loop
 * whose every pass must render successfully, and the keyboard handler.
 */
module CubeApplication {
  import opened Maybe
  import opened Common
  import opened Handles
  import opened Heap
  import opened Sdl
  import FailFast
  import Scope

  datatype CreateStep = CheckHandle | SdlInit | Allocate | CreateGraphics

  const CreateOrder: seq<CreateStep> := [CheckHandle, SdlInit, Allocate, CreateGraphics]

  /**
   * application_create: reject a NULL handle, initialise SDL, allocate the
   * application and create the graphics subsystem, stopping at the first
   * failure.
   */
  function Create(succeeds: CreateStep -> bool): (e: Scope.Exit)
    ensures e.result == CUBE_SUCCESS <==> forall i :: 0 <= i < |CreateOrder| ==> succeeds(CreateOrder[i])
    ensures forall k :: 0 <= k < |CreateOrder| ==>
              (k < e.executed <==> FailFast.SucceededBefore(CreateOrder, succeeds, k))
    ensures e.freed == [FreeArray]
  {
    Scope.RunAsserts(CreateOrder, succeeds)
  }

  /** One pass of the main loop: whether graphics_render succeeded, and what was polled. */
  datatype Tick = Tick(renderOk: bool, polled: Option<Event>)

  /** The pass neither fails to render nor delivers a quit request or an Escape press. */
  predicate Continues(tick: Tick)
  {
    tick.renderOk &&
    !(tick.polled.Some? && (tick.polled.value == Quit || IsEscapePress(tick.polled.value)))
  }

  class App {
    var loop: bool

    constructor ()
      ensures !loop
    {
      loop := false;
    }

    /**
     * application_handle_keyboard_event: a first Escape press stops the
     * loop; every other key event is ignored.
     */
    method HandleKeyboardEvent(event: Event)
      requires event.KeyDown?
      modifies this
      ensures loop == (if IsEscapePress(event) then false else old(loop))
    {
      if event.repeat == 0 {
        if event.key == Escape {
          loop := false;
        }
      }
    }

    /**
     * application_loop over a finite run of passes. A failed render jumps
     * to the error label, so the loop returns CUBE_FAILURE without polling;
     * a quit request or an Escape press ends it with CUBE_SUCCESS. The
     * function's registry is cleaned on both paths.
     */
    method Loop(ticks: seq<Tick>) returns (result: int, passes: nat, freed: seq<FreeCall>)
      modifies this
      ensures passes == |FailFast.RunSteps(ticks, Continues).attempted|
      ensures result == CUBE_FAILURE <==> 0 < passes && !ticks[passes - 1].renderOk
      ensures result == CUBE_SUCCESS || result == CUBE_FAILURE
      ensures !loop <==> 0 < passes && ticks[passes - 1].renderOk && !Continues(ticks[passes - 1])
      ensures freed == [FreeArray]
    {
      var heap := new CubeHeap();
      result := CUBE_SUCCESS;
      loop := true;
      passes := 0;
      var jumped := false;
      while loop && !jumped && passes < |ticks|
        invariant 0 <= passes <= |ticks|
        invariant heap.Valid() && !heap.cleaned && heap.blocks == []
        invariant loop && !jumped ==> FailFast.SucceededBefore(ticks, Continues, passes)
        invariant !loop || jumped ==> 0 < passes && !Continues(ticks[passes - 1]) &&
                                      FailFast.SucceededBefore(ticks, Continues, passes - 1)
        invariant jumped <==> 0 < passes && !ticks[passes - 1].renderOk
        invariant !loop ==> !jumped
        invariant !loop <==> 0 < passes && ticks[passes - 1].renderOk && !Continues(ticks[passes - 1])
      {
        var tick := ticks[passes];
        if !tick.renderOk {
          jumped := true;
        } else if tick.polled.Some? {
          match tick.polled.value {
            case Quit =>
              loop := false;
            case KeyDown(_, _) =>
              HandleKeyboardEvent(tick.polled.value);
            case OtherEvent =>
          }
        }
        passes := passes + 1;
      }
      if jumped {
        result := CUBE_FAILURE;
      }
      freed := heap.Clean();
      assert FailFast.EndsAfter(ticks, Continues, passes);
      FailFast.RunEndsAfter(ticks, Continues, passes);
    }
  }
}
