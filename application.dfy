/**
 * The application shell of the SDL2 renderer with sound: start-up, the
 * main loop that renders a frame and then handles at most one event, the
 * keyboard handler, and shutdown.
 */
module Application {
  import opened Maybe
  import opened Common
  import opened Heap
  import opened Sdl
  import opened Audio
  import FailFast
  import Scope

  datatype CreateStep = SdlInit | Allocate | CreateAudio | CreateGraphics

  const CreateOrder: seq<CreateStep> := [SdlInit, Allocate, CreateAudio, CreateGraphics]

  /**
   * application_create: initialise SDL, allocate the application, create the
   * audio and then the graphics subsystem, stopping at the first failure.
   */
  function Create(succeeds: CreateStep -> bool): (e: Scope.Exit)
    ensures e.result == CUBE_SUCCESS <==> forall i :: 0 <= i < |CreateOrder| ==> succeeds(CreateOrder[i])
    ensures forall k :: 0 <= k < |CreateOrder| ==>
              (k < e.executed <==> FailFast.SucceededBefore(CreateOrder, succeeds, k))
    ensures e.freed == [FreeArray]
  {
    Scope.RunAsserts(CreateOrder, succeeds)
  }

  datatype ShutdownCall = DestroyAudio | DestroyGraphics | FreeApplication | SdlQuit

  /**
   * application_destroy: the subsystems and the application are released
   * only for a non-NULL application; SDL is shut down in every case, last.
   */
  function Destroy(applicationPresent: bool): (calls: seq<ShutdownCall>)
    ensures 0 < |calls| && calls[|calls| - 1] == SdlQuit
    ensures SdlQuit !in calls[..|calls| - 1]
    ensures applicationPresent <==> FreeApplication in calls
    ensures applicationPresent ==> calls[..|calls| - 1] == [DestroyAudio, DestroyGraphics, FreeApplication]
    ensures !applicationPresent ==> |calls| == 1
  {
    (if applicationPresent then [DestroyAudio, DestroyGraphics, FreeApplication] else []) + [SdlQuit]
  }

  /** An event that ends the main loop: a quit request or a first Escape press. */
  predicate Stops(polled: Option<Event>)
  {
    polled.Some? && (polled.value == Quit || IsEscapePress(polled.value))
  }

  predicate KeepsRunning(tick: Tick)
  {
    !Stops(tick.polled)
  }

  /** One pass of the main loop: what SDL_PollEvent delivered, and the value rand() would return. */
  datatype Tick = Tick(polled: Option<Event>, random: nat)

  datatype Action = Render | Handle(event: Event)

  /** The calls of the main loop, pass by pass: render first, then the polled event. */
  function Trace(ticks: seq<Tick>): seq<Action>
  {
    if ticks == [] then []
    else
      var last := ticks[|ticks| - 1];
      Trace(ticks[..|ticks| - 1]) + [Render] + (if last.polled.Some? then [Handle(last.polled.value)] else [])
  }

  class App {
    var running: bool
    const audio: AudioState

    constructor (audio: AudioState)
      ensures this.audio == audio && !running
    {
      this.audio := audio;
      running := false;
    }

    /**
     * application_handle_keyboard_event: auto-repeats are ignored; a first
     * Escape press stops the loop; any other first press starts a random
     * clip.
     */
    method HandleKeyboardEvent(event: Event, random: nat)
      requires event.KeyDown?
      requires audio.Valid() && (IsOtherPress(event) && audio.current == None ==> |audio.wavs| > 0)
      modifies this, audio
      ensures audio.Valid() && audio.wavs == old(audio.wavs)
      ensures running == (if IsEscapePress(event) then false else old(running))
      ensures IsOtherPress(event) && old(audio.current) == None ==>
                audio.current == Some(random % |audio.wavs|) && audio.currentOffset == 0
      ensures !IsOtherPress(event) || old(audio.current) != None ==>
                audio.current == old(audio.current) && audio.currentOffset == old(audio.currentOffset)
    {
      if event.repeat == 0 {
        if event.key == Escape {
          running := false;
        } else {
          audio.PlayRandom(random);
        }
      }
    }

    /**
     * application_loop over a finite run of passes: each pass renders (its
     * status is ignored) and then handles the event polled, if any; the loop
     * ends after the pass whose event is a quit request or an Escape press.
     */
    method Loop(ticks: seq<Tick>) returns (status: int, passes: nat, actions: seq<Action>)
      requires audio.Valid()
      requires |audio.wavs| > 0 || forall i :: 0 <= i < |ticks| ==> !(ticks[i].polled.Some? && IsOtherPress(ticks[i].polled.value))
      modifies this, audio
      ensures status == 0
      ensures passes == |FailFast.RunSteps(ticks, KeepsRunning).attempted|
      ensures running <==> FailFast.RunSteps(ticks, KeepsRunning).ok
      ensures actions == Trace(ticks[..passes])
      ensures audio.Valid() && audio.wavs == old(audio.wavs)
    {
      running := true;
      passes := 0;
      actions := [];
      while running && passes < |ticks|
        invariant 0 <= passes <= |ticks|
        invariant audio.Valid() && audio.wavs == old(audio.wavs)
        invariant actions == Trace(ticks[..passes])
        invariant running ==> FailFast.SucceededBefore(ticks, KeepsRunning, passes)
        invariant !running ==> 0 < passes && !KeepsRunning(ticks[passes - 1]) &&
                               FailFast.SucceededBefore(ticks, KeepsRunning, passes - 1)
      {
        var tick := ticks[passes];
        actions := actions + [Render];
        if tick.polled.Some? {
          var event := tick.polled.value;
          actions := actions + [Handle(event)];
          match event {
            case Quit =>
              running := false;
            case KeyDown(_, _) =>
              HandleKeyboardEvent(event, tick.random);
            case OtherEvent =>
          }
        }
        assert ticks[..passes + 1][..passes] == ticks[..passes];
        passes := passes + 1;
      }
      assert FailFast.EndsAfter(ticks, KeepsRunning, passes);
      FailFast.RunEndsAfter(ticks, KeepsRunning, passes);
      status := 0;
    }
  }
}
