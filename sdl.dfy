/** The SDL events the application loops react to. */
module Sdl {
  datatype Key = Escape | OtherKey(code: nat)

  datatype Event =
    | Quit                               // SDL_QUIT
    | KeyDown(repeat: nat, key: Key)     // SDL_KEYDOWN
    | OtherEvent                         // every other event type

  /** A first press (not an auto-repeat) of Escape. */
  predicate IsEscapePress(event: Event)
  {
    event.KeyDown? && event.repeat == 0 && event.key == Escape
  }

  /** A first press (not an auto-repeat) of any other key. */
  predicate IsOtherPress(event: Event)
  {
    event.KeyDown? && event.repeat == 0 && event.key != Escape
  }
}
