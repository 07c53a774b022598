# ObserveMode book-keeping, modelled in Dafny

`ObserveMode` is the camera-observation screen of a small game. The player
uses LEFT and RIGHT to move through the scene's fixed cameras. Clicking casts
a ray from the current camera and tests it against every "bird", a scene
transform whose name begins with `BIRD`. Every bird the ray hits is added to
a found list. On each frame, every found bird moves up by a fixed step, and
the screen shows a `FOUND n/m BIRDS` counter.

This project models the mode's book-keeping:

- which camera is current;
- which transforms are birds;
- which birds were found;
- how far each found bird has risen;
- the counter text.

It also proves what that book-keeping promises.

Files and modules:

- `scene_graph.dfy` (`SceneGraph`): the engine's `Transform` and `Camera` objects and the scene's two ordered lists. The mode refers to transforms and cameras by address, so both are classes.
- `seqs.dfy` (`Seqs`): `Filter`, the order-preserving filter that keeps repeats. Both the bird collection and the click perform it. `IndexOf`, the first-match scan that the camera switch performs with its iterator.
- `camera_cycle.dfy` (`CameraCycle`): LEFT and RIGHT as functions over the camera list. They reproduce the iterator steps exactly, including a current camera that is missing from the list. Beside them are their wrap-around, round-trip and full-cycle lemmas.
- `decimal.dfy` (`Decimal`): decimal rendering of a count, as `std::to_string` does it, and its inverse.
- `observe_mode.dfy` (`Observe`):
  - the bird-name test (`substr(0, 4) == "BIRD"`);
  - the counter text and a parser that reads it back;
  - the class `ObserveMode` with the fields `scene`, `currentCamera`, `birds` and `foundBirds`;
  - its constructor, `FindCurrentCamera`, `RaycastClick`, `HandleEvent`, `Update` and `BirdText`.

`Valid()` is the class invariant, kept by every method. It says:

- the current camera is in the scene's camera list;
- `birds` is exactly the scene's bird-named transforms, in scene order;
- every found bird is a bird.

Some inputs are abstracted:

- Hit test: the GL viewport, the matrix inverses and the sphere discriminant test are replaced by a parameter of type `HitTest`. It gives, for the clicked pixel, whether the ray hits each bird.
- Positions: reals, and `Update` adds `LiftStep` (0.1) exactly.
- Events: a small datatype. A key press is LEFT, RIGHT or another key. A mouse press is the left button or another button, with pixel coordinates. Anything else is `OtherEvent`.

The round-trip and index lemmas in `CameraCycle` assume that no camera appears twice in the list (`Distinct`). The scene's cameras are distinct objects, so their addresses differ. The class never needs this assumption.

## Model

| member | source | states |
|---|---|---|
| Seqs.Filter | ObserveMode.cpp:97-101 | the kept elements all satisfy the test, come from the input, and are never more than the input |
| Seqs.FilterMember | ObserveMode.cpp:97-101 | an element is kept if and only if it is in the input and passes the test |
| Seqs.FilterMultiplicity | ObserveMode.cpp:97-101 | each kept element is kept once per occurrence in the input; nothing is deduplicated |
| Seqs.FilterConcat | ObserveMode.cpp:49-53 | filtering a concatenation filters each part in turn, so kept elements keep their input order |
| Seqs.IndexOf | ObserveMode.cpp:107-108 | the scan stops at the first index holding the current camera, or at the end exactly when the camera is absent |
| Decimal.FromNat | ObserveMode.cpp:173 | a count renders as a non-empty run of digits that starts with '0' only for zero, which renders as "0" |
| Decimal.ToNatFromNat | ObserveMode.cpp:173 | reading the rendered digits back gives the count |
| CameraCycle.StepLeft | ObserveMode.cpp:106-112 | LEFT always selects a camera of the list |
| CameraCycle.StepRight | ObserveMode.cpp:113-120 | RIGHT always selects a camera of the list |
| CameraCycle.IndexOfDistinct | ObserveMode.cpp:108 | with distinct cameras, the scan finds the camera at index i exactly at i |
| CameraCycle.StepLeftAt | ObserveMode.cpp:106-112 | with distinct cameras, LEFT from index i selects index i - 1, and the first camera wraps to the last |
| CameraCycle.StepRightAt | ObserveMode.cpp:113-120 | with distinct cameras, RIGHT from index i selects index i + 1, and the last camera wraps to the first |
| CameraCycle.StepUnmatched | ObserveMode.cpp:106-120 | when the current camera is not in the list, LEFT selects the last camera and RIGHT the first |
| CameraCycle.StepRoundTrip | ObserveMode.cpp:106-120 | with distinct cameras, RIGHT then LEFT, and LEFT then RIGHT, return to the starting camera |
| CameraCycle.SingleCamera | ObserveMode.cpp:106-120 | with one camera, LEFT and RIGHT both select it, so from it they are no-ops |
| CameraCycle.RightTimes | ObserveMode.cpp:113-120 | one or more RIGHT presses end on a camera of the list |
| CameraCycle.LeftTimes | ObserveMode.cpp:106-112 | one or more LEFT presses end on a camera of the list |
| CameraCycle.RightsThenLefts | ObserveMode.cpp:106-120 | n RIGHT presses followed by n LEFT presses return to the starting camera |
| CameraCycle.RightTimesAt | ObserveMode.cpp:113-120 | with distinct cameras, n presses of RIGHT (n at most the camera count) from index i reach index i + n, wrapped once past the end |
| CameraCycle.FullCycle | ObserveMode.cpp:113-120 | as many RIGHT presses as there are cameras return to the starting camera |
| Observe.Substr | ObserveMode.cpp:50 | `substr(pos, count)` is the slice from pos of length count, cut short at the end of the string |
| Observe.BirdNamePrefix | ObserveMode.cpp:50 | a name passes the bird test if and only if it has at least four characters and begins with "BIRD"; shorter names never pass |
| Observe.BirdsOfExactly | ObserveMode.cpp:49-53 | the bird list holds exactly the scene's bird-named transforms, each as often as it occurs in the scene |
| Observe.CounterTextRoundTrip | ObserveMode.cpp:173 | the counter line "FOUND " + found + "/" + total + " BIRDS" parses back to the two counts, in that order |
| Observe.CounterTextInjective | ObserveMode.cpp:173 | different counts give different counter lines |
| Observe.ObserveMode.constructor | ObserveMode.cpp:43-57 | needs a camera; starts at the first camera, with the scene's birds in scene order and nothing found; establishes the invariant |
| Observe.ObserveMode.FindCurrentCamera | ObserveMode.cpp:107-108 | returns the first index holding the current camera, or the camera count when there is none |
| Observe.ObserveMode.RaycastClick | ObserveMode.cpp:97-101 | appends to the found list exactly the birds the ray hits, in bird order, with repeats; keeps the invariant |
| Observe.ObserveMode.HandleEvent | ObserveMode.cpp:104-129 | LEFT and RIGHT select the previous and next cameras and return true; a left click appends the birds hit; every other event changes nothing; only LEFT and RIGHT return true; the found list never shrinks |
| Observe.ObserveMode.Update | ObserveMode.cpp:149-151 | every scene transform rises by the step once per occurrence in the found list, whatever the elapsed time; x, y and the other transforms are unchanged |
| Observe.ObserveMode.BirdText | ObserveMode.cpp:173 | the counter line reads back as the found count over the bird count |
| Observe.FoundBirdsAreSceneBirds | ObserveMode.cpp:97-101 | every found bird is a scene transform whose name marks it as a bird |

## Left out

- Asset loading and the mesh and scene loaders (ObserveMode.cpp:12-41): engine I/O through loaders that are not part of this model.
- The screen-to-world ray (ObserveMode.cpp:76-94) and the sphere test `check_ray_bird` (ObserveMode.cpp:63-72): GL viewport state and float linear algebra. The click takes their outcome as the `HitTest` parameter. The model therefore does not capture the missing "ray points away" check either.
- Sound: the looping sample created at construction (line 56) and stopped at destruction (line 60); the `fmod` angle accumulator and the `cos`/`sin` orbit in `update` (lines 132-137); the listener position and right vector written under `Sound::lock`/`unlock` (lines 143-146). These are floats, a foreign audio engine and cross-thread locking. `Update` accepts `elapsed` and does not use it.
- `draw` apart from the counter line (lines 154-185): GL state, the camera aspect write, text extents, centering and sprite drawing. Only the constant for the help text is kept.
- The `std::cout` count of found birds (line 54), and the window-size arguments of `handle_event` and `draw`.
- Observe.ObserveMode.Update: positions are exact reals, so the float rounding of repeated `+= 0.1f` is not modelled.
- The SDL event structure: events are the small `Event` datatype.
