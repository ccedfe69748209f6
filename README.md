# TiltMazes activity: gesture resolution and lifecycle coordination

This project models the decision logic of `TiltMazesActivity`, the Android
activity of the TiltMazes tilt-maze game. The model covers three parts.

- **Gesture resolution** (module `Gestures`). A fling velocity `(vx, vy)`
  becomes one of the directions `Left`, `Right`, `Up` or `Down`. The axis with
  the strictly larger speed wins. Ties, including the zero vector, go to the
  vertical axis. On the chosen axis a negative component means left or up, and
  zero counts as non-negative. Each of the four D-pad keys maps to one
  direction, and every other key maps to the placeholder `NoDirection` (the
  source's `NONE`).
- **Options menu** (module `Menu`). Item ids 1, 2 and 3 post `MSG_RESTART`,
  `MSG_MAP_PREVIOUS` and `MSG_MAP_NEXT` to the engine. Id 4 shows the About
  dialog. Any other id is not handled.
- **Lifecycle coordination** (modules `Lifecycle` and `Activity`). The game
  engine is replaced by a stub. The stub holds whether its sensor listener is
  registered, a live game state of an arbitrary type `S`, and a ghost log of
  the commands it has received. How a command changes the game is a parameter
  `react`. `Lifecycle` is a pure state machine: `Step` gives the effect of one
  host event on a `Session`, and `Run` gives the effect of a sequence of
  events. `Activity` holds the imperative classes: `Bundle`, `GameEngine` (the
  stub) and `TiltMazesActivity`. Each entry point of `TiltMazesActivity`
  promises that its new `Model()` is `Step` applied to its old one. The
  lemmas about `Step` and `Run` therefore also hold for the objects.

Properties proved:

- A fling never yields `NoDirection`, so each fling issues exactly one roll.
- The resolved direction has the largest component of the velocity among the
  four directions.
- D-pad keys and menu ids round-trip with their directions and messages.
- Registration follows the most recent toggle. A resume registers the
  listener; a pause or a checkpoint unregisters it.
- Unregistering twice has the same effect as unregistering once.
- Restoring the same bundle twice has the same effect as restoring it once.
- A checkpoint saves the live game of the engine stub: the most recently
  restored snapshot with every command the activity issued since that restore
  applied to it. This holds for any history before the restore, including the
  `onCreate` and `onRestoreInstanceState` pair that deliver the same bundle.
  The stub's game changes only through the activity's commands and restores;
  changes the engine makes on its own (tilt) are not modelled.
- Restoring a checkpoint brings the game back to the saved state.

Registration does not exactly track foreground visibility. `onSaveInstanceState` (lines 227-232) also unregisters it, and the
host may call it before `onPause`. `RegistrationFollowsLastToggle` states the
rule the code follows: the listener is registered exactly when the most recent
of `onResume`, `onPause` and `onSaveInstanceState` was `onResume`.

## Model

| member | source | states |
|---|---|---|
| Gestures.ResolveFling | src/com/lecz/android/tiltmazes/TiltMazesActivity.java:117-126 | A fling never resolves to `NONE`. The result is horizontal exactly when `\|vx\| > \|vy\|`. The velocity's component along the result equals the larger of the two speeds, so the sign of the dominant component decides. |
| Gestures.FlingHorizontal | src/com/lecz/android/tiltmazes/TiltMazesActivity.java:119-122 | When `\|vx\| > \|vy\|`, the result is `LEFT` if `vx < 0` and `RIGHT` otherwise, including `vx == 0`. |
| Gestures.FlingVertical | src/com/lecz/android/tiltmazes/TiltMazesActivity.java:123-126 | When `\|vx\| <= \|vy\|` (ties and the zero vector included), the result is `UP` if `vy < 0` and `DOWN` otherwise. |
| Gestures.FlingTieBreaks | src/com/lecz/android/tiltmazes/TiltMazesActivity.java:119-126 | `(0,0)` gives `DOWN`, `(-5,-5)` and `(5,-5)` give `UP`, and `(-5,5)` gives `DOWN`. |
| Gestures.FlingIsClosestDirection | src/com/lecz/android/tiltmazes/TiltMazesActivity.java:119-126 | No direction has a larger velocity component along it than the resolved one. When a vertical direction does as well as the resolved one, the resolved one is vertical, so ties go to the vertical axis. |
| Gestures.KeyDirection | src/com/lecz/android/tiltmazes/TiltMazesActivity.java:146-164 | A key yields no direction exactly when it is not one of the four D-pad keys. |
| Gestures.KeyFor | src/com/lecz/android/tiltmazes/TiltMazesActivity.java:146-164 | Every roll direction has a D-pad key. |
| Gestures.KeyRoundTrip | src/com/lecz/android/tiltmazes/TiltMazesActivity.java:146-164 | `KeyDirection(KeyFor(d)) == d`, and `KeyFor(d)` is the only key that yields `d`. |
| Gestures.FlingAgreesWithKeys | src/com/lecz/android/tiltmazes/TiltMazesActivity.java:119-126 | A fling along the unit vector of a D-pad key's direction resolves to that key's direction. |
| Menu.ActionFor | src/com/lecz/android/tiltmazes/TiltMazesActivity.java:184-201 | An id is ignored exactly when it is outside 1..4, and it shows the About dialog exactly when it is 4. |
| Menu.Handled | src/com/lecz/android/tiltmazes/TiltMazesActivity.java:184-201 | `onOptionsItemSelected` returns true exactly for ids 1, 2, 3 and 4. |
| Menu.IdFor | src/com/lecz/android/tiltmazes/TiltMazesActivity.java:53-55 | Each message has a menu id among 1..3. |
| Menu.MessageRoundTrip | src/com/lecz/android/tiltmazes/TiltMazesActivity.java:53-56 | Id 1 posts `MSG_RESTART`, id 2 `MSG_MAP_PREVIOUS` and id 3 `MSG_MAP_NEXT`. No other id posts the same message. |
| Lifecycle.Issue | src/com/lecz/android/tiltmazes/TiltMazesActivity.java:128-130 | Handing a command to the engine applies it to the live game through `react` and appends exactly that command to the log. The registration and the dialog flag are unchanged. |
| Lifecycle.Restore | src/com/lecz/android/tiltmazes/TiltMazesActivity.java:234-238 | A present snapshot replaces the live game and an absent one leaves it unchanged. The registration, the command log and the dialog flag are unchanged. |
| Lifecycle.Create | src/com/lecz/android/tiltmazes/TiltMazesActivity.java:92-137 | A new activity's listener is registered as the engine's constructor leaves it. It has an empty log and no dialog shown. Its live game is the bundle's snapshot if there is one, and the initial game otherwise. |
| Lifecycle.FlingIssuesOneRoll | src/com/lecz/android/tiltmazes/TiltMazesActivity.java:117-132 | A fling appends exactly one roll, in the resolved direction, and changes nothing else except the game. |
| Lifecycle.KeyIssuesAtMostOneRoll | src/com/lecz/android/tiltmazes/TiltMazesActivity.java:146-164 | A D-pad key appends exactly one roll in its direction, applies it to the game and changes nothing else. Any other key changes nothing. |
| Lifecycle.MenuEffects | src/com/lecz/android/tiltmazes/TiltMazesActivity.java:184-201 | Ids 1/2/3 each append exactly one message, apply it to the game and change nothing else. Id 4 only marks the About dialog as shown. Unhandled ids change nothing. |
| Lifecycle.Subscription | src/com/lecz/android/tiltmazes/TiltMazesActivity.java:215-232 | A resume registers the listener, and a pause or a checkpoint unregisters it, with nothing else changed. A further pause or checkpoint after either changes nothing. |
| Lifecycle.RestoreIdempotent | src/com/lecz/android/tiltmazes/TiltMazesActivity.java:234-238 | Two restores of the same bundle have the same effect as one. `onRestoreInstanceState` after `onCreate` with the same bundle changes nothing. |
| Lifecycle.RegistrationFollowsLastToggle | src/com/lecz/android/tiltmazes/TiltMazesActivity.java:215-232 | After any sequence of events, the listener is registered exactly when the last resume/pause/checkpoint was a resume. With no toggle, it is as it was at the start. |
| Lifecycle.IssuedOnlyGrows | src/com/lecz/android/tiltmazes/TiltMazesActivity.java:128-130 | The command log is only ever extended. |
| Lifecycle.LiveReplaysIssued | src/com/lecz/android/tiltmazes/TiltMazesActivity.java:227-232 | When no snapshot is restored in between (restores from a bundle without one may occur), the live game is the starting game with exactly the commands issued meanwhile applied to it, in order. |
| Lifecycle.CheckpointIsLive | src/com/lecz/android/tiltmazes/TiltMazesActivity.java:228-231 | Take a session created from snapshot `S` and driven by events that restore no further snapshot. Its checkpoint is `S` with every issued command applied, rather than the snapshot as restored, and the listener is unregistered afterwards. |
| Lifecycle.CheckpointReplaysSinceLastRestore | src/com/lecz/android/tiltmazes/TiltMazesActivity.java:227-238 | After any events, a restore of snapshot `x`, then events that restore no further snapshot, the checkpoint is `x` with exactly the commands issued since that restore applied. |
| Lifecycle.CheckpointIsLiveAfterPlatformRestore | src/com/lecz/android/tiltmazes/TiltMazesActivity.java:137 | Take a session created from snapshot `S`, handed `S` again by `onRestoreInstanceState`, then driven by events that restore no further snapshot. Its checkpoint is `S` with every issued command applied. |
| Lifecycle.SaveRestoreRoundTrip | src/com/lecz/android/tiltmazes/TiltMazesActivity.java:227-238 | Whatever happens after a checkpoint, restoring the snapshot it wrote brings the live game back to the saved game and keeps the command log. |
| Activity.GameEngine.RegisterListener | src/com/lecz/android/tiltmazes/TiltMazesActivity.java:224 | The listener is registered, and the game and log are unchanged. |
| Activity.GameEngine.UnregisterListener | src/com/lecz/android/tiltmazes/TiltMazesActivity.java:218 | The listener is unregistered, and the game and log are unchanged. |
| Activity.GameEngine.RollBall | src/com/lecz/android/tiltmazes/TiltMazesActivity.java:129 | The roll is logged and applied to the game, and the registration is unchanged. |
| Activity.GameEngine.SendEmptyMessage | src/com/lecz/android/tiltmazes/TiltMazesActivity.java:187-193 | The message is logged and applied to the game, and the registration is unchanged. |
| Activity.GameEngine.SaveState | src/com/lecz/android/tiltmazes/TiltMazesActivity.java:230 | The bundle holds the live game. |
| Activity.GameEngine.RestoreState | src/com/lecz/android/tiltmazes/TiltMazesActivity.java:137 | A present snapshot replaces the live game. A null bundle or a missing snapshot changes nothing. |
| Activity.TiltMazesActivity.OnCreate | src/com/lecz/android/tiltmazes/TiltMazesActivity.java:67-138 | The new activity's session is `Create` of the saved instance state, with a fresh engine. |
| Activity.TiltMazesActivity.OnFling | src/com/lecz/android/tiltmazes/TiltMazesActivity.java:114-133 | It always returns true and logs exactly one roll in the resolved direction. The new session is `Step(Fling)`. |
| Activity.TiltMazesActivity.OnKeyDown | src/com/lecz/android/tiltmazes/TiltMazesActivity.java:146-164 | It returns true exactly for D-pad keys and logs exactly one matching roll. Other keys change nothing. The new session is `Step(KeyDown)`. |
| Activity.TiltMazesActivity.OnOptionsItemSelected | src/com/lecz/android/tiltmazes/TiltMazesActivity.java:184-201 | It returns `Handled(id)`. A message id logs exactly that message, and unhandled ids change nothing. The new session is `Step(MenuSelected)`. |
| Activity.TiltMazesActivity.OnPause | src/com/lecz/android/tiltmazes/TiltMazesActivity.java:215-219 | The listener is unregistered. The new session is `Step(Pause)`. |
| Activity.TiltMazesActivity.OnResume | src/com/lecz/android/tiltmazes/TiltMazesActivity.java:221-225 | The listener is registered. The new session is `Step(Resume)`. |
| Activity.TiltMazesActivity.OnSaveInstanceState | src/com/lecz/android/tiltmazes/TiltMazesActivity.java:227-232 | The bundle holds the game as it was at the call, and the listener is unregistered afterwards. The new session is `Step(SaveInstanceState)`. |
| Activity.TiltMazesActivity.OnRestoreInstanceState | src/com/lecz/android/tiltmazes/TiltMazesActivity.java:234-238 | The new session is `Step(RestoreInstanceState)` of the bundle's snapshot. |
| Activity.CheckpointRoundTrip | src/com/lecz/android/tiltmazes/TiltMazesActivity.java:227-238 | The bundle written by `onSaveInstanceState` is untouched by a later pause, fling, key press and resume. `onRestoreInstanceState` with it brings back the checkpointed game. The listener ends registered and the dialog flag is unchanged. The log is the old log followed by the fling's roll and, for a D-pad key, the key's roll. |
| Activity.RestoreFlingCheckpoint | src/com/lecz/android/tiltmazes/TiltMazesActivity.java:227-232 | An activity is created from snapshot `S`, given `S` again by `onRestoreInstanceState`, resumed, flung left, then checkpointed. The checkpoint holds `S` after the left roll. |

## Left out

- User-interface construction is not modelled because it is presentation only. This covers the About dialog's layout and its OK button (lines 72-84), window flags and layout (86-90), the maze-name and remaining-goals labels (98-104), and options-menu creation and icons (167-181). Showing the About dialog is modelled as a flag that is set. Dismissing the dialog is not modelled.
- `GestureDetector`, `onDown`, `setIsLongpressEnabled` and the `onTouchEvent` delegation (107-112, 135, 141-143) are not modelled. How a fling's velocity is measured belongs to the platform. The model starts from the velocity.
- `GameEngine` and `MazeView` are not part of this model. This covers physics, rendering, map sequencing and `calculateUnit`. The engine is a stub whose reaction to a command is the parameter `react`. The engine's constructor is not shown, so whether the listener starts registered is a parameter `listening` of `onCreate`.
- Changes the engine makes to the game on its own are not modelled. This covers the sensor (tilt) listener that `onResume`, `onPause` and `onSaveInstanceState` register and unregister (lines 218, 224, 231), and the engine's own physics. In the model, `registered` is tracked but nothing reads it. So `LiveReplaysIssued`, `CheckpointIsLive`, `CheckpointReplaysSinceLastRestore` and `CheckpointIsLiveAfterPlatformRestore` describe only the activity's commands. For the same reason, the order at lines 230-231 (save, then unregister) cannot be observed in the model: unregistering first would meet the same contracts.
- The `Bundle` serialisation format is not modelled. A bundle holds at most one engine snapshot.
- `sendEmptyMessage` posts to an Android `Handler`, which handles it later. The model applies the message at once and logs it in order.
- Android key codes are not shown, so keys are the abstract `Key` datatype (four D-pad keys and `OtherKey`). The `KeyEvent` argument is unused by the source and is dropped.
- Velocities are modelled as reals, not Java `float`. NaN and infinities are not modelled. The rule uses only `abs`, comparisons and a sign test, so no rounding is involved.
- `onStart`, `onStop`, `onDestroy` and the `Log.d` call (68, 203-213, 240-244) are not modelled because they do nothing observable. The `super` calls into the platform are not modelled either.
