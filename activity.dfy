/**
 The TiltMazes activity itself: the objects the host calls into and the
 game engine stub they drive. Every entry point is specified by the pure
 session model of module Lifecycle: after the call, the activity's session
 is one `Step` further than before.
 */
module Activity {
  import opened Gestures
  import opened Menu
  import opened Lifecycle

  /** The host's saved-instance-state bundle, as far as the engine uses it:
      at most one engine snapshot. */
  class Bundle<S> {
    var snapshot: Option<S>

    constructor ()
      ensures snapshot == Absent
    {
      snapshot := Absent;
    }
  }

  /** What a possibly-null bundle holds: nothing for a null bundle. */
  function Contents<S>(b: Bundle?<S>): Option<S>
    reads b
  {
    if b == null then Absent else b.snapshot
  }

  /** A stand-in for the game engine with only the calls the activity makes
      on it. How a command changes the game is the parameter `react`, and
      whether the listener is registered on construction is `listening`. */
  class GameEngine<S> {
    const react: (S, Command) -> S
    var registered: bool
    var live: S
    ghost var issued: seq<Command>

    constructor (react: (S, Command) -> S, initial: S, listening: bool)
      ensures this.react == react
      ensures registered == listening && live == initial && issued == []
    {
      this.react := react;
      registered := listening;
      live := initial;
      issued := [];
    }

    method RegisterListener()
      modifies this
      ensures registered
      ensures live == old(live) && issued == old(issued)
    {
      registered := true;
    }

    method UnregisterListener()
      modifies this
      ensures !registered
      ensures live == old(live) && issued == old(issued)
    {
      registered := false;
    }

    method RollBall(d: Direction)
      modifies this
      ensures live == react(old(live), Roll(d)) && issued == old(issued) + [Roll(d)]
      ensures registered == old(registered)
    {
      live := react(live, Roll(d));
      issued := issued + [Roll(d)];
    }

    method SendEmptyMessage(m: Message)
      modifies this
      ensures live == react(old(live), Send(m)) && issued == old(issued) + [Send(m)]
      ensures registered == old(registered)
    {
      live := react(live, Send(m));
      issued := issued + [Send(m)];
    }

    method SaveState(b: Bundle<S>)
      modifies b
      ensures b.snapshot == Some(live)
    {
      b.snapshot := Some(live);
    }

    method RestoreState(b: Bundle?<S>)
      modifies this
      ensures live == (if Contents(b).Some? then Contents(b).value else old(live))
      ensures registered == old(registered) && issued == old(issued)
    {
      if b != null && b.snapshot.Some? {
        live := b.snapshot.value;
      }
    }
  }

  class TiltMazesActivity<S> {
    const engine: GameEngine<S>
    var aboutShown: bool

    /** The session the activity and its engine are in. */
    ghost function Model(): Session<S>
      reads this, engine
    {
      Session(engine.registered, engine.live, engine.issued, aboutShown)
    }

    /** `onCreate`: builds the engine, then restores the saved instance state. */
    constructor OnCreate(react: (S, Command) -> S, initial: S, listening: bool, savedInstanceState: Bundle?<S>)
      ensures fresh(engine) && engine.react == react
      ensures Model() == Create(initial, listening, Contents(savedInstanceState))
    {
      engine := new GameEngine(react, initial, listening);
      aboutShown := false;
      new;
      engine.RestoreState(savedInstanceState);
    }

    /** `onFling`: rolls the ball in the resolved direction and consumes the event. */
    method OnFling(vx: real, vy: real) returns (consumed: bool)
      modifies engine
      ensures consumed
      ensures engine.issued == old(engine.issued) + [Roll(ResolveFling(vx, vy))]
      ensures Model() == Step(engine.react, old(Model()), Fling(vx, vy))
    {
      var d := ResolveFling(vx, vy);
      if d != NoDirection {
        engine.RollBall(d);
      }
      consumed := true;
    }

    /** `onKeyDown`: a D-pad key rolls the ball and is handled; any other key
        is passed on. */
    method OnKeyDown(key: Key) returns (handled: bool)
      modifies engine
      ensures handled <==> !key.OtherKey?
      ensures handled ==> engine.issued == old(engine.issued) + [Roll(KeyDirection(key))]
      ensures !handled ==> Model() == old(Model())
      ensures Model() == Step(engine.react, old(Model()), KeyDown(key))
    {
      match key
      case DpadLeft =>
        engine.RollBall(Left);
        return true;
      case DpadRight =>
        engine.RollBall(Right);
        return true;
      case DpadUp =>
        engine.RollBall(Up);
        return true;
      case DpadDown =>
        engine.RollBall(Down);
        return true;
      case OtherKey(_) =>
        return false;
    }

    /** `onOptionsItemSelected`: items 1 to 3 post one engine message each,
        item 4 shows the About dialog, other ids are not handled. */
    method OnOptionsItemSelected(id: int) returns (handled: bool)
      modifies this, engine
      ensures handled == Handled(id)
      ensures ActionFor(id).Post? ==> engine.issued == old(engine.issued) + [Send(ActionFor(id).msg)]
      ensures !handled ==> Model() == old(Model())
      ensures Model() == Step(engine.react, old(Model()), MenuSelected(id))
    {
      if id == MenuRestart {
        engine.SendEmptyMessage(Restart);
        return true;
      } else if id == MenuMapPrev {
        engine.SendEmptyMessage(MapPrevious);
        return true;
      } else if id == MenuMapNext {
        engine.SendEmptyMessage(MapNext);
        return true;
      } else if id == MenuAbout {
        aboutShown := true;
        return true;
      }
      return false;
    }

    /** `onPause`: the listener is unregistered. */
    method OnPause()
      modifies engine
      ensures !engine.registered
      ensures Model() == Step(engine.react, old(Model()), Pause)
    {
      engine.UnregisterListener();
    }

    /** `onResume`: the listener is registered. */
    method OnResume()
      modifies engine
      ensures engine.registered
      ensures Model() == Step(engine.react, old(Model()), Resume)
    {
      engine.RegisterListener();
    }

    /** `onSaveInstanceState`: the live game is written to the bundle first,
        then the listener is unregistered. */
    method OnSaveInstanceState(icicle: Bundle<S>)
      modifies engine, icicle
      ensures icicle.snapshot == Some(Snapshot(old(Model())))
      ensures !engine.registered
      ensures Model() == Step(engine.react, old(Model()), SaveInstanceState)
    {
      engine.SaveState(icicle);
      engine.UnregisterListener();
    }

    /** `onRestoreInstanceState`: the bundle's snapshot, if any, replaces the
        live game. */
    method OnRestoreInstanceState(savedInstanceState: Bundle<S>)
      modifies engine
      ensures Model() == Step(engine.react, old(Model()), RestoreInstanceState(savedInstanceState.snapshot))
    {
      engine.RestoreState(savedInstanceState);
    }
  }

  /** A client of the activity: created from a saved game, handed the same
      bundle again by `onRestoreInstanceState`, resumed, flung to the left,
      then checkpointed. The bundle written by the checkpoint holds the game
      after the roll, not the game that was restored. */
  method RestoreFlingCheckpoint<S>(react: (S, Command) -> S, initial: S, listening: bool, saved: S)
    returns (checkpoint: Option<S>)
    ensures checkpoint == Some(react(saved, Roll(Left)))
  {
    var restored := new Bundle();
    restored.snapshot := Some(saved);
    var activity := new TiltMazesActivity.OnCreate(react, initial, listening, restored);
    activity.OnRestoreInstanceState(restored);
    activity.OnResume();
    assert activity.engine.registered;
    var consumed := activity.OnFling(-3.0, 1.0);
    var icicle := new Bundle();
    activity.OnSaveInstanceState(icicle);
    assert !activity.engine.registered;
    checkpoint := icicle.snapshot;
  }

  /** A client of the activity: the bundle written by `onSaveInstanceState`
      survives the activity being paused, flung, keyed and resumed, since none
      of those writes to it, and `onRestoreInstanceState` with that same bundle
      brings back the game as it was at the checkpoint. The commands issued in
      between stay in the log. */
  method CheckpointRoundTrip<S>(activity: TiltMazesActivity<S>, icicle: Bundle<S>, vx: real, vy: real, key: Key)
    modifies activity, activity.engine, icicle
    ensures icicle.snapshot == Some(old(activity.engine.live))
    ensures activity.engine.live == old(activity.engine.live)
    ensures activity.engine.registered
    ensures activity.engine.issued == old(activity.engine.issued) + [Roll(ResolveFling(vx, vy))]
              + (if key.OtherKey? then [] else [Roll(KeyDirection(key))])
    ensures activity.aboutShown == old(activity.aboutShown)
  {
    activity.OnSaveInstanceState(icicle);
    activity.OnPause();
    var consumed := activity.OnFling(vx, vy);
    var handled := activity.OnKeyDown(key);
    activity.OnResume();
    activity.OnRestoreInstanceState(icicle);
  }
}
