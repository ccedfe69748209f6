/**
 The observable behaviour of one TiltMazes activity as a pure state machine:
 what the game engine stub holds after each event the host delivers.

 The engine itself (physics, maps, rendering) is not modelled; how it reacts
 to a command is a parameter `react`, and its state is of an arbitrary type S.
 */
module Lifecycle {
  import opened Gestures
  import opened Menu

  datatype Option<T> = Absent | Some(value: T)

  /** A command the activity issues to the engine: `rollBall(d)` or
      `sendEmptyMessage(m)`. */
  datatype Command = Roll(dir: Direction) | Send(msg: Message)

  /** The state of a session: whether the engine's sensor listener is
      registered, the engine's live game state, every command issued to the
      engine so far, and whether the About dialog has been shown. */
  datatype Session<S> = Session(registered: bool, live: S, issued: seq<Command>, aboutShown: bool)

  /** The events the host delivers to the activity after it is created. A
      restore carries the snapshot found in the bundle, if any. */
  datatype Event<S> =
    | Resume
    | Pause
    | SaveInstanceState
    | RestoreInstanceState(bundle: Option<S>)
    | Fling(vx: real, vy: real)
    | KeyDown(key: Key)
    | MenuSelected(id: int)

  /** Hand one command to the engine. */
  function Issue<S>(react: (S, Command) -> S, s: Session<S>, c: Command): (t: Session<S>)
    ensures t.live == react(s.live, c) && t.issued == s.issued + [c]
    ensures t.registered == s.registered && t.aboutShown == s.aboutShown
  {
    s.(live := react(s.live, c), issued := s.issued + [c])
  }

  /** The engine's `restoreState`: a present snapshot replaces the live state,
      an absent one leaves it as it is. */
  function Restore<S>(s: Session<S>, bundle: Option<S>): (t: Session<S>)
    ensures t.live == (if bundle.Some? then bundle.value else s.live)
    ensures t.registered == s.registered && t.issued == s.issued && t.aboutShown == s.aboutShown
  {
    if bundle.Some? then s.(live := bundle.value) else s
  }

  /** The snapshot `onSaveInstanceState` writes into the bundle. */
  function Snapshot<S>(s: Session<S>): S {
    s.live
  }

  /** `onCreate`: a fresh engine in its initial game state, with its listener
      registered or not as the engine's constructor leaves it, then the saved
      instance state restored into it. */
  function Create<S>(initial: S, listening: bool, bundle: Option<S>): (s: Session<S>)
    ensures s.registered == listening && s.issued == [] && !s.aboutShown
    ensures s.live == (if bundle.Some? then bundle.value else initial)
  {
    Restore(Session(listening, initial, [], false), bundle)
  }

  /** The effect of one event on the session. */
  function Step<S>(react: (S, Command) -> S, s: Session<S>, e: Event<S>): Session<S> {
    match e
    case Resume => s.(registered := true)
    case Pause => s.(registered := false)
    case SaveInstanceState => s.(registered := false)
    case RestoreInstanceState(bundle) => Restore(s, bundle)
    case Fling(vx, vy) =>
      var d := ResolveFling(vx, vy);
      if d != NoDirection then Issue(react, s, Roll(d)) else s
    case KeyDown(k) =>
      var d := KeyDirection(k);
      if d != NoDirection then Issue(react, s, Roll(d)) else s
    case MenuSelected(id) =>
      match ActionFor(id)
      case Post(m) => Issue(react, s, Send(m))
      case ShowAbout => s.(aboutShown := true)
      case Ignore => s
  }

  /** The session after a sequence of events, in order. */
  function Run<S>(react: (S, Command) -> S, s: Session<S>, events: seq<Event<S>>): Session<S>
    decreases |events|
  {
    if events == [] then s
    else Step(react, Run(react, s, events[..|events| - 1]), events[|events| - 1])
  }

  // ---------------------------------------------------------------------------
  // One event at a time

  /** A fling issues exactly one roll, in the resolved direction, and touches
      nothing else but the live state. */
  lemma FlingIssuesOneRoll<S>(react: (S, Command) -> S, s: Session<S>, vx: real, vy: real)
    ensures Step(react, s, Fling(vx, vy))
         == s.(live := react(s.live, Roll(ResolveFling(vx, vy))),
               issued := s.issued + [Roll(ResolveFling(vx, vy))])
  {
  }

  /** A D-pad key issues exactly one roll in its direction and touches nothing
      else but the live state; any other key leaves the session unchanged. */
  lemma KeyIssuesAtMostOneRoll<S>(react: (S, Command) -> S, s: Session<S>, k: Key)
    ensures !k.OtherKey? ==> (Step(react, s, KeyDown(k))
         == s.(live := react(s.live, Roll(KeyDirection(k))), issued := s.issued + [Roll(KeyDirection(k))]))
    ensures k.OtherKey? ==> Step(react, s, KeyDown(k)) == s
  {
  }

  /** Items 1, 2 and 3 post exactly one message each and touch nothing else
      but the live state; item 4 only shows the About dialog; any other id
      changes nothing. */
  lemma MenuEffects<S>(react: (S, Command) -> S, s: Session<S>, id: int)
    ensures id == MenuRestart ==> (Step(react, s, MenuSelected(id))
         == s.(live := react(s.live, Send(Restart)), issued := s.issued + [Send(Restart)]))
    ensures id == MenuMapPrev ==> (Step(react, s, MenuSelected(id))
         == s.(live := react(s.live, Send(MapPrevious)), issued := s.issued + [Send(MapPrevious)]))
    ensures id == MenuMapNext ==> (Step(react, s, MenuSelected(id))
         == s.(live := react(s.live, Send(MapNext)), issued := s.issued + [Send(MapNext)]))
    ensures id == MenuAbout ==> Step(react, s, MenuSelected(id)) == s.(aboutShown := true)
    ensures !Handled(id) ==> Step(react, s, MenuSelected(id)) == s
  {
  }

  /** Resume registers the listener; pause and checkpoint unregister it, and
      unregistering again changes nothing. Neither touches the game. */
  lemma Subscription<S>(react: (S, Command) -> S, s: Session<S>)
    ensures Step(react, s, Resume) == s.(registered := true)
    ensures Step(react, s, Pause) == s.(registered := false)
    ensures Step(react, s, SaveInstanceState) == s.(registered := false)
    ensures Step(react, Step(react, s, Pause), Pause) == Step(react, s, Pause)
    ensures Step(react, Step(react, s, SaveInstanceState), Pause) == Step(react, s, SaveInstanceState)
    ensures Step(react, Step(react, s, Pause), SaveInstanceState) == Step(react, s, Pause)
  {
  }

  /** Restoring the same bundle twice is the same as restoring it once; in
      particular `onRestoreInstanceState` after `onCreate` with the same bundle
      adds nothing. */
  lemma RestoreIdempotent<S>(react: (S, Command) -> S, s: Session<S>, initial: S, listening: bool, bundle: Option<S>)
    ensures Step(react, Step(react, s, RestoreInstanceState(bundle)), RestoreInstanceState(bundle))
         == Step(react, s, RestoreInstanceState(bundle))
    ensures Step(react, Create(initial, listening, bundle), RestoreInstanceState(bundle))
         == Create(initial, listening, bundle)
  {
  }

  // ---------------------------------------------------------------------------
  // Sequences of events

  /** Running two sequences of events one after the other is running their
      concatenation. */
  lemma {:induction false} RunAppend<S>(react: (S, Command) -> S, s: Session<S>, a: seq<Event<S>>, b: seq<Event<S>>)
    ensures Run(react, s, a + b) == Run(react, Run(react, s, a), b)
    decreases |b|
  {
    if b == [] {
      assert a + b == a;
    } else {
      var b' := b[..|b| - 1];
      assert (a + b)[..|a + b| - 1] == a + b';
      RunAppend(react, s, a, b');
    }
  }

  predicate IsToggle<S>(e: Event<S>) {
    e.Resume? || e.Pause? || e.SaveInstanceState?
  }

  /** Whether the last subscription toggle among the events registers the
      listener, or `Absent` when there is none. */
  function LastToggle<S>(events: seq<Event<S>>): Option<bool>
    decreases |events|
  {
    if events == [] then Absent
    else if IsToggle(events[|events| - 1]) then Some(events[|events| - 1].Resume?)
    else LastToggle(events[..|events| - 1])
  }

  /** The listener is registered exactly when the most recent of `onResume`,
      `onPause` and `onSaveInstanceState` was `onResume`; gestures, keys,
      menu items and restores never change it. */
  lemma {:induction false} RegistrationFollowsLastToggle<S>(react: (S, Command) -> S, s: Session<S>, events: seq<Event<S>>)
    ensures Run(react, s, events).registered
         == (if LastToggle(events).Some? then LastToggle(events).value else s.registered)
    decreases |events|
  {
    if events != [] {
      RegistrationFollowsLastToggle(react, s, events[..|events| - 1]);
    }
  }

  /** Commands are only ever appended: the log of an earlier session is a
      prefix of the log of a later one. */
  lemma {:induction false} IssuedOnlyGrows<S>(react: (S, Command) -> S, s: Session<S>, events: seq<Event<S>>)
    ensures s.issued <= Run(react, s, events).issued
    decreases |events|
  {
    if events != [] {
      IssuedOnlyGrows(react, s, events[..|events| - 1]);
    }
  }

  /** Whether an event restores a snapshot; a restore from a bundle without
      one is not such an event. */
  predicate RestoresSnapshot<S>(e: Event<S>) {
    e.RestoreInstanceState? && e.bundle.Some?
  }

  /** Every event but the restore of a snapshot either leaves the game and
      the log alone or issues one command and applies it to the live state. */
  lemma StepEffect<S>(react: (S, Command) -> S, s: Session<S>, e: Event<S>)
    requires !RestoresSnapshot(e)
    ensures var t := Step(react, s, e);
            || (t.issued == s.issued && t.live == s.live)
            || (exists c :: t.issued == s.issued + [c] && t.live == react(s.live, c))
  {
  }

  /** The engine state reached from x by applying the commands in order. */
  function Replay<S>(react: (S, Command) -> S, x: S, cs: seq<Command>): S
    decreases |cs|
  {
    if cs == [] then x else react(Replay(react, x, cs[..|cs| - 1]), cs[|cs| - 1])
  }

  /** No event restores a snapshot; restores from bundles without one may occur. */
  predicate NoRestore<S>(events: seq<Event<S>>) {
    forall i :: 0 <= i < |events| ==> !RestoresSnapshot(events[i])
  }

  /** Without a snapshot restored in between, the live engine state is the starting state
      with exactly the commands issued meanwhile applied to it. */
  lemma {:induction false} LiveReplaysIssued<S>(react: (S, Command) -> S, s: Session<S>, events: seq<Event<S>>)
    requires NoRestore(events)
    ensures |s.issued| <= |Run(react, s, events).issued|
    ensures Run(react, s, events).live
         == Replay(react, s.live, Run(react, s, events).issued[|s.issued|..])
    decreases |events|
  {
    IssuedOnlyGrows(react, s, events);
    if events == [] {
      assert s.issued[|s.issued|..] == [];
    } else {
      var prefix := events[..|events| - 1];
      assert NoRestore(prefix) by {
        forall i | 0 <= i < |prefix| ensures !RestoresSnapshot(prefix[i]) {
          assert prefix[i] == events[i];
        }
      }
      LiveReplaysIssued(react, s, prefix);
      var mid := Run(react, s, prefix);
      var e := events[|events| - 1];
      assert !RestoresSnapshot(e);
      var cs := mid.issued[|s.issued|..];
      var next := Step(react, mid, e);
      StepEffect(react, mid, e);
      if next.issued != mid.issued {
        var c := next.issued[|next.issued| - 1];
        assert next.issued[|s.issued|..] == cs + [c];
        assert (cs + [c])[..|cs + [c]| - 1] == cs;
      }
    }
  }

  /** The checkpoint is taken from the live game: a session created from a
      snapshot, then driven by any events that restore no further snapshot, saves the
      original snapshot with every command issued since applied to it, and
      leaves the listener unregistered. */
  lemma {:induction false} CheckpointIsLive<S>(react: (S, Command) -> S, initial: S, listening: bool, saved: S, events: seq<Event<S>>)
    requires NoRestore(events)
    ensures Snapshot(Run(react, Create(initial, listening, Some(saved)), events))
         == Replay(react, saved, Run(react, Create(initial, listening, Some(saved)), events).issued)
    ensures !Step(react, Run(react, Create(initial, listening, Some(saved)), events), SaveInstanceState).registered
  {
    var s := Create(initial, listening, Some(saved));
    LiveReplaysIssued(react, s, events);
    assert Run(react, s, events).issued[0..] == Run(react, s, events).issued;
  }

  /** The checkpoint is taken from the game as restored last: after any
      events, a restore of snapshot x, and then events that restore no further
      snapshot, the snapshot is x with exactly the commands issued since that
      restore applied to it. */
  lemma {:induction false} CheckpointReplaysSinceLastRestore<S>(react: (S, Command) -> S, s: Session<S>,
                                                               before: seq<Event<S>>, x: S, rest: seq<Event<S>>)
    requires NoRestore(rest)
    ensures var mark := |Run(react, s, before).issued|;
            var t := Run(react, s, before + [RestoreInstanceState(Some(x))] + rest);
            mark <= |t.issued| && Snapshot(t) == Replay(react, x, t.issued[mark..])
  {
    var r := [RestoreInstanceState(Some(x))];
    var m := Run(react, s, before);
    RunAppend(react, s, before + r, rest);
    RunAppend(react, s, before, r);
    assert r[..|r| - 1] == [];
    var restored := Run(react, m, r);
    assert restored == Restore(m, Some(x));
    LiveReplaysIssued(react, restored, rest);
  }

  /** The platform's own sequence: `onCreate` with a saved bundle, then
      `onRestoreInstanceState` with the same bundle, then events that
      restore no further snapshot. The checkpoint is the saved game with every
      command issued meanwhile applied, rather than the game as restored. */
  lemma {:induction false} CheckpointIsLiveAfterPlatformRestore<S>(react: (S, Command) -> S, initial: S, listening: bool,
                                                                  saved: S, rest: seq<Event<S>>)
    requires NoRestore(rest)
    ensures var t := Run(react, Create(initial, listening, Some(saved)), [RestoreInstanceState(Some(saved))] + rest);
            Snapshot(t) == Replay(react, saved, t.issued)
  {
    var s := Create(initial, listening, Some(saved));
    CheckpointReplaysSinceLastRestore(react, s, [], saved, rest);
    assert [] + [RestoreInstanceState(Some(saved))] + rest == [RestoreInstanceState(Some(saved))] + rest;
    var t := Run(react, s, [RestoreInstanceState(Some(saved))] + rest);
    assert t.issued[0..] == t.issued;
  }

  /** A checkpoint round-trips: whatever happens after `onSaveInstanceState`,
      restoring the snapshot it wrote brings the game back to the saved state,
      keeps the command log, and leaves the registration as it was. */
  lemma SaveRestoreRoundTrip<S>(react: (S, Command) -> S, s: Session<S>, between: seq<Event<S>>)
    ensures Run(react, s, [SaveInstanceState] + between + [RestoreInstanceState(Some(Snapshot(s)))]).live == s.live
    ensures Run(react, s, [SaveInstanceState] + between + [RestoreInstanceState(Some(Snapshot(s)))]).issued
         == Run(react, s, [SaveInstanceState] + between).issued
  {
  }
}
