/** The GLFW-backed input receiver: a set-once singleton that turns GLFW key
    callbacks into KeyPressedSignal emissions, and answers key-state queries. */
module Receivers {
  import opened KeyMapping

  // GLFW key actions (GLFW 3 values).
  const GLFW_RELEASE: int := 0
  const GLFW_PRESS: int := 1
  const GLFW_REPEAT: int := 2

  /** A GLFW window; only its identity matters. */
  class Window {
    constructor () { }
  }

  /** What the windowing backend reports: `getKey` is glfwGetKey, and
      `keyToGlfw` the translation of a Key back into a GLFW key code. */
  datatype KeyBackend = KeyBackend(keyToGlfw: Key -> int, getKey: (Window, int) -> int)

  /** A key callback as GLFW delivers it. */
  datatype KeyEvent = KeyEvent(window: Window, key: int, scancode: int, action: int, mods: int)

  /** What one key event emits on KeyPressedSignal: the translated key on a
      press, nothing on a release or a repeat. */
  function SignalsFor(event: KeyEvent): (emitted: seq<Key>)
    ensures |emitted| <= 1
    ensures |emitted| == 1 <==> event.action == GLFW_PRESS
    ensures |emitted| == 1 ==> emitted[0] == KeyFromGlfw(event.key)
  {
    if event.action == GLFW_PRESS then [KeyFromGlfw(event.key)] else []
  }

  /** What a run of key events emits, in order. */
  function SignalsForAll(events: seq<KeyEvent>): seq<Key>
  {
    if events == [] then [] else SignalsForAll(events[..|events| - 1]) + SignalsFor(events[|events| - 1])
  }

  /** Releases and repeats never emit anything, whichever window they come from. */
  lemma {:induction false} NoPressNoSignals(events: seq<KeyEvent>)
    requires forall i :: 0 <= i < |events| ==> events[i].action != GLFW_PRESS
    ensures SignalsForAll(events) == []
  {
    if events != [] {
      NoPressNoSignals(events[..|events| - 1]);
    }
  }

  /** Every emitted key comes from a press, one per press, so a run of events
      never emits more keys than it holds presses. */
  lemma {:induction false} SignalsAreTranslatedPresses(events: seq<KeyEvent>)
    ensures |SignalsForAll(events)| <= |events|
    ensures forall k :: k in SignalsForAll(events) ==>
      exists i :: 0 <= i < |events| && events[i].action == GLFW_PRESS && KeyFromGlfw(events[i].key) == k
  {
    if events != [] {
      var prefix := events[..|events| - 1];
      SignalsAreTranslatedPresses(prefix);
      forall k | k in SignalsForAll(events)
        ensures exists i :: 0 <= i < |events| && events[i].action == GLFW_PRESS && KeyFromGlfw(events[i].key) == k
      {
        if k in SignalsForAll(prefix) {
          var i :| 0 <= i < |prefix| && prefix[i].action == GLFW_PRESS && KeyFromGlfw(prefix[i].key) == k;
          assert events[i] == prefix[i];
        } else {
          assert events[|events| - 1].action == GLFW_PRESS;
        }
      }
    }
  }

  class GlfwInputReceiver {
    const window: Window
    /** Every value emitted on KeyPressedSignal so far, oldest first. */
    var keyPressedSignals: seq<Key>

    constructor (window: Window)
      ensures this.window == window
      ensures keyPressedSignals == []
    {
      this.window := window;
      keyPressedSignals := [];
    }

    /** A key is down exactly when the backend reports it pressed for this
        receiver's window; released and repeating keys are not down. */
    function IsKeyDown(key: Key, backend: KeyBackend): (down: bool)
      reads this
      ensures backend.getKey(window, backend.keyToGlfw(key)) == GLFW_PRESS ==> down
      ensures backend.getKey(window, backend.keyToGlfw(key)) in {GLFW_RELEASE, GLFW_REPEAT} ==> !down
    {
      backend.getKey(window, backend.keyToGlfw(key)) == GLFW_PRESS
    }
  }

  /** The static instance slot and the key callback GLFW holds. */
  class InputReceiverSingleton {
    var instance: GlfwInputReceiver?
    /** The window glfwSetKeyCallback registered the key callback on, if any. */
    var keyCallbackWindow: Window?

    constructor ()
      ensures instance == null && keyCallbackWindow == null
    {
      instance := null;
      keyCallbackWindow := null;
    }

    /** Only valid after InitializeInstance. */
    method GetInstance() returns (receiver: GlfwInputReceiver)
      requires instance != null
      ensures receiver == instance
    {
      receiver := instance;
    }

    /** Runs once: registers the key callback on the window and creates the
        instance bound to that (non-null) window. */
    method InitializeInstance(window: Window?)
      requires instance == null
      requires window != null
      modifies this
      ensures instance != null && fresh(instance)
      ensures instance.window == window && instance.keyPressedSignals == []
      ensures keyCallbackWindow == window
    {
      keyCallbackWindow := window;
      instance := new GlfwInputReceiver(window);
    }

    /** The key callback. An event from another window is only logged (logging
        is not modelled) and still dispatched; anything but a press emits nothing. */
    method OnGlfwKeyEvent(event: KeyEvent)
      requires instance != null
      modifies instance`keyPressedSignals
      ensures instance.keyPressedSignals == old(instance.keyPressedSignals) + SignalsFor(event)
    {
      var receiver := GetInstance();
      if event.action != GLFW_PRESS {
        return;
      }
      receiver.keyPressedSignals := receiver.keyPressedSignals + [KeyFromGlfw(event.key)];
    }

    /** Delivers a run of key events: the signal log grows by exactly what
        SignalsForAll says, in order. */
    method DispatchAll(events: seq<KeyEvent>)
      requires instance != null
      modifies instance`keyPressedSignals
      ensures instance.keyPressedSignals == old(instance.keyPressedSignals) + SignalsForAll(events)
    {
      var i := 0;
      while i < |events|
        invariant 0 <= i <= |events|
        invariant instance.keyPressedSignals == old(instance.keyPressedSignals) + SignalsForAll(events[..i])
      {
        assert events[..i + 1][..i] == events[..i];
        OnGlfwKeyEvent(events[i]);
        i := i + 1;
      }
      assert events[..i] == events;
    }
  }
}
