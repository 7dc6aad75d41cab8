/** When the spectrum analyzer's animation timer runs: the window, player and
    pass events of SpectrumAnalyzer as pure transitions over the four facts
    they read and write. The analyzer class is proved to follow these
    transitions, so the properties below hold of it. */
module TimerGating {
  import opened Optional

  /** Whether the top-level window counts as active (not minimized), whether
      the animation timer is enabled, whether the control is attached to a
      top-level window (and listens to its state changes), and whether a
      sound player is registered (and listened to). */
  datatype Gate = Gate(windowActive: bool, timerEnabled: bool, windowAttached: bool, playerRegistered: bool)

  /** The state of a newly constructed analyzer. */
  const Initial: Gate := Gate(false, false, false, false)

  /** The timer only runs with a player to read from, and the window only
      counts as active while one is attached. */
  predicate Consistent(g: Gate) {
    && (g.timerEnabled ==> g.playerRegistered)
    && (g.windowActive ==> g.windowAttached)
  }

  /** UnregisterSoundPlayer: stop the timer and drop the player. */
  function Unregister(g: Gate): (r: Gate)
    ensures !r.timerEnabled && !r.playerRegistered
    ensures r.windowActive == g.windowActive && r.windowAttached == g.windowAttached
  {
    g.(timerEnabled := false, playerRegistered := false)
  }

  /** RegisterSoundPlayer: replace the player, then start the timer when the
      window is active, whether or not the player is playing. */
  function Register(g: Gate): (r: Gate)
    ensures r.playerRegistered
    ensures r.timerEnabled <==> g.windowActive
    ensures r.windowActive == g.windowActive && r.windowAttached == g.windowAttached
  {
    Unregister(g).(playerRegistered := true, timerEnabled := g.windowActive)
  }

  /** The player's PropertyChanged handler, which only exists while a player
      is registered: a change of "IsPlaying" to playing starts a stopped
      timer when the window is active. */
  function PlayerPropertyChanged(g: Gate, name: string, playing: bool): (r: Gate)
    ensures r.windowActive == g.windowActive && r.windowAttached == g.windowAttached
    ensures r.playerRegistered == g.playerRegistered
    ensures r.timerEnabled <==> g.timerEnabled || (g.playerRegistered && name == "IsPlaying" && playing && g.windowActive)
  {
    if g.playerRegistered && name == "IsPlaying" && playing && !g.timerEnabled && g.windowActive
    then g.(timerEnabled := true)
    else g
  }

  /** Loaded: detach from the old window (the window then counts as
      inactive), attach to the new one if there is one (active unless
      minimized), and start the timer when the window is active and the
      player is playing. `window` is the new window's minimized state, None
      when there is no top-level window. */
  function Loaded(g: Gate, window: Option<bool>, playing: bool): (r: Gate)
    ensures r.windowAttached <==> window.Some?
    ensures window.Some? ==> r.windowActive == !window.value
    ensures window.None? ==> r.windowActive == (g.windowActive && !g.windowAttached)
    ensures r.playerRegistered == g.playerRegistered
    ensures r.timerEnabled <==> g.timerEnabled || (r.windowActive && g.playerRegistered && playing)
  {
    var detached := if g.windowAttached then g.(windowActive := false) else g;
    var attached := match window
      case None => detached.(windowAttached := false)
      case Some(minimized) => detached.(windowAttached := true, windowActive := !minimized);
    if attached.windowActive && attached.playerRegistered && playing
    then attached.(timerEnabled := true)
    else attached
  }

  /** Unloaded: stop the timer and detach from the window. */
  function Unloaded(g: Gate): (r: Gate)
    ensures !r.timerEnabled && !r.windowAttached
    ensures r.windowActive == (g.windowActive && !g.windowAttached)
    ensures r.playerRegistered == g.playerRegistered
  {
    var stopped := g.(timerEnabled := false);
    var detached := if g.windowAttached then stopped.(windowActive := false) else stopped;
    detached.(windowAttached := false)
  }

  /** The window's StateChanged handler, which only exists while a window is
      attached: the window is active unless minimized; the timer stops when
      it is not, and starts when it is and the player is playing. */
  function WindowStateChanged(g: Gate, minimized: bool, playing: bool): (r: Gate)
    ensures g.windowAttached ==> r.windowActive == !minimized
    ensures g.windowAttached && minimized ==> !r.timerEnabled
    ensures g.windowAttached && !minimized && g.playerRegistered && playing ==> r.timerEnabled
    ensures r.windowAttached == g.windowAttached && r.playerRegistered == g.playerRegistered
  {
    if !g.windowAttached then g
    else if minimized then g.(windowActive := false, timerEnabled := false)
    else if g.playerRegistered && playing then g.(windowActive := true, timerEnabled := true)
    else g.(windowActive := true)
  }

  /** End of a drawing pass: the pass may stop the timer, never start it. */
  function PassEnded(g: Gate, stop: bool): (r: Gate)
    ensures r.timerEnabled <==> g.timerEnabled && !stop
    ensures r.windowActive == g.windowActive && r.windowAttached == g.windowAttached
    ensures r.playerRegistered == g.playerRegistered
  {
    if stop then g.(timerEnabled := false) else g
  }

  /** The events that move the gate. */
  datatype Event =
    | RegisterPlayer
    | UnregisterPlayer
    | PlayerChanged(name: string, playing: bool)
    | WindowLoaded(window: Option<bool>, playing: bool)
    | WindowUnloaded
    | StateChanged(minimized: bool, playing: bool)
    | DrawPass(stop: bool)

  function Apply(g: Gate, e: Event): Gate {
    match e
    case RegisterPlayer => Register(g)
    case UnregisterPlayer => Unregister(g)
    case PlayerChanged(name, playing) => PlayerPropertyChanged(g, name, playing)
    case WindowLoaded(window, playing) => Loaded(g, window, playing)
    case WindowUnloaded => Unloaded(g)
    case StateChanged(minimized, playing) => WindowStateChanged(g, minimized, playing)
    case DrawPass(stop) => PassEnded(g, stop)
  }

  /** The gate after a sequence of events, in order. */
  function Run(g: Gate, events: seq<Event>): Gate
    decreases |events|
  {
    if events == [] then g else Run(Apply(g, events[0]), events[1..])
  }

  /** Every event keeps the gate consistent. */
  lemma ApplyKeepsConsistent(g: Gate, e: Event)
    requires Consistent(g)
    ensures Consistent(Apply(g, e))
  {
  }

  /** Every run of events from a consistent gate, in particular from the
      initial one, ends consistent. */
  lemma {:induction false} RunKeepsConsistent(g: Gate, events: seq<Event>)
    requires Consistent(g)
    ensures Consistent(Run(g, events))
    decreases |events|
  {
    if events != [] {
      ApplyKeepsConsistent(g, events[0]);
      RunKeepsConsistent(Apply(g, events[0]), events[1..]);
    }
  }

  /** An event that starts the timer leaves the window active. */
  lemma StartsOnlyWhenActive(g: Gate, e: Event)
    ensures !g.timerEnabled && Apply(g, e).timerEnabled ==> Apply(g, e).windowActive && Apply(g, e).playerRegistered
  {
  }

  /** Once unloaded, the timer stays stopped until the control is loaded
      again, whatever the player and the passes do. */
  lemma {:induction false} StoppedUntilLoaded(g: Gate, events: seq<Event>)
    requires Consistent(g) && !g.windowAttached && !g.timerEnabled
    requires forall j :: 0 <= j < |events| ==> !events[j].WindowLoaded?
    ensures !Run(g, events).timerEnabled && !Run(g, events).windowAttached
    decreases |events|
  {
    if events != [] {
      var h := Apply(g, events[0]);
      assert !h.timerEnabled && !h.windowAttached && Consistent(h);
      assert forall j :: 0 <= j < |events[1..]| ==> events[1..][j] == events[j + 1];
      StoppedUntilLoaded(h, events[1..]);
    }
  }
}
