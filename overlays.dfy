/** The overlay state machine: which overlay is open and which keys are live
    in each case. */
module Overlays {
  import opened Keyboard

  /** What the screen shows: the game itself, or one of the three overlays. */
  datatype Mode = Running | Paused | NetworkList | Help

  /** The key table of each mode. */
  function Bindings(m: Mode): Table {
    match m
    case Running =>
      map[Up := MoveForward, W := MoveForward, Left := TurnLeft, A := TurnLeft,
          Right := TurnRight, D := TurnRight,
          P := TogglePause, N := ToggleNetworkList, H := ToggleHelp]
    case Paused => map[P := TogglePause]
    case Help => map[H := ToggleHelp]
    case NetworkList => map[N := ToggleNetworkList, Down := CursorDown, Up := CursorUp, Enter := Select]
  }

  /** The mode after pressing `k`; `joined` says whether a press of enter in
      the network list connected to the selected network. */
  function NextMode(m: Mode, k: Key, joined: bool): Mode {
    match m
    case Running => if k == P then Paused else if k == N then NetworkList else if k == H then Help else Running
    case Paused => if k == P then Running else Paused
    case Help => if k == H then Running else Help
    case NetworkList => if k == N || (k == Enter && joined) then Running else NetworkList
  }

  /** Each overlay leaves exactly one of the three toggle keys live, its own,
      so no overlay can be opened on top of another. */
  lemma OverlaysLockOtherToggles(m: Mode)
    ensures P in Bindings(m) <==> m == Running || m == Paused
    ensures N in Bindings(m) <==> m == Running || m == NetworkList
    ensures H in Bindings(m) <==> m == Running || m == Help
  {
  }

  /** The mode after handler `h` runs in mode `m`: each toggle opens its
      overlay or closes it again, enter closes the list once the player has
      joined a network, and the other handlers leave the mode alone. */
  function After(m: Mode, h: Handler, joined: bool): Mode {
    match h
    case TogglePause => if m == Paused then Running else Paused
    case ToggleNetworkList => if m == NetworkList then Running else NetworkList
    case ToggleHelp => if m == Help then Running else Help
    case Select => if joined then Running else m
    case _ => m
  }

  /** What a live key can run: a toggle only on its own key and outside the
      other overlays, each movement handler exactly on its two keys while
      running, each cursor handler and the enter handler exactly on its key
      in the network list; and running the handler moves to the mode
      `NextMode` gives for the key. */
  lemma LiveHandler(m: Mode, k: Key, joined: bool)
    requires k in Bindings(m)
    ensures Bindings(m)[k] == TogglePause ==> m == Running || m == Paused
    ensures Bindings(m)[k] == ToggleNetworkList ==> m == Running || m == NetworkList
    ensures Bindings(m)[k] == ToggleHelp ==> m == Running || m == Help
    ensures Bindings(m)[k] in {MoveForward, TurnLeft, TurnRight} ==> m == Running
    ensures Bindings(m)[k] in {CursorDown, CursorUp, Select} ==> m == NetworkList
    ensures Bindings(m)[k] == MoveForward <==> m == Running && k in {Up, W}
    ensures Bindings(m)[k] == TurnLeft <==> m == Running && k in {Left, A}
    ensures Bindings(m)[k] == TurnRight <==> m == Running && k in {Right, D}
    ensures Bindings(m)[k] == ToggleNetworkList <==> k == N
    ensures Bindings(m)[k] == CursorDown <==> m == NetworkList && k == Down
    ensures Bindings(m)[k] == CursorUp <==> m == NetworkList && k == Up
    ensures Bindings(m)[k] == Select <==> m == NetworkList && k == Enter
    ensures NextMode(m, k, joined) == After(m, Bindings(m)[k], joined)
  {
    match m
    case Running =>
    case Paused =>
    case Help =>
    case NetworkList =>
  }

  /** A table holding one toggle key of the running table, to which the
      movement keys and then the other two toggle keys are bound, is the
      running table. */
  lemma RunningRebuilt(t: Table, k0: Key, h0: Handler, k1: Key, h1: Handler, k2: Key, h2: Handler)
    requires t == map[k0 := h0]
    requires k0 in {P, N, H} && k1 in {P, N, H} && k2 in {P, N, H}
    requires k0 != k1 && k1 != k2 && k0 != k2
    requires h0 == Bindings(Running)[k0] && h1 == Bindings(Running)[k1] && h2 == Bindings(Running)[k2]
    ensures Bound(Bound(MovementBound(t), {k1}, h1), {k2}, h2) == Bindings(Running)
  {
    var m := MovementBound(t);
    MovementBoundUpdates(t);
    BoundSingle(m, k1, h1);
    BoundSingle(m[k1 := h1], k2, h2);
    RunningUpdates(t, k0, h0, k1, h1, k2, h2);
  }

  /** `RunningRebuilt` as map updates. */
  lemma RunningUpdates(t: Table, k0: Key, h0: Handler, k1: Key, h1: Handler, k2: Key, h2: Handler)
    requires t == map[k0 := h0]
    requires k0 in {P, N, H} && k1 in {P, N, H} && k2 in {P, N, H}
    requires k0 != k1 && k1 != k2 && k0 != k2
    requires h0 == Bindings(Running)[k0] && h1 == Bindings(Running)[k1] && h2 == Bindings(Running)[k2]
    ensures t[Up := MoveForward][W := MoveForward][Left := TurnLeft][A := TurnLeft]
             [Right := TurnRight][D := TurnRight][k1 := h1][k2 := h2]
            == Bindings(Running)
  {
    var r := t[Up := MoveForward][W := MoveForward][Left := TurnLeft][A := TurnLeft]
              [Right := TurnRight][D := TurnRight][k1 := h1][k2 := h2];
    assert r.Keys == Bindings(Running).Keys;
  }

  /** The start-up bindings: movement keys, then p, n and h. */
  lemma StartupBindings()
    ensures Bound(Bound(Bound(MovementBound(map[]), {P}, TogglePause), {N}, ToggleNetworkList), {H}, ToggleHelp)
            == Bindings(Running)
  {
    var t := MovementBound(map[]);
    MovementBoundUpdates(map[]);
    BoundSingle(t, P, TogglePause);
    BoundSingle(t[P := TogglePause], N, ToggleNetworkList);
    BoundSingle(t[P := TogglePause][N := ToggleNetworkList], H, ToggleHelp);
  }

  /** `pause` from the running table leaves only p. */
  lemma PauseBindings()
    ensures Unbound(Bindings(Running), MovementKeys + {N, H}) == Bindings(Paused)
  {
    assert Unbound(Bindings(Running), MovementKeys + {N, H}).Keys == {P};
  }

  /** `unPause` from the paused table restores the running table. */
  lemma UnPauseBindings()
    ensures Bound(Bound(MovementBound(Bindings(Paused)), {N}, ToggleNetworkList), {H}, ToggleHelp)
            == Bindings(Running)
  {
    assert Bindings(Paused) == map[P := TogglePause];
    RunningRebuilt(Bindings(Paused), P, TogglePause, N, ToggleNetworkList, H, ToggleHelp);
  }

  /** `showNetworkList` from the running table leaves n live and rebinds up
      to the cursor, beside down and enter. */
  lemma ShowNetworkListBindings()
    ensures Bound(Bound(Bound(Unbound(Bindings(Running), MovementKeys + {P, H}), {Down}, CursorDown),
                      {Up}, CursorUp), {Enter}, Select)
            == Bindings(NetworkList)
  {
    var t := Unbound(Bindings(Running), MovementKeys + {P, H});
    assert t.Keys == {N};
    assert t == map[N := ToggleNetworkList];
    BoundSingle(t, Down, CursorDown);
    BoundSingle(t[Down := CursorDown], Up, CursorUp);
    BoundSingle(t[Down := CursorDown][Up := CursorUp], Enter, Select);
  }

  /** `hideNetworkList` from the network-list table restores the running
      table, up moving forward again. */
  lemma HideNetworkListBindings()
    ensures Bound(Bound(MovementBound(Unbound(Bindings(NetworkList), {Down, Up, Enter})), {P}, TogglePause),
                 {H}, ToggleHelp)
            == Bindings(Running)
  {
    CursorKeysUnbound();
    RunningRebuilt(map[N := ToggleNetworkList], N, ToggleNetworkList, P, TogglePause, H, ToggleHelp);
  }

  /** Unbinding the cursor keys of the network list leaves only n. */
  lemma CursorKeysUnbound()
    ensures Unbound(Bindings(NetworkList), {Down, Up, Enter}) == map[N := ToggleNetworkList]
  {
    assert Unbound(Bindings(NetworkList), {Down, Up, Enter}).Keys == {N};
  }

  /** `showHelp` from the running table leaves only h. */
  lemma ShowHelpBindings()
    ensures Unbound(Bindings(Running), MovementKeys + {N, P}) == Bindings(Help)
  {
    assert Unbound(Bindings(Running), MovementKeys + {N, P}).Keys == {H};
  }

  /** `hideHelp`, which binds the movement keys twice, restores the running table. */
  lemma HideHelpBindings()
    ensures Bound(Bound(MovementBound(MovementBound(Bindings(Help))), {N}, ToggleNetworkList),
                 {P}, TogglePause)
            == Bindings(Running)
  {
    var h := Bindings(Help);
    calc {
      Bound(Bound(MovementBound(MovementBound(h)), {N}, ToggleNetworkList), {P}, TogglePause);
    == { MovementBoundIdempotent(h); }
      Bound(Bound(MovementBound(h), {N}, ToggleNetworkList), {P}, TogglePause);
    == { RunningRebuilt(h, H, ToggleHelp, N, ToggleNetworkList, P, TogglePause); }
      Bindings(Running);
    }
  }
}
