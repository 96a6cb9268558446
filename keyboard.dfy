/** The key-binding table of the game engine (`kontra.keys`): a map from a key
    name to the handler that a key press runs. `bind` overwrites the entry of
    every key it is given, `unbind` removes them. */
module Keyboard {

  /** The key names the game binds. */
  datatype Key = Up | W | Left | A | Right | D | P | N | H | Down | Enter

  /** The handlers the game installs. `CursorDown`, `CursorUp` and `Select`
      are the three closures that opening the network list creates. */
  datatype Handler =
    | MoveForward | TurnLeft | TurnRight
    | TogglePause | ToggleNetworkList | ToggleHelp
    | CursorDown | CursorUp | Select

  type Table = map<Key, Handler>

  /** The keys that move the player. */
  const MovementKeys: set<Key> := {Left, Right, Up, A, D, W}

  /** The table after `bind(keys, handler)`: every key of `ks` now runs `h`;
      every other entry stays. */
  function Bound(t: Table, ks: set<Key>, h: Handler): Table
  {
    t + map k | k in ks :: h
  }

  /** The table after `unbind(keys)`: no key of `ks` runs anything any more;
      every other entry stays. */
  function Unbound(t: Table, ks: set<Key>): Table
  {
    t - ks
  }

  /** The table after the game's `bindMovementKeys`: up/w move forward,
      left/a turn left, right/d turn right. */
  function MovementBound(t: Table): Table
  {
    Bound(Bound(Bound(t, {Up, W}, MoveForward), {Left, A}, TurnLeft), {Right, D}, TurnRight)
  }

  /** Binding one key is a single map update. */
  lemma BoundSingle(t: Table, k: Key, h: Handler)
    ensures Bound(t, {k}, h) == t[k := h]
  {
    assert Bound(t, {k}, h).Keys == t[k := h].Keys;
  }

  /** Binding two keys is two map updates. */
  lemma BoundPair(t: Table, k: Key, k': Key, h: Handler)
    ensures Bound(t, {k, k'}, h) == t[k := h][k' := h]
  {
    assert Bound(t, {k, k'}, h).Keys == t[k := h][k' := h].Keys;
  }

  /** `MovementBound` as six map updates. */
  lemma MovementBoundUpdates(t: Table)
    ensures MovementBound(t)
            == t[Up := MoveForward][W := MoveForward][Left := TurnLeft][A := TurnLeft]
                [Right := TurnRight][D := TurnRight]
  {
    var t1 := t[Up := MoveForward][W := MoveForward];
    var t2 := t1[Left := TurnLeft][A := TurnLeft];
    BoundPair(t, Up, W, MoveForward);
    BoundPair(t1, Left, A, TurnLeft);
    BoundPair(t2, Right, D, TurnRight);
  }

  /** Binding the movement keys a second time changes nothing. */
  lemma MovementBoundIdempotent(t: Table)
    ensures MovementBound(MovementBound(t)) == MovementBound(t)
  {
    MovementBoundUpdates(t);
    MovementBoundUpdates(MovementBound(t));
  }

  /** The engine's key table (`kontra.keys`), which the game changes only
      through `bind` and `unbind`. */
  class Keys {
    var bindings: Table

    /** The engine starts with no key bound. */
    constructor ()
      ensures bindings == map[]
    {
      bindings := map[];
    }

    method Bind(ks: set<Key>, h: Handler)
      modifies this
      ensures bindings == Bound(old(bindings), ks, h)
    {
      bindings := Bound(bindings, ks, h);
    }

    method Unbind(ks: set<Key>)
      modifies this
      ensures bindings == Unbound(old(bindings), ks)
    {
      bindings := Unbound(bindings, ks);
    }
  }
}
