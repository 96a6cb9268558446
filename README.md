# WiFiHunt game rules in Dafny

WiFiHunt is a small browser game. The player walks around a plane looking
for Wi-Fi access points, buys access to them with a limited amount of
money, types their passwords, and has to download 2048 MiB and upload
1024 MiB before the battery runs flat. This project models the rule layer
of `src/js/script.js` and proves properties of it. It covers the
following:

- the heading the player turns with the arrow keys;
- the three overlays (pause, network list, help), each opened and closed
  by its own key, and the key table of the game engine (`kontra.keys`)
  that they rebind;
- the network list: its cursor and the enter handler. The enter handler
  offers to sell access, checks the typed password against a hash and
  connects to the network;
- `getAccessPoints`, the filter that decides which networks the list
  shows;
- one frame of the game loop: the battery drain, the transfer towards
  both goals, the end of the game, and dropping a connection once it is
  out of range.

Modules:

- `Keyboard` (keyboard.dfy): key names, handlers, and the key table as a
  `map<Key, Handler>`. `Bound` and `Unbound` give the table after
  `bind`/`unbind`. The class `Keys` is the engine's table, which the game
  changes only through those two calls.
- `Heading` (heading.dfy): the heading in whole degrees and the one-degree
  turns.
- `Options` and `AccessPoints` (access_points.dfy): the `AccessPoint`
  class and the pure filter `GetAccessPoints`. The price is the only field
  that changes; buying access sets it to 0.
- `Overlays` (overlays.dfy): the four modes (running, paused, network
  list, help), the key table each mode leaves live, and how a key press
  moves between modes. Its lemmas prove that each opener's and closer's
  sequence of `bind`/`unbind` calls, applied to the table of the mode it is
  called from, yields the table of the mode it leads to.
- `WiFiHunt` (game.dfy):
  - the battery, money and remaining-goal sprites, as classes;
  - the pure decision functions of the enter handler;
  - the class `Game`, which holds the global state of the script and its
    handlers as methods.

`Game.Valid()` is the invariant of the game:

- the heading lies in 0..359;
- money is never negative;
- the battery lies in 0..100 and the goals are never negative;
- at most one overlay is open;
- the live keys are exactly those of the open overlay;
- while the network list is open, the cursor points into the list, or
  is 0 when the list is empty;
- the player is connected to nothing, or to one of the world's access
  points.

`Game.Start` (the start-up bindings of `game()`) establishes the
invariant. Every key press (`Game.Press`) and every frame
(`Game.Update`) preserves it. `Game.Play` runs any sequence of such
events. The two-state predicate `Game.Entered` states what the enter
handler does, between the state before the key press and the state
after it. `Game.Select`, `Game.Dispatch` and `Game.Press` all promise it.

The world and its geometry are parameters of the game:

- whether a point is in range of a network;
- a network's speed at a point;
- the password hash;
- the step along a heading.

The player's answers to the offer to pay (`confirm`) and to the password
question (`prompt`) are parameters of the enter handler.

Joining a network does not clear or change its stored password. In the
model the password is a constant of `AccessPoint`, as in the code.

## Model

| member | source | states |
|---|---|---|
| Heading.LeftOf | src/js/script.js:319-325 | the left turn of a heading in 0..359 is the next degree, and 359 wraps to 0; the result is always in 0..359 |
| Heading.RightOf | src/js/script.js:327-333 | the right turn of a heading in 0..359 is the previous degree, and 0 wraps to 359; the result is always in 0..359 |
| Heading.LeftRightInverse | src/js/script.js:319-333 | a left turn and a right turn undo each other, in either order |
| WiFiHunt.Game.TurnLeft | src/js/script.js:319-325 | `turnLeft` leaves the heading at `LeftOf` of the old one and keeps the invariant |
| WiFiHunt.Game.TurnRight | src/js/script.js:327-333 | `turnRight` leaves the heading at `RightOf` of the old one and keeps the invariant |
| WiFiHunt.Game.MoveForward | src/js/script.js:308-317 | one step adds the offset of length 1 along the heading to the position; it is only bound while the list is closed, so the list and the cursor stay valid |
| Keyboard.Keys.constructor | src/js/script.js:22 | the engine starts with no key bound |
| Keyboard.Keys.Bind | src/js/script.js:459-461 | `bind` makes every given key run the handler and leaves every other entry |
| Keyboard.Keys.Unbind | src/js/script.js:354 | `unbind` removes every given key and leaves every other entry |
| Keyboard.BoundSingle | src/js/script.js:97-99 | binding one key is a single map update |
| Keyboard.BoundPair | src/js/script.js:459-461 | binding two keys is two map updates |
| Keyboard.MovementBoundUpdates | src/js/script.js:458-462 | `bindMovementKeys` sends up/w to moving forward, left/a to turning left and right/d to turning right, and changes no other key |
| Keyboard.MovementBoundIdempotent | src/js/script.js:441-450 | binding the movement keys a second time, as `hideHelp` does, changes nothing |
| WiFiHunt.Game.BindMovementKeys | src/js/script.js:458-462 | the table after `bindMovementKeys` is the old one with the six movement keys bound |
| Overlays.StartupBindings | src/js/script.js:96-99 | the start-up binds give exactly the running table: the six movement keys and p, n, h |
| Overlays.PauseBindings | src/js/script.js:352-355 | `pause` from the running table leaves only p live |
| Overlays.UnPauseBindings | src/js/script.js:357-363 | `unPause` from the paused table restores the running table |
| Overlays.ShowNetworkListBindings | src/js/script.js:365-379 | `showNetworkList` from the running table leaves n live, and binds down, up (now the cursor) and enter |
| Overlays.HideNetworkListBindings | src/js/script.js:416-423 | `hideNetworkList` from the list table restores the running table, with up moving forward again |
| Overlays.ShowHelpBindings | src/js/script.js:425-427 | `showHelp` from the running table leaves only h live |
| Overlays.HideHelpBindings | src/js/script.js:441-450 | `hideHelp`, which binds the movement keys twice, restores the running table from the help table |
| Overlays.RunningRebuilt | src/js/script.js:357-363 | a table holding one toggle key gets the whole running table back once the movement keys and the other two toggles are bound, which is the common shape of the three closers |
| Overlays.OverlaysLockOtherToggles | src/js/script.js:352-427 | in every mode, p, n and h are live exactly in running mode and in their own overlay, so no overlay can be opened over another: each of the three openers (`pause`, `showNetworkList`, `showHelp`) unbinds the other two toggles |
| Overlays.LiveHandler | src/js/script.js:337-379 | which handler each live key runs: the movement handlers exactly on up/w, left/a and right/d while running, the cursor handlers exactly on down and up and the enter handler exactly on enter in the list, the list toggle exactly on n; the mode after a key press is the one its handler leads to |
| WiFiHunt.Game.constructor | src/js/script.js:12-19 | page load: heading 90, position (0, 0), no overlay open, no connection, no key bound, money 500, battery 100, goals 2048/1024 MiB; all consistent |
| WiFiHunt.Game.Start | src/js/script.js:92-102 | `game()` binds the running table from the empty one, which establishes the invariant, and starts the loop |
| WiFiHunt.Game.Pause | src/js/script.js:352-355 | `pause` sets the pause flag and, from the running table, leaves the paused table |
| WiFiHunt.Game.UnPause | src/js/script.js:357-363 | `unPause` clears the pause flag and, from the paused table, restores the running table |
| WiFiHunt.Game.ShowNetworkList | src/js/script.js:365-379 | `showNetworkList` opens the list with the cursor at 0 and, from the running table, leaves the list table |
| WiFiHunt.Game.HideNetworkList | src/js/script.js:416-423 | `hideNetworkList` closes the list and, from the list table, restores the running table |
| WiFiHunt.Game.ShowHelp | src/js/script.js:425-439 | `showHelp` opens help and, from the running table, leaves the help table |
| WiFiHunt.Game.HideHelp | src/js/script.js:441-450 | `hideHelp` closes help and, from the help table, restores the running table |
| WiFiHunt.Game.TogglePause | src/js/script.js:337-340 | p opens the pause overlay from running mode and closes it again, keeping the invariant |
| WiFiHunt.Game.ToggleNetworkList | src/js/script.js:342-369 | n opens the list from running mode with the cursor on the first entry, and closes it again leaving the cursor alone, keeping the invariant |
| WiFiHunt.Game.ToggleHelp | src/js/script.js:347-350 | h opens help from running mode and closes it again, keeping the invariant |
| WiFiHunt.Game.CursorDown | src/js/script.js:371-373 | down moves the cursor one entry on, stopping at the last entry; on an empty list it stays 0 |
| WiFiHunt.Game.CursorUp | src/js/script.js:375-377 | up moves the cursor one entry back, stopping at 0 |
| AccessPoints.AccessPoint.constructor | src/js/script.js:383-404 | an access point holds its name, optional password hash, range, speeds and optional price |
| AccessPoints.GetAccessPoints | src/js/script.js:464-468 | the filter keeps only access points in range, keeps every one that is in range, and is no longer than its input |
| AccessPoints.GetAccessPointsConcat | src/js/script.js:464-468 | filtering a concatenation filters each part and keeps their order |
| AccessPoints.GetAccessPointsSingle | src/js/script.js:464-468 | a single access point is kept exactly when it is in range |
| AccessPoints.GetAccessPointsIdempotent | src/js/script.js:464-468 | filtering the in-range list again removes nothing |
| WiFiHunt.Outcome | src/js/script.js:383-412 | enter ends in `Declined` exactly when a priced network is refused, `CannotAfford` exactly when it is accepted without enough money, `WrongPassword` exactly when the player is admitted but the password fails, and `Joined` exactly when admitted with a right or no password |
| WiFiHunt.MoneyAfter | src/js/script.js:383-391 | money drops only when the player pays, and then by exactly the price; it never goes negative and never grows |
| WiFiHunt.CostAfter | src/js/script.js:383-391 | a paid network becomes free; otherwise its price is unchanged |
| WiFiHunt.PaidOnce | src/js/script.js:388-389 | once paid for, a network is never charged again: a second enter costs nothing and asks only for the password |
| WiFiHunt.PaymentAdmits | src/js/script.js:383-399 | whenever money is taken, it is exactly the price and the player gets past the offer to pay |
| WiFiHunt.Game.Purchase | src/js/script.js:383-399 | the offer to pay changes money and the network's price as `MoneyAfter` and `CostAfter` say, and reports the outcome up to the password |
| WiFiHunt.Game.Select | src/js/script.js:379-413 | keeps the invariant and satisfies `Entered`: on an empty list enter fails and nothing changes; otherwise the outcome, money and price follow `Outcome`, `MoneyAfter` and `CostAfter` for the highlighted network; a join connects to it and restores running mode; any other outcome leaves the connection, the list and the keys as they were; no other network's price changes |
| WiFiHunt.Game.Join | src/js/script.js:410-412 | an admitted player is connected to the selected network and the list closes back to running mode |
| WiFiHunt.Game.Press | src/js/script.js:311-413 | a key press runs the handler bound to the key: an unbound key changes nothing; the mode moves as `NextMode` says; the invariant holds; while running, up/w step along the heading, left/a and right/d turn, and n opens the list with the cursor at 0; in the list, down and up move the cursor within the list and enter does what `Entered` says; no other key changes money or any price; the position changes only on up/w while running, the heading only on left/a/right/d while running, the connection only on enter in the list, and the cursor only on down/up in the list and on n opening the list |
| WiFiHunt.Game.Dispatch | src/js/script.js:311-413 | each handler keeps the invariant and moves to the mode `After` gives; each passes on its own effect (the step, the turns, the cursor moves, the cursor reset when the list opens, `Entered` for enter); only enter in the list reports an outcome; no other handler changes money, any price or the connection; only the step moves the player, only the turns change the heading, and only the cursor handlers and opening the list change the cursor |
| WiFiHunt.Drain | src/js/script.js:123-137 | one frame drains 0.3/50 % with the list open and 0.1/50 % otherwise |
| WiFiHunt.Discharged | src/js/script.js:128-142 | the battery after a frame is never negative and never higher; it is unchanged while paused; it drops by one frame's drain when that much is left, and otherwise to 0 |
| WiFiHunt.Battery.Update | src/js/script.js:128-145 | `battery.update` leaves the level at `Discharged` of the old one, keeps it in 0..100, and reports that the battery ran out exactly when it was not paused and held less than one frame's drain |
| WiFiHunt.Battery.constructor | src/js/script.js:120 | the battery starts full |
| WiFiHunt.Money.constructor | src/js/script.js:227 | the player starts with 500 |
| WiFiHunt.Transferred | src/js/script.js:256-261 | a goal after a frame is never negative and never grows at a non-negative speed; it is 0 exactly when one frame's transfer covers it |
| WiFiHunt.RemainingGoal.Update | src/js/script.js:254-267 | `remainingGoal.update` moves both goals by `Transferred` only when connected, whether or not the game is paused, and reports that both goals are met exactly when both are 0 |
| WiFiHunt.RemainingGoal.constructor | src/js/script.js:251-252 | the goals start at 2048 and 1024 MiB |
| WiFiHunt.Game.Update | src/js/script.js:26-35 | one frame keeps the invariant. The battery and goals follow the two sprite updates. The game is lost when the battery runs out and won when both goals are met, and either stops the loop. The connection is kept only while still in range, so afterwards it is null or in range |
| WiFiHunt.Game.Play | src/js/script.js:21-102 | any sequence of key presses and frames (frames only while the loop runs) keeps the invariant. So at most one overlay is ever open, money never goes negative and never grows, and a stopped loop stays stopped |

## Left out

- Drawing: every `render` body, `drawDialogBox`, `colorInGradient` and
  `toRadians`, the canvas size set in `game()`, and the `debug` logging
  (including the message of `gameOver`).
- The geometry and the network physics. `polarToCartesian`, and the
  `isInRange`/`speedAt` methods of an access point, are parameters.
  Their definitions are not part of this model.
- Floating point. Positions, rates, the battery level and the goals are
  exact reals, so rounding in the `/ fps` divisions is not captured.
- The password hash and the `encryption` label of an access point. The
  hash is a parameter.
- Browser dialogs. `confirm` and `prompt` become the parameters
  `confirmed` and `attempt`, and `alert` has no effect on the state.
  Cancelling the password prompt (`prompt` returning `null`) is not
  modelled: `attempt` is always a string.
- Enter on an empty list throws, because it reads the price of an
  undefined entry. This is modelled as the outcome `NoNetwork` with no
  state changed, since nothing is written before the failing read.
- Scheduling by `kontra.gameLoop`. `Game.Play` takes frames and key
  presses as one ordered sequence, and `loop.stop` is the `running` flag.
  Key handlers stay bound after the loop stops, as in the code.
  `player.update` and `networkIndicator.update` have no effect and are
  not modelled.
- In the code, the battery update stops the loop before the goals are
  updated in the same frame. The model clears `running` after both
  updates, which gives the same state, and reports `lost` and `won`
  separately, so both can hold in one frame.
- `gulpfile.js`, which is build tooling.
- WiFiHunt.Game.Pause, WiFiHunt.Game.UnPause, WiFiHunt.Game.ShowNetworkList, WiFiHunt.Game.HideNetworkList, WiFiHunt.Game.ShowHelp, WiFiHunt.Game.HideHelp: each states the key table it leaves only when called from the table of the mode the game calls it in. For any other starting table, the `bind`/`unbind` sequence is visible in the body but not stated as a contract.
- WiFiHunt.Game.MoveForward: requires the network list to be closed. Its keys are only live then, and a step with the list open could move the cursor out of range.
