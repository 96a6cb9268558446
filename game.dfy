/** The state of one game, from page load on, and the rules that change it:
    the key handlers, the overlays, buying access to a network, and the
    per-frame update of the battery, the goals and the connection. */
module WiFiHunt {
  import opened Options
  import opened Keyboard
  import opened Heading
  import opened AccessPoints
  import opened Overlays

  /** Frames per second of the game loop. */
  const Fps: real := 50.0
  /** Battery percentage lost per second while the network list is open. */
  const ActiveDrain: real := 0.3
  /** Battery percentage lost per second otherwise. */
  const IdleDrain: real := 0.1

  const StartingHeading: int := 90
  const StartingMoney: int := 500
  const FullBattery: real := 100.0
  /** The amounts, in MiB, the player has to download and upload to win. */
  const DownloadGoal: real := 2048.0
  const UploadGoal: real := 1024.0

  // ---------------------------------------------------------------------
  // The meters

  /** Battery lost in one frame that is not paused. */
  function Drain(listOpen: bool): (r: real)
    ensures 0.0 < r < FullBattery
    ensures listOpen ==> r == ActiveDrain / Fps
    ensures !listOpen ==> r == IdleDrain / Fps
  {
    (if listOpen then ActiveDrain else IdleDrain) / Fps
  }

  /** The battery level after one frame: drained unless paused, and never
      below zero. */
  function Discharged(level: real, paused: bool, listOpen: bool): (r: real)
    ensures r >= 0.0
    ensures level >= 0.0 ==> r <= level
    ensures paused && level >= 0.0 ==> r == level
    ensures !paused && level >= Drain(listOpen) ==> r == level - Drain(listOpen)
    ensures !paused && level < Drain(listOpen) ==> r == 0.0
  {
    var left := if paused then level else level - Drain(listOpen);
    if left < 0.0 then 0.0 else left
  }

  /** A goal after one frame's transfer at `speed` MiB per second, floored
      at zero; it only reaches zero once the transfer covers it. */
  function Transferred(remaining: real, speed: real): (r: real)
    ensures r >= 0.0
    ensures r == 0.0 <==> remaining <= speed / Fps
    ensures r > 0.0 ==> r == remaining - speed / Fps
    ensures speed >= 0.0 && remaining >= 0.0 ==> r <= remaining
  {
    var left := remaining - speed / Fps;
    if left < 0.0 then 0.0 else left
  }

  /** The battery sprite. */
  class Battery {
    var level: real

    constructor ()
      ensures level == FullBattery
    {
      level := FullBattery;
    }

    /** `battery.update`: one frame's drain, at the active rate while the
        network list is open, skipped while paused. `flat` says the battery
        ran out, which the game answers by ending the game as lost. */
    method Update(isPaused: bool, isNetworkListOpen: bool) returns (flat: bool)
      requires 0.0 <= level <= FullBattery
      modifies this
      ensures 0.0 <= level <= FullBattery
      ensures level == Discharged(old(level), isPaused, isNetworkListOpen)
      ensures flat <==> !isPaused && old(level) < Drain(isNetworkListOpen)
    {
      if !isPaused {
        level := level - Drain(isNetworkListOpen);
      }
      flat := level < 0.0;
      if flat {
        level := 0.0;
      }
    }
  }

  /** The money sprite: what the player has left to spend. */
  class Money {
    var remaining: int

    constructor ()
      ensures remaining == StartingMoney
    {
      remaining := StartingMoney;
    }
  }

  /** The remaining-goal sprite: what is left to download and to upload. */
  class RemainingGoal {
    var download: real
    var upload: real

    constructor ()
      ensures download == DownloadGoal && upload == UploadGoal
    {
      download, upload := DownloadGoal, UploadGoal;
    }

    /** `remainingGoal.update`: transfer one frame's worth over `ap`, if
        connected, at its speeds at `p`; `met` says both goals are now
        zero, which the game answers by ending the game as won. The pause
        flag is not consulted. */
    method Update(ap: AccessPoint?, p: Point) returns (met: bool)
      requires download >= 0.0 && upload >= 0.0
      modifies this
      ensures download >= 0.0 && upload >= 0.0
      ensures download == if ap == null then old(download) else Transferred(old(download), ap.speedAt(p, Download))
      ensures upload == if ap == null then old(upload) else Transferred(old(upload), ap.speedAt(p, Upload))
      ensures met <==> download == 0.0 && upload == 0.0
    {
      if ap != null {
        download := download - ap.speedAt(p, Download) / Fps;
        upload := upload - ap.speedAt(p, Upload) / Fps;
      }
      if download < 0.0 {
        download := 0.0;
      }
      if upload < 0.0 {
        upload := 0.0;
      }
      met := download == 0.0 && upload == 0.0;
    }
  }

  // ---------------------------------------------------------------------
  // Joining a network

  /** How a press of enter in the network list ended. */
  datatype Selection =
    | NoNetwork      // the list is empty: reading the selected entry fails
    | Declined       // the player did not agree to pay
    | CannotAfford   // the player agreed but has too little money
    | WrongPassword  // the typed password does not hash to the stored one
    | Joined         // the player is now connected to the selected network

  /** Whether a network asks to be paid before it can be used. */
  predicate HasPrice(cost: Option<int>) {
    cost.Some? && cost.value > 0
  }

  /** Whether the player, holding `money` and answering `confirmed` to the
      offer, pays for a network priced `cost`. */
  predicate Pays(cost: Option<int>, money: int, confirmed: bool) {
    HasPrice(cost) && confirmed && money >= cost.value
  }

  /** Whether the typed `attempt` opens a network whose stored hash is
      `password`; an open network needs none. */
  predicate Opens(password: Option<string>, hash: string -> string, attempt: string) {
    password.None? || hash(attempt) == password.value
  }

  /** The outcome of pressing enter on a network priced `cost`: the offer
      to pay comes first, then the password. */
  function Outcome(cost: Option<int>, money: int, confirmed: bool, opens: bool): (r: Selection)
    ensures r != NoNetwork
    ensures r == Declined <==> HasPrice(cost) && !confirmed
    ensures r == CannotAfford <==> HasPrice(cost) && confirmed && money < cost.value
    ensures r == WrongPassword <==> (!HasPrice(cost) || Pays(cost, money, confirmed)) && !opens
    ensures r == Joined <==> (!HasPrice(cost) || Pays(cost, money, confirmed)) && opens
  {
    if HasPrice(cost) && !confirmed then Declined
    else if HasPrice(cost) && money < cost.value then CannotAfford
    else if !opens then WrongPassword
    else Joined
  }

  /** The player's money after the offer to pay. */
  function MoneyAfter(cost: Option<int>, money: int, confirmed: bool): (r: int)
    ensures money >= 0 ==> 0 <= r
    ensures r <= money
    ensures r < money <==> Pays(cost, money, confirmed)
    ensures Pays(cost, money, confirmed) ==> r == money - cost.value
  {
    if Pays(cost, money, confirmed) then money - cost.value else money
  }

  /** The network's price after the offer to pay: free once paid for. */
  function CostAfter(cost: Option<int>, money: int, confirmed: bool): (r: Option<int>)
    ensures Pays(cost, money, confirmed) ==> r == Some(0)
    ensures !Pays(cost, money, confirmed) ==> r == cost
    ensures !HasPrice(r) <==> !HasPrice(cost) || Pays(cost, money, confirmed)
  {
    if Pays(cost, money, confirmed) then Some(0) else cost
  }

  /** A network is paid for at most once: after a purchase, pressing enter
      on it again charges nothing and asks only for the password. */
  lemma PaidOnce(cost: Option<int>, money: int, confirmed: bool, confirmed': bool, opens: bool)
    requires Pays(cost, money, confirmed)
    ensures var cost', money' := CostAfter(cost, money, confirmed), MoneyAfter(cost, money, confirmed);
            && MoneyAfter(cost', money', confirmed') == money'
            && CostAfter(cost', money', confirmed') == cost'
            && Outcome(cost', money', confirmed', opens) == (if opens then Joined else WrongPassword)
  {
    assert CostAfter(cost, money, confirmed) == Some(0);
  }

  /** Money only ever goes down, and by exactly the price of a network that
      the player is then admitted to. */
  lemma PaymentAdmits(cost: Option<int>, money: int, confirmed: bool, opens: bool)
    requires MoneyAfter(cost, money, confirmed) < money
    ensures Outcome(cost, money, confirmed, opens) in {WrongPassword, Joined}
    ensures money - MoneyAfter(cost, money, confirmed) == cost.value
  {
    assert Pays(cost, money, confirmed);
  }

  // ---------------------------------------------------------------------
  // The game

  /** What reaches the game after load: a key press, with the answers the
      enter handler may ask for, or a frame of the game loop. */
  datatype Event =
    | KeyDown(key: Key, confirmed: bool, attempt: string)
    | Frame

  class Game {
    /** Every access point of the world, in the order they are listed. */
    const accessPoints: seq<AccessPoint>
    /** The hash that typed passwords are compared under. */
    const hash: string -> string
    /** The offset of one step of the given length along the given heading. */
    const polarToCartesian: (int, real) -> Point

    const keys: Keys
    const battery: Battery
    const money: Money
    const remainingGoal: RemainingGoal

    /** The angle of rotation, in degrees. */
    var heading: int
    var position: Point
    var isPaused: bool
    var isNetworkListOpen: bool
    var isHelpOpen: bool
    /** The highlighted entry of the network list while it is open. */
    var cursor: int
    var currentAP: AccessPoint?
    /** True while the game loop runs. */
    var running: bool

    function CurrentMode(): Mode
      reads this
    {
      if isPaused then Paused
      else if isNetworkListOpen then NetworkList
      else if isHelpOpen then Help
      else Running
    }

    /** The networks in range of the player, as the list shows them. */
    function Available(): seq<AccessPoint>
      reads this
    {
      GetAccessPoints(accessPoints, position)
    }

    /** Everything the game keeps true apart from the key table: the heading
        is a whole degree, money and the meters stay in range, at most one
        overlay is open, the cursor points into the list (or at 0 when it
        is empty) and the player is only ever connected to a known access
        point. */
    ghost predicate Consistent()
      reads this, battery, money, remainingGoal
    {
      && IsHeading(heading)
      && money.remaining >= 0
      && 0.0 <= battery.level <= FullBattery
      && remainingGoal.download >= 0.0 && remainingGoal.upload >= 0.0
      && !(isPaused && isNetworkListOpen)
      && !(isPaused && isHelpOpen)
      && !(isNetworkListOpen && isHelpOpen)
      && (isNetworkListOpen ==> 0 <= cursor && (cursor == 0 || cursor < |Available()|))
      && (currentAP != null ==> currentAP in accessPoints)
    }

    /** The game's invariant: consistent, and the live keys are exactly
        those of the open overlay. */
    ghost predicate Valid()
      reads this, keys, battery, money, remainingGoal
    {
      Consistent() && keys.bindings == Bindings(CurrentMode())
    }

    /** Page load: the initial values, with no key bound yet and the loop
        not yet started. */
    constructor (accessPoints: seq<AccessPoint>, hash: string -> string, polarToCartesian: (int, real) -> Point)
      ensures Consistent() && CurrentMode() == Running && !running
      ensures this.accessPoints == accessPoints && this.hash == hash
      ensures this.polarToCartesian == polarToCartesian
      ensures fresh(keys) && fresh(battery) && fresh(money) && fresh(remainingGoal)
      ensures keys.bindings == map[]
      ensures heading == StartingHeading && position == Point(0.0, 0.0) && currentAP == null
      ensures money.remaining == StartingMoney && battery.level == FullBattery
      ensures remainingGoal.download == DownloadGoal && remainingGoal.upload == UploadGoal
    {
      this.accessPoints := accessPoints;
      this.hash := hash;
      this.polarToCartesian := polarToCartesian;
      keys := new Keys();
      battery := new Battery();
      money := new Money();
      remainingGoal := new RemainingGoal();
      heading := StartingHeading;
      position := Point(0.0, 0.0);
      isPaused, isNetworkListOpen, isHelpOpen := false, false, false;
      cursor := 0;
      currentAP := null;
      running := false;
    }

    /** `game()`: bind the movement keys and the three toggles, then start
        the loop. */
    method Start()
      requires Consistent() && CurrentMode() == Running && keys.bindings == map[]
      modifies keys, this`running
      ensures Valid() && running
    {
      BindMovementKeys();
      keys.Bind({P}, Handler.TogglePause);
      keys.Bind({N}, Handler.ToggleNetworkList);
      keys.Bind({H}, Handler.ToggleHelp);
      StartupBindings();
      running := true;
    }

    // navigation

    /** `moveForward`: one step of length 1 along the heading. Its keys are
        only live while the network list is closed. */
    method MoveForward()
      requires Valid() && !isNetworkListOpen
      modifies this`position
      ensures Valid()
      ensures position == Point(old(position).x + polarToCartesian(heading, 1.0).x,
                                old(position).y + polarToCartesian(heading, 1.0).y)
    {
      var step := polarToCartesian(heading, 1.0);
      position := Point(position.x + step.x, position.y + step.y);
    }

    /** `turnLeft`: one degree anticlockwise, wrapping 359 to 0. */
    method TurnLeft()
      requires Valid()
      modifies this`heading
      ensures Valid()
      ensures heading == LeftOf(old(heading))
    {
      heading := heading + 1;
      if heading >= FullTurn {
        heading := 0;
      }
    }

    /** `turnRight`: one degree clockwise, wrapping 0 to 359. */
    method TurnRight()
      requires Valid()
      modifies this`heading
      ensures Valid()
      ensures heading == RightOf(old(heading))
    {
      heading := heading - 1;
      if heading < 0 {
        heading := FullTurn - 1;
      }
    }

    // the overlays: opening and closing one, as the game writes them

    /** `bindMovementKeys`. */
    method BindMovementKeys()
      modifies keys
      ensures keys.bindings == MovementBound(old(keys.bindings))
    {
      keys.Bind({Up, W}, Handler.MoveForward);
      keys.Bind({Left, A}, Handler.TurnLeft);
      keys.Bind({Right, D}, Handler.TurnRight);
    }

    /** `pause`: from the running table only p stays live. */
    method Pause()
      modifies this`isPaused, keys
      ensures isPaused
      ensures old(keys.bindings) == Bindings(Running) ==> keys.bindings == Bindings(Paused)
    {
      isPaused := true;
      keys.Unbind(MovementKeys + {N, H});
      PauseBindings();
    }

    /** `unPause`: from the paused table the running table comes back. */
    method UnPause()
      modifies this`isPaused, keys
      ensures !isPaused
      ensures old(keys.bindings) == Bindings(Paused) ==> keys.bindings == Bindings(Running)
    {
      isPaused := false;
      BindMovementKeys();
      keys.Bind({N}, Handler.ToggleNetworkList);
      keys.Bind({H}, Handler.ToggleHelp);
      UnPauseBindings();
    }

    /** `showNetworkList`: opens the list with the cursor on its first
        entry; from the running table, up now moves the cursor instead of
        the player. */
    method ShowNetworkList()
      modifies this`isNetworkListOpen, this`cursor, keys
      ensures isNetworkListOpen && cursor == 0
      ensures old(keys.bindings) == Bindings(Running) ==> keys.bindings == Bindings(NetworkList)
    {
      isNetworkListOpen := true;
      keys.Unbind(MovementKeys + {P, H});
      cursor := 0;
      keys.Bind({Down}, Handler.CursorDown);
      keys.Bind({Up}, Handler.CursorUp);
      keys.Bind({Enter}, Handler.Select);
      ShowNetworkListBindings();
    }

    /** `hideNetworkList`: from the network-list table the running table
        comes back. */
    method HideNetworkList()
      modifies this`isNetworkListOpen, keys
      ensures !isNetworkListOpen
      ensures old(keys.bindings) == Bindings(NetworkList) ==> keys.bindings == Bindings(Running)
    {
      isNetworkListOpen := false;
      keys.Unbind({Down, Up, Enter});
      BindMovementKeys();
      keys.Bind({P}, Handler.TogglePause);
      keys.Bind({H}, Handler.ToggleHelp);
      HideNetworkListBindings();
    }

    /** `showHelp`: from the running table only h stays live. */
    method ShowHelp()
      modifies this`isHelpOpen, keys
      ensures isHelpOpen
      ensures old(keys.bindings) == Bindings(Running) ==> keys.bindings == Bindings(Help)
    {
      isHelpOpen := true;
      keys.Unbind(MovementKeys + {N, P});
      ShowHelpBindings();
    }

    /** `hideHelp`: the movement keys are bound twice over; from the help
        table the running table comes back. */
    method HideHelp()
      modifies this`isHelpOpen, keys
      ensures !isHelpOpen
      ensures old(keys.bindings) == Bindings(Help) ==> keys.bindings == Bindings(Running)
    {
      isHelpOpen := false;
      BindMovementKeys();
      BindMovementKeys();
      keys.Bind({N}, Handler.ToggleNetworkList);
      keys.Bind({P}, Handler.TogglePause);
      HideHelpBindings();
    }

    // the toggle handlers, live only where their key is bound

    method TogglePause()
      requires Valid() && (CurrentMode() == Running || CurrentMode() == Paused)
      modifies this`isPaused, keys
      ensures Valid()
      ensures CurrentMode() == if old(CurrentMode()) == Paused then Running else Paused
    {
      if !isPaused {
        Pause();
      } else {
        UnPause();
      }
    }

    method ToggleNetworkList()
      requires Valid() && (CurrentMode() == Running || CurrentMode() == NetworkList)
      modifies this`isNetworkListOpen, this`cursor, keys
      ensures Valid()
      ensures CurrentMode() == if old(CurrentMode()) == NetworkList then Running else NetworkList
      ensures old(CurrentMode()) == Running ==> cursor == 0
      ensures old(CurrentMode()) == NetworkList ==> cursor == old(cursor)
    {
      if !isNetworkListOpen {
        ShowNetworkList();
      } else {
        HideNetworkList();
      }
    }

    method ToggleHelp()
      requires Valid() && (CurrentMode() == Running || CurrentMode() == Help)
      modifies this`isHelpOpen, keys
      ensures Valid()
      ensures CurrentMode() == if old(CurrentMode()) == Help then Running else Help
    {
      if !isHelpOpen {
        ShowHelp();
      } else {
        HideHelp();
      }
    }

    // the network list's own handlers

    /** Moves the cursor one entry down, stopping at the last entry. */
    method CursorDown()
      requires Valid() && CurrentMode() == NetworkList
      modifies this`cursor
      ensures Valid()
      ensures Available() != [] ==> cursor == if old(cursor) < |Available()| - 1 then old(cursor) + 1 else |Available()| - 1
      ensures Available() == [] ==> cursor == 0
    {
      if cursor < |GetAccessPoints(accessPoints, position)| - 1 {
        cursor := cursor + 1;
      }
    }

    /** Moves the cursor one entry up, stopping at the first entry. */
    method CursorUp()
      requires Valid() && CurrentMode() == NetworkList
      modifies this`cursor
      ensures Valid()
      ensures cursor == if old(cursor) > 0 then old(cursor) - 1 else 0
    {
      if cursor > 0 {
        cursor := cursor - 1;
      }
    }

    /** The offer to pay for `selected`, if it has a price: with the
        player's consent and enough money, the price is paid and the network
        becomes free. `r` is `Joined` when the player may go on to the
        password, and otherwise says why not. */
    method Purchase(selected: AccessPoint, confirmed: bool) returns (r: Selection)
      modifies money, selected
      ensures r == Outcome(old(selected.cost), old(money.remaining), confirmed, true)
      ensures money.remaining == MoneyAfter(old(selected.cost), old(money.remaining), confirmed)
      ensures selected.cost == CostAfter(old(selected.cost), old(money.remaining), confirmed)
    {
      r := Joined;
      if selected.cost.Some? && selected.cost.value > 0 {
        if confirmed {
          if money.remaining >= selected.cost.value {
            money.remaining := money.remaining - selected.cost.value;
            selected.cost := Some(0);
          } else {
            r := CannotAfford;
          }
        } else {
          r := Declined;
        }
      }
    }

    /** What the enter handler did between the state before it and now,
        having answered `r`: with no network in the list, nothing; otherwise
        the highlighted network is paid for, if the player consents and can
        afford it, and joined, if the typed password opens it; the list
        closes exactly when the player joins. No other network's price
        changes, and the player's position and heading and the cursor stay
        where they were, so the network joined is the one highlighted
        before the key press. */
    twostate predicate Entered(r: Selection, confirmed: bool, attempt: string)
      reads this, keys, money, accessPoints
    {
      && position == old(position) && heading == old(heading) && cursor == old(cursor)
      && (r == NoNetwork <==> Available() == [])
      && (Available() == [] ==>
            money.remaining == old(money.remaining) && currentAP == old(currentAP)
            && CurrentMode() == old(CurrentMode()) && keys.bindings == old(keys.bindings))
      && (Available() != [] ==>
            0 <= cursor < |Available()| &&
            var s := Available()[cursor];
            && r == Outcome(old(s.cost), old(money.remaining), confirmed, Opens(s.password, hash, attempt))
            && money.remaining == MoneyAfter(old(s.cost), old(money.remaining), confirmed)
            && s.cost == CostAfter(old(s.cost), old(money.remaining), confirmed)
            && if r == Joined then currentAP == s && CurrentMode() == Running
               else currentAP == old(currentAP) && CurrentMode() == old(CurrentMode())
                    && keys.bindings == old(keys.bindings))
      && (forall i :: 0 <= i < |accessPoints| && (Available() == [] || accessPoints[i] != Available()[cursor]) ==>
            accessPoints[i].cost == old(accessPoints[i].cost))
    }

    /** The enter handler: pay for the highlighted network if it has a
        price, check the password if it has one, then connect and close the
        list. `confirmed` is the player's answer to the offer to pay and
        `attempt` the password they type. */
    method Select(confirmed: bool, attempt: string) returns (r: Selection)
      requires Valid() && CurrentMode() == NetworkList
      modifies money, accessPoints, this`currentAP, this`isNetworkListOpen, keys
      ensures Valid()
      ensures Entered(r, confirmed, attempt)
    {
      var available := GetAccessPoints(accessPoints, position);
      if cursor >= |available| {
        // `available[cursor]` is undefined: reading its cost throws
        return NoNetwork;
      }
      var selected := available[cursor];
      r := Purchase(selected, confirmed);
      if r != Joined {
        return;
      }
      if selected.password.Some? {
        if hash(attempt) != selected.password.value {
          return WrongPassword;
        }
      }
      Join(selected);
    }

    /** The end of the enter handler once the player is admitted: connect to
        `selected` and close the list. */
    method Join(selected: AccessPoint)
      requires Valid() && CurrentMode() == NetworkList && selected in accessPoints
      modifies this`currentAP, this`isNetworkListOpen, keys
      ensures Valid() && CurrentMode() == Running && currentAP == selected
    {
      currentAP := selected;
      HideNetworkList();
    }

    /** A key press: runs the handler the key is bound to, if any. `confirmed`
        and `attempt` answer the questions the enter handler may ask. */
    method Press(k: Key, confirmed: bool, attempt: string) returns (outcome: Option<Selection>)
      requires Valid()
      modifies this`heading, this`position, this`isPaused, this`isNetworkListOpen, this`isHelpOpen
      modifies this`cursor, this`currentAP, keys, money, accessPoints
      ensures Valid()
      ensures outcome.Some? <==> old(CurrentMode()) == NetworkList && k == Enter
      ensures CurrentMode() == NextMode(old(CurrentMode()), k, outcome == Some(Joined))
      ensures k !in old(keys.bindings) ==> unchanged(this, keys, money) && unchanged(accessPoints)
      ensures money.remaining <= old(money.remaining)
      ensures !(old(CurrentMode()) == NetworkList && k == Enter) ==>
                money.remaining == old(money.remaining) && unchanged(accessPoints)
      ensures old(CurrentMode()) == Running && k in {Up, W} ==>
                position == Point(old(position).x + polarToCartesian(old(heading), 1.0).x,
                                  old(position).y + polarToCartesian(old(heading), 1.0).y)
      ensures old(CurrentMode()) == Running && k in {Left, A} ==> heading == LeftOf(old(heading))
      ensures old(CurrentMode()) == Running && k in {Right, D} ==> heading == RightOf(old(heading))
      ensures old(CurrentMode()) == Running && k == N ==> cursor == 0
      ensures old(CurrentMode()) == NetworkList && k == Down ==>
                (Available() != [] ==> cursor == if old(cursor) < |Available()| - 1 then old(cursor) + 1 else |Available()| - 1)
                && (Available() == [] ==> cursor == 0)
      ensures old(CurrentMode()) == NetworkList && k == Up ==> cursor == if old(cursor) > 0 then old(cursor) - 1 else 0
      ensures old(CurrentMode()) == NetworkList && k == Enter ==> Entered(outcome.value, confirmed, attempt)
      ensures !(old(CurrentMode()) == Running && k in {Up, W}) ==> position == old(position)
      ensures !(old(CurrentMode()) == Running && k in {Left, A, Right, D}) ==> heading == old(heading)
      ensures !(old(CurrentMode()) == NetworkList && k == Enter) ==> currentAP == old(currentAP)
      ensures !(old(CurrentMode()) == NetworkList && k in {Down, Up}) && !(old(CurrentMode()) == Running && k == N) ==>
                cursor == old(cursor)
    {
      outcome := None;
      if k !in keys.bindings {
        return;
      }
      LiveHandler(CurrentMode(), k, false);
      LiveHandler(CurrentMode(), k, true);
      outcome := Dispatch(keys.bindings[k], confirmed, attempt);
    }

    /** Runs handler `h`, which is live in the current mode. */
    method Dispatch(h: Handler, confirmed: bool, attempt: string) returns (outcome: Option<Selection>)
      requires Valid() && h in Bindings(CurrentMode()).Values
      requires h in {Handler.MoveForward, Handler.TurnLeft, Handler.TurnRight} ==> CurrentMode() == Running
      requires h in {Handler.CursorDown, Handler.CursorUp, Handler.Select} ==> CurrentMode() == NetworkList
      modifies this`heading, this`position, this`isPaused, this`isNetworkListOpen, this`isHelpOpen
      modifies this`cursor, this`currentAP, keys, money, accessPoints
      ensures Valid()
      ensures outcome.Some? <==> h == Handler.Select
      ensures CurrentMode() == After(old(CurrentMode()), h, outcome == Some(Joined))
      ensures money.remaining <= old(money.remaining)
      ensures h != Handler.Select ==> money.remaining == old(money.remaining) && unchanged(accessPoints)
      ensures h == Handler.MoveForward ==>
                position == Point(old(position).x + polarToCartesian(old(heading), 1.0).x,
                                  old(position).y + polarToCartesian(old(heading), 1.0).y)
      ensures h == Handler.TurnLeft ==> heading == LeftOf(old(heading))
      ensures h == Handler.TurnRight ==> heading == RightOf(old(heading))
      ensures h == Handler.ToggleNetworkList && old(CurrentMode()) == Running ==> cursor == 0
      ensures h == Handler.CursorDown ==>
                (Available() != [] ==> cursor == if old(cursor) < |Available()| - 1 then old(cursor) + 1 else |Available()| - 1)
                && (Available() == [] ==> cursor == 0)
      ensures h == Handler.CursorUp ==> cursor == if old(cursor) > 0 then old(cursor) - 1 else 0
      ensures h == Handler.Select ==> Entered(outcome.value, confirmed, attempt)
      ensures h != Handler.MoveForward ==> position == old(position)
      ensures h !in {Handler.TurnLeft, Handler.TurnRight} ==> heading == old(heading)
      ensures h != Handler.Select ==> currentAP == old(currentAP)
      ensures h !in {Handler.CursorDown, Handler.CursorUp} && !(h == Handler.ToggleNetworkList && old(CurrentMode()) == Running) ==>
                cursor == old(cursor)
    {
      outcome := None;
      match h
      case MoveForward => MoveForward();
      case TurnLeft => TurnLeft();
      case TurnRight => TurnRight();
      case TogglePause => TogglePause();
      case ToggleNetworkList => ToggleNetworkList();
      case ToggleHelp => ToggleHelp();
      case CursorDown => CursorDown();
      case CursorUp => CursorUp();
      case Select =>
        var r := Select(confirmed, attempt);
        outcome := Some(r);
    }

    /** One frame of the game loop: drain the battery unless paused,
        transfer data over the current connection (paused or not), stop the
        loop when the battery runs out (`lost`) or both goals are met
        (`won`), and drop the connection once the player is out of its
        range. */
    method Update() returns (lost: bool, won: bool)
      requires Valid()
      modifies battery, remainingGoal, this`currentAP, this`running
      ensures Valid()
      ensures battery.level == Discharged(old(battery.level), isPaused, isNetworkListOpen)
      ensures lost <==> !isPaused && old(battery.level) < Drain(isNetworkListOpen)
      ensures old(currentAP) == null ==>
                remainingGoal.download == old(remainingGoal.download) && remainingGoal.upload == old(remainingGoal.upload)
      ensures old(currentAP) != null ==>
                remainingGoal.download == Transferred(old(remainingGoal.download), old(currentAP).speedAt(position, Download)) &&
                remainingGoal.upload == Transferred(old(remainingGoal.upload), old(currentAP).speedAt(position, Upload))
      ensures won <==> remainingGoal.download == 0.0 && remainingGoal.upload == 0.0
      ensures running <==> old(running) && !lost && !won
      ensures currentAP == if old(currentAP) != null && old(currentAP).isInRange(position) then old(currentAP) else null
      ensures currentAP == null || currentAP.isInRange(position)
    {
      lost := battery.Update(isPaused, isNetworkListOpen);
      won := remainingGoal.Update(currentAP, position);
      // either ending stops the loop
      running := running && !lost && !won;
      if currentAP != null && !currentAP.isInRange(position) {
        currentAP := null;
      }
    }

    /** The page after load: key presses and frames of the game loop in the
        given order, frames only while the loop runs. Every state on the way
        keeps the invariant, so at most one overlay is ever open, money
        never goes negative and only goes down, and the meters stay in
        range. */
    method Play(events: seq<Event>)
      requires Valid()
      modifies this, keys, money, battery, remainingGoal, accessPoints
      ensures Valid()
      ensures money.remaining <= old(money.remaining)
      ensures !old(running) ==> !running
    {
      for i := 0 to |events|
        invariant Valid()
        invariant money.remaining <= old(money.remaining)
        invariant !old(running) ==> !running
      {
        match events[i]
        case KeyDown(k, confirmed, attempt) =>
          var _ := Press(k, confirmed, attempt);
        case Frame =>
          if running {
            var _, _ := Update();
          }
      }
    }
  }
}
