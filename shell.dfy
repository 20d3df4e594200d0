/**
 * The game shell: event polling and the navigation between the main menu, the game screen,
 * the camera view and the image view.
 */
module Shell {
  import opened Widgets

  const WindowWidth := 900
  const WindowHeight := 473
  /** pygame's key code for `q` and its number for the left mouse button. */
  const KeyQ := 113
  const LeftButton := 1
  const MenuFadeDuration := 700

  /** The pygame events the shell reacts to; every other event is `OtherEvent`. */
  datatype Event = QuitEvent | MouseButtonDown(button: int) | KeyDown(key: int) | OtherEvent

  /**
   * The event loop at the top of each menu tick: a quit event ends the program on the spot,
   * a left-button press sets `is_clicked`.
   */
  method PollEvents(events: seq<Event>) returns (quit: bool, isClicked: bool)
    ensures quit <==> QuitEvent in events
    ensures !quit ==> (isClicked <==> MouseButtonDown(LeftButton) in events)
  {
    quit, isClicked := false, false;
    var i := 0;
    while i < |events|
      invariant 0 <= i <= |events|
      invariant QuitEvent !in events[..i]
      invariant isClicked <==> MouseButtonDown(LeftButton) in events[..i]
    {
      assert events[..i + 1] == events[..i] + [events[i]];
      if events[i] == QuitEvent {
        quit := true;
        return;
      } else if events[i] == MouseButtonDown(LeftButton) {
        isClicked := true;
      }
      i := i + 1;
    }
    assert events[..i] == events;
  }

  /** What the camera loop does after one poll of events. */
  datatype CameraSignal = KeepRunning | Dismiss | Terminate

  /** Events the camera loop acts on: quit, and the `q` key. */
  predicate Decisive(e: Event)
  {
    e == QuitEvent || e == KeyDown(KeyQ)
  }

  /** The reaction to the first decisive event, if any. */
  function CameraSignalOf(events: seq<Event>): (signal: CameraSignal)
    ensures signal == KeepRunning ==> QuitEvent !in events && KeyDown(KeyQ) !in events
    ensures signal == Terminate ==> QuitEvent in events
    ensures signal == Dismiss ==> KeyDown(KeyQ) in events
  {
    if events == [] then KeepRunning
    else if events[0] == QuitEvent then Terminate
    else if events[0] == KeyDown(KeyQ) then Dismiss
    else CameraSignalOf(events[1..])
  }

  /** The first decisive event decides; events after it are never looked at. */
  lemma {:induction false} CameraSignalIsFirstDecisive(events: seq<Event>)
    ensures CameraSignalOf(events) == KeepRunning <==> forall i :: 0 <= i < |events| ==> !Decisive(events[i])
    ensures CameraSignalOf(events) != KeepRunning ==>
      exists i :: 0 <= i < |events| && Decisive(events[i]) &&
        (forall j :: 0 <= j < i ==> !Decisive(events[j])) &&
        CameraSignalOf(events) == (if events[i] == QuitEvent then Terminate else Dismiss)
  {
    if events != [] && !Decisive(events[0]) {
      var rest := events[1..];
      CameraSignalIsFirstDecisive(rest);
      assert forall i :: 0 < i < |events| ==> events[i] == rest[i - 1];
      if CameraSignalOf(rest) != KeepRunning {
        var i :| 0 <= i < |rest| && Decisive(rest[i]) &&
          (forall j :: 0 <= j < i ==> !Decisive(rest[j])) &&
          CameraSignalOf(rest) == (if rest[i] == QuitEvent then Terminate else Dismiss);
        assert Decisive(events[i + 1]);
      }
    } else if events != [] {
      assert Decisive(events[0]);
    }
  }

  /** The event loop inside `capture_video`: quit exits, `q` releases the camera and returns. */
  method CameraEvents(events: seq<Event>) returns (signal: CameraSignal)
    ensures signal == CameraSignalOf(events)
  {
    signal := KeepRunning;
    var i := 0;
    while i < |events|
      invariant 0 <= i <= |events|
      invariant CameraSignalOf(events) == CameraSignalOf(events[i..])
    {
      if events[i] == QuitEvent {
        return Terminate;
      } else if events[i] == KeyDown(KeyQ) {
        return Dismiss;
      }
      assert events[i..][1..] == events[i + 1..];
      i := i + 1;
    }
  }

  /** The navigation states; `Exited` stands for the process having ended. */
  datatype State = MainMenu | GameScreen | CameraView | ImageView | Exited

  /** What a transition does on the way: fades of the menu background, releasing the camera. */
  datatype Effect = Fade(direction: string, duration: int) | ReleaseCamera

  datatype Transition = Transition(next: State, effects: seq<Effect>)

  /**
   * What one tick sees: the pointer, the queued events, whether the camera produced a frame,
   * and the path picked in the file dialog ("" when it was cancelled).
   */
  datatype Input = Input(mouse: Point, events: seq<Event>, frameRead: bool, chosenPath: string)

  function MainMenuButtons(): seq<Button>
  {
    [Button("Start Game", Point(WindowWidth / 2, WindowHeight / 2 - 50)),
     Button("Quit", Point(WindowWidth / 2, WindowHeight / 2 + 50))]
  }

  function GameScreenButtons(): seq<Button>
  {
    [Button("Camera", Point(WindowWidth / 2, WindowHeight / 2 - 70)),
     Button("Image", Point(WindowWidth / 2, WindowHeight / 2)),
     Button("Back", Point(WindowWidth / 2, WindowHeight / 2 + 70))]
  }

  /** The fades around switching between the main menu and the game screen. */
  function SwitchFades(): seq<Effect>
  {
    [Fade("out", MenuFadeDuration), Fade("in", MenuFadeDuration)]
  }

  /** One tick of the shell in state `s`; the first activated button (declaration order) wins. */
  function Step(s: State, input: Input): (t: Transition)
    ensures s == Exited ==> t == Transition(Exited, [])
    ensures QuitEvent in input.events && (s == MainMenu || s == GameScreen) ==> t == Transition(Exited, [])
    ensures ReleaseCamera in t.effects ==> s == CameraView && t.next == GameScreen
    ensures t.effects != [] ==> t.next != s
  {
    var clicked := MouseButtonDown(LeftButton) in input.events;
    match s
    case MainMenu =>
      var hits := Activated(MainMenuButtons(), input.mouse, clicked);
      if QuitEvent in input.events then Transition(Exited, [])
      else if hits == [] then Transition(MainMenu, [])
      else if hits[0] == 0 then Transition(GameScreen, SwitchFades())
      else Transition(Exited, [Fade("out", MenuFadeDuration)])
    case GameScreen =>
      var hits := Activated(GameScreenButtons(), input.mouse, clicked);
      if QuitEvent in input.events then Transition(Exited, [])
      else if hits == [] then Transition(GameScreen, [])
      else if hits[0] == 0 then Transition(CameraView, [])
      else if hits[0] == 1 then Transition(if input.chosenPath == "" then GameScreen else ImageView, [])
      else Transition(MainMenu, SwitchFades())
    case CameraView =>
      if !input.frameRead then Transition(GameScreen, [ReleaseCamera])
      else
        (match CameraSignalOf(input.events)
         case Terminate => Transition(Exited, [])
         case Dismiss => Transition(GameScreen, [ReleaseCamera])
         case KeepRunning => Transition(CameraView, []))
    case ImageView =>
      if exists i :: 0 <= i < |input.events| && input.events[i].KeyDown? then Transition(GameScreen, [])
      else Transition(ImageView, [])
    case Exited => Transition(Exited, [])
  }

  /**
   * The body of the `main_menu` loop: poll, then test Start and Quit in turn. Start hands over
   * to the game screen, which never returns here, so Quit is only tested when Start did not fire.
   */
  method MainMenuTick(input: Input) returns (t: Transition)
    ensures t == Step(MainMenu, input)
  {
    var quit, isClicked := PollEvents(input.events);
    if quit {
      return Transition(Exited, []);
    }
    var buttons := MainMenuButtons();
    FirstActivated(buttons, input.mouse, isClicked);
    if Draw(buttons[0], input.mouse, isClicked).activated {
      return Transition(GameScreen, SwitchFades());
    }
    t := Transition(MainMenu, []);
    if Draw(buttons[1], input.mouse, isClicked).activated {
      t := Transition(Exited, [Fade("out", MenuFadeDuration)]);
    }
  }

  /**
   * The body of the `game_screen` loop: poll, then test Camera, Image and Back in turn, all with
   * the same pointer and click flag.
   */
  method GameScreenTick(input: Input) returns (t: Transition)
    ensures t == Step(GameScreen, input)
  {
    var quit, isClicked := PollEvents(input.events);
    if quit {
      return Transition(Exited, []);
    }
    var buttons := GameScreenButtons();
    t := Transition(GameScreen, []);
    if Draw(buttons[0], input.mouse, isClicked).activated {
      t := Transition(CameraView, []);
    }
    if Draw(buttons[1], input.mouse, isClicked).activated {
      t := Transition(if input.chosenPath == "" then GameScreen else ImageView, []);
    }
    if Draw(buttons[2], input.mouse, isClicked).activated {
      t := Transition(MainMenu, SwitchFades());
    }
    GameScreenTransitions(input);
  }

  /** The layouts on both screens: centres and pairwise disjoint rectangles. */
  lemma ButtonLayoutsDisjoint()
    ensures MainMenuButtons()[0].position == Point(450, 186) && MainMenuButtons()[1].position == Point(450, 286)
    ensures GameScreenButtons()[0].position == Point(450, 166) && GameScreenButtons()[1].position == Point(450, 236)
    ensures GameScreenButtons()[2].position == Point(450, 306)
    ensures PairwiseDisjoint(MainMenuButtons()) && PairwiseDisjoint(GameScreenButtons())
  {
  }

  /** However the pointer and click flag are, at most one button per screen activates in a tick. */
  lemma OneActivationPerTick(mouse: Point, isClicked: bool)
    ensures |Activated(MainMenuButtons(), mouse, isClicked)| <= 1
    ensures |Activated(GameScreenButtons(), mouse, isClicked)| <= 1
  {
    ButtonLayoutsDisjoint();
    AtMostOneActivated(MainMenuButtons(), mouse, isClicked);
    AtMostOneActivated(GameScreenButtons(), mouse, isClicked);
  }

  /**
   * From the main menu a tick either stays, starts the game (with both fades) when Start is
   * clicked, or ends the program on a quit event or a click on Quit.
   */
  lemma MainMenuTransitions(input: Input)
    ensures var t, m := Step(MainMenu, input), input.mouse;
      var clicked := MouseButtonDown(LeftButton) in input.events;
      t.next in {MainMenu, GameScreen, Exited} &&
      (t.next == GameScreen <==> QuitEvent !in input.events && clicked && 350 <= m.x < 550 && 156 <= m.y < 216) &&
      (t.next == Exited <==> QuitEvent in input.events || (clicked && 350 <= m.x < 550 && 256 <= m.y < 316)) &&
      (t.next == MainMenu ==> t.effects == []) &&
      (t.next == GameScreen ==> t.effects == SwitchFades()) &&
      (t.next == Exited ==> t.effects == if QuitEvent in input.events then [] else [Fade("out", MenuFadeDuration)])
  {
    FirstActivated(MainMenuButtons(), input.mouse, MouseButtonDown(LeftButton) in input.events);
  }

  /** No quit event, a left click, and the pointer in the column of the game-screen buttons. */
  predicate GameScreenClick(input: Input)
  {
    QuitEvent !in input.events && MouseButtonDown(LeftButton) in input.events && 350 <= input.mouse.x < 550
  }

  /**
   * From the game screen a tick stays, opens the camera view, opens the image view (unless the
   * dialog was cancelled), goes back to the main menu with both fades, or ends on a quit event.
   */
  lemma GameScreenTransitions(input: Input)
    ensures Step(GameScreen, input).next in {GameScreen, CameraView, ImageView, MainMenu, Exited}
    ensures Step(GameScreen, input).next == CameraView <==> GameScreenClick(input) && 136 <= input.mouse.y < 196
    ensures Step(GameScreen, input).next == ImageView <==>
      GameScreenClick(input) && 206 <= input.mouse.y < 266 && input.chosenPath != ""
    ensures Step(GameScreen, input).next == MainMenu <==> GameScreenClick(input) && 276 <= input.mouse.y < 336
    ensures Step(GameScreen, input).effects == if Step(GameScreen, input).next == MainMenu then SwitchFades() else []
    ensures Step(GameScreen, input).next == Exited <==> QuitEvent in input.events
  {
    var clicked := MouseButtonDown(LeftButton) in input.events;
    var buttons := GameScreenButtons();
    FirstActivated(buttons, input.mouse, clicked);
    var hits := Activated(buttons, input.mouse, clicked);
    ButtonLayoutsDisjoint();
    var m := input.mouse;
    assert Draw(buttons[0], m, clicked).activated <==> clicked && 350 <= m.x < 550 && 136 <= m.y < 196;
    assert Draw(buttons[1], m, clicked).activated <==> clicked && 350 <= m.x < 550 && 206 <= m.y < 266;
    assert Draw(buttons[2], m, clicked).activated <==> clicked && 350 <= m.x < 550 && 276 <= m.y < 336;
  }

  /**
   * The camera view returns to the game screen, releasing the device, when no frame could be
   * read or `q` came first; on a quit event the program ends without releasing it.
   */
  lemma CameraViewTransitions(input: Input)
    ensures var t := Step(CameraView, input);
      t.next in {CameraView, GameScreen, Exited} &&
      (t.next == GameScreen <==> !input.frameRead || CameraSignalOf(input.events) == Dismiss) &&
      (t.next == CameraView ==> t.effects == []) &&
      (t.next == GameScreen ==> t.effects == [ReleaseCamera]) &&
      (t.next == Exited <==> input.frameRead && CameraSignalOf(input.events) == Terminate) &&
      (t.next == Exited ==> ReleaseCamera !in t.effects)
  {
  }

  /**
   * While the annotated image is shown only a key press leaves, back to the game screen; every
   * other event, a quit event included, leaves the view as it is.
   */
  lemma ImageViewTransitions(input: Input)
    ensures Step(ImageView, input).next in {ImageView, GameScreen}
    ensures Step(ImageView, input).effects == []
    ensures Step(ImageView, input).next == GameScreen <==> exists e :: e in input.events && e.KeyDown?
  {
  }
}
