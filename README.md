# UNO card detector and game shell, modelled in Dafny

The program is a small pygame desktop game (`main.py`). An object detector finds UNO cards in a
camera frame or a chosen image. The program labels each detected card from two class-id tables
and draws boxes, captions and a summary list on the frame. Around that sits a menu shell: a main
menu, a game screen, a camera view and an image view. Buttons and fade transitions connect them.

This project models the parts of `main.py` that carry logic:

- `cards.dfy` (module `CardLabels`): the `card_types` and `card_colors` tables and the label
  expression of `detect_cards`, with Python's `and`/`or` on optional strings.
- `annotator.dfy` (module `Annotator`): `detect_cards` after inference. The image is a `Frame`
  object whose drawing is a list of abstract draw commands (`Rectangle`, `Caption`, `Text`).
  The methods append to that list in place, with the source's nested loops and its summary loop.
  Each method is proved against specification functions (`Labels`, `BoxCommands`, `Summary`,
  `AnnotationPlan`). Lemmas give those functions their meaning: which detections are kept, in
  what order, and where each command lands.
- `widgets.dfy` (module `Widgets`): pygame `Rect` centring and its half-open `collidepoint`, and
  `Button.draw` (colour choice, shadow, activation). It also proves that buttons with pairwise
  disjoint rectangles activate at most one per tick.
- `fade.dfy` (module `Fading`): Python's `range` and the loop of `Game.fade`.
- `shell.dfy` (module `Shell`): the event loops (menu polling, the camera loop's `q`/quit
  handling) and the navigation between the screens as a transition function `Step`.
  `MainMenuTick` and `GameScreenTick` follow the source's button tests one by one and are proved
  equal to `Step`.
- `wrappers.dfy`: the `Option` type standing for Python's `None`.

Behaviour of the source worth knowing:

- `card_types` has 15 entries, including `0 -> "+2"`.
- Button hit-testing is half-open (`[cx-100, cx+100) x [cy-30, cy+30)`), as pygame's
  `collidepoint` is.
- A quit event inside the camera loop exits without releasing the capture device. Only the `q`
  key and a failed frame read release it.
- While an uploaded image is shown, the wait loop reacts only to key presses. A quit event there
  is ignored.
- `detect_cards` returns the image, not the label list. The model's `DetectCards` also returns
  the label list, so that properties can be stated about it.
- The click flag is not consumed by the first button: every button of a screen is tested with
  the same flag. The button rectangles are disjoint, so at most one activates
  (`OneActivationPerTick`).
- Fading out shows alphas 0..254 (255 steps, never fully opaque). Fading in shows 255..0
  (256 steps).

## Model

| member | source | states |
|---|---|---|
| CardLabels.CardTypes | main.py:21 | the rank table: ids 0..19 except 1-4 and 15, each with a non-empty name |
| CardLabels.CardColors | main.py:22 | the colour table: ids 1..20 except 3, each with a non-empty name |
| CardLabels.Get | main.py:43-44 | `dict.get`: a value iff the key is present, and then the table's entry |
| CardLabels.ComposeLabel | main.py:47 | the label is truthy iff the colour or the rank is; both truthy gives "colour rank", exactly one gives that one |
| CardLabels.CardLabel | main.py:43-48 | a detection gets a (non-empty) label iff its class id is a key of either table |
| CardLabels.TablesDisjoint | main.py:21-22 | no class id is in both tables |
| CardLabels.CardLabelIsSingleEntry | main.py:43-47 | the label is exactly the one table entry that resolves, so a combined label never occurs |
| CardLabels.DroppedIds | main.py:21-48 | a detection is dropped iff its class id is negative, 3, or above 20 |
| CardLabels.LabelFormats | main.py:21-47 | "Red"+"5" gives "Red 5", colour alone and rank alone give themselves; ids 7, 17, 2 give "2", "Skip", "Blue" |
| Annotator.DetectCards | main.py:29-68 | the frame gains exactly the annotation plan of all boxes and the labels are those of the resolving detections; with no label the frame is unchanged |
| Annotator.DrawBoxes | main.py:35-56 | the nested loops over results and boxes draw the box commands of the flattened detections and collect their labels |
| Annotator.DrawResultBoxes | main.py:36-56 | the inner loop over one result's boxes appends their box commands and labels |
| Annotator.DrawBox | main.py:38-56 | one box: its label lookup, and a rectangle plus caption drawn iff it resolves |
| Annotator.DrawSummary | main.py:59-66 | the summary loop appends one text line per label, 30 px apart, upwards from height-30 |
| Annotator.Kept | main.py:43-48 | every kept detection resolves to a label |
| Annotator.KeptAppend | main.py:35-56 | keeping commutes with concatenation, so kept detections stay in emission order |
| Annotator.KeptMultiplicity | main.py:43-56 | each detection is kept as often as it occurs if it resolves, and never otherwise |
| Annotator.LabelsAt | main.py:47-56 | one label per kept detection; label i is that of the i-th kept detection |
| Annotator.LabelsAppend | main.py:35-56 | the labels of two batches of boxes are the first batch's followed by the second's |
| Annotator.BoxCommandsAt | main.py:48-53 | for the i-th kept detection, command 2i is its rectangle and 2i+1 its caption at (x1, y1-10) |
| Annotator.BoxCommandsAppend | main.py:35-53 | the box commands of two batches are the first batch's followed by the second's |
| Annotator.SummaryAt | main.py:59-66 | summary line k shows label k at (10, top - 30k) |
| Annotator.PlanLength | main.py:35-66 | the plan has three commands per kept detection and nothing else |
| Annotator.PlanBoxAt | main.py:48-53 | in the whole plan, the i-th kept detection's rectangle is at 2i and its caption at 2i+1 |
| Annotator.PlanLineAt | main.py:59-66 | in the whole plan, summary line i follows all boxes and is drawn at (10, height-30-30i) |
| Annotator.NothingDrawnIff | main.py:48-59 | nothing is drawn, and no label produced, iff no detection resolves |
| Annotator.SingleRankTwoCard | main.py:21-66 | one box of class 7 yields label "2", its rectangle, its caption at y=0 and one summary line at height-30 |
| Widgets.CenteredAt | main.py:249-251 | centring keeps the 200x60 size and puts the centre at left + width/2, top + height/2 |
| Widgets.CollidePoint | main.py:256-259 | `collidepoint` is half-open: an empty rectangle holds no point, the right and bottom edges are outside, the top-left corner is inside |
| Widgets.Draw | main.py:253-277 | activated iff clicked and the pointer is in [cx-100, cx+100) x [cy-30, cy+30); click colour iff clicked and inside, hover iff inside and not clicked, base iff outside; shadow is the rectangle moved by (5,5) |
| Widgets.ActivatedMembers | main.py:184-230 | the activated list holds exactly the buttons that activate, in declaration order |
| Widgets.FirstActivated | main.py:184-230 | the list is empty iff no button activates, and its head is the first button that does |
| Widgets.AtMostOneActivated | main.py:184-230 | with pairwise disjoint rectangles at most one button activates |
| Fading.PyRange | main.py:155 | `range(start, stop, step)` is empty iff start is already past stop in the step's direction, and every value lies between start (included) and stop (excluded) |
| Fading.UnitRangeAt | main.py:155 | range(start, stop, +-1) has the consecutive values start, start+-1, ... and excludes stop |
| Fading.Fade | main.py:151-160 | "out" gives alphas 0..254, anything else 255..0, each followed by duration // 255 ms |
| Fading.Sweep | main.py:155-160 | one fade step per alpha value, in order, each with the same delay |
| Shell.PollEvents | main.py:173-179 | quit iff a quit event is queued; otherwise clicked iff a left-button press is queued |
| Shell.CameraSignalOf | main.py:90-97 | the camera loop keeps running only when neither quit nor q is queued; it terminates only on a queued quit and is dismissed only on a queued q |
| Shell.CameraSignalIsFirstDecisive | main.py:90-97 | the camera loop keeps running iff no quit or q-key event is queued; otherwise the first such event decides |
| Shell.CameraEvents | main.py:90-97 | the camera event loop returns the reaction to the first quit or q-key event |
| Shell.Step | main.py:73-239 | one tick of the navigation: the exited state stays, a quit event ends the menu and the game screen without effects, the camera is released only when the camera view returns to the game screen, and a tick with effects always changes state |
| Shell.MainMenuTick | main.py:162-198 | the menu tick (poll, test Start, then Quit) is the transition `Step` gives |
| Shell.GameScreenTick | main.py:200-239 | the game-screen tick (poll, test Camera, Image, Back in turn) is the transition `Step` gives |
| Shell.ButtonLayoutsDisjoint | main.py:181-218 | the button centres are (450,186), (450,286) and (450,166), (450,236), (450,306), and each screen's rectangles are pairwise disjoint |
| Shell.OneActivationPerTick | main.py:181-236 | on either screen at most one button activates per tick |
| Shell.MainMenuTransitions | main.py:162-195 | the menu goes to the game screen, with both fades, iff Start is clicked; it exits iff a quit event is queued (no fade) or Quit is clicked (one fade out); staying has no effects |
| Shell.GameScreenTransitions | main.py:200-236 | the game screen opens the camera, opens the image view (path chosen) or returns to the menu with both fades exactly for a click in that button; it exits iff a quit event is queued |
| Shell.CameraViewTransitions | main.py:73-98 | the camera view returns to the game screen, releasing the device, iff no frame was read or q came first; it exits iff a frame was read and a quit event came first, and then without release; staying has no effects |
| Shell.ImageViewTransitions | main.py:118-122 | for every input, with no effects, the image view returns to the game screen iff a key press is queued and otherwise stays, so a quit event is ignored |

## Left out

- Object-detector inference (`self.model(image)`) is an opaque library call. Its results are the
  input `results` of `DetectCards`. The training script is a single library call and is not
  part of this model.
- Pixel work is left out: `cv2.rectangle`/`putText` become draw commands. `cvtColor`,
  `transpose`, `make_surface`, `scale` and `blit` are not modelled, and neither are colours,
  fonts and line thickness of the cv2 drawings.
- The caption's text is `"<label> (<confidence>:.2f)"`. It is kept as the label plus the
  confidence value; the float formatting is not modelled. Box coordinates are taken as the
  integers `int(...)` already produced.
- pygame rendering, fonts, the text rendering in `draw_text`, rounded corners
  (`border_radius`), sounds, music, asset loading, `display.flip`/`update` and the 60 fps clock
  are UI and I/O. They are not modelled. `Draw` records the text and its centre only.
- The file dialog, `cv2.imread` and the camera device are inputs of `Step`: the chosen path (""
  when cancelled) and whether a frame was read. A failed `imread` of a chosen path is not
  modelled.
- `main_menu` and `game_screen` call each other, so the stack grows with every switch. The
  model keeps only the abstract transitions (`Step`), not the call structure.
- `Step` treats the camera and image views as states entered on a click. In the source they run
  as blocking loops inside the game-screen tick, and the remaining buttons of that tick are then
  tested with the old pointer and flag. Disjointness (`OneActivationPerTick`) makes the two
  views agree.
- `Fading.Fade` returns the alphas and delays; the overlay surface, the blits and the actual
  waiting are not modelled.
- `Fading.Fade` takes the duration as a required argument; the source's default of 1000 ms is
  not modelled, since every caller passes 700.
