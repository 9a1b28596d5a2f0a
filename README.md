# Robot factory: construction pipeline and renderer

A Dafny model of the core of `Tmps1.py`, a small Tk application that assembles
robots with the classic creational patterns and draws them on a canvas.

- **Part catalogs.** `HumanoidPartFactory` and `HeavyPartFactory` are the
  datatype `Robots.PartFactory`. Each supplies three fixed labels, one per build
  step.
- **Builders, director and factories.** These are classes over shared,
  mutable `Robot` objects.
  - `Robots.RobotBuilder` holds one robot under construction. Each build
    step writes one key of its `components` map.
  - `Robots.RobotDirector.ConstructRobot` runs head, torso and limbs, in that
    order.
  - `Robots.RobotFactory.CreateRobot` wires a builder to a director.
  - Each Humanoid/Heavy pair of Python classes is one Dafny class, selected
    by `Robots.Variant`, because the pair differs only in catalog and log text.
  - The effect of a build step is the function `Robots.Install`. The effect
    of a whole construction is `Robots.Assembled`.
- **Event log.** `Robots.Logger` is the event log: the sequence of messages
  the application passes to `log`, in order.
- **Clone.** `Robot.clone` (`copy.deepcopy`) is `Robots.Robot.Clone`: a
  fresh object holding a copy of the name and the components map.
- **The application.** `RobotFactoryApp` is `App.RobotFactoryApp`. It holds
  the list of robots, the last robot, and the canvas contents. It has three
  button handlers:
  - `CreateHumanoidRobot` and `CreateHeavyRobot` take the entry's text;
  - `CloneRobot`;
  - `ApplyChanges` is the edit dialog's "Apply Changes". It takes the
    dialog's field values as an `App.Edit`.
  - The name logic is `App.RequestedName` (strip, or the default
    "Humanoid-3" / "Heavy-12") and `App.EditedName`.
- **Renderer.** `draw_robot` is the pure function `Rendering.Render`. It
  returns the sequence of canvas items the call creates, back to front.
  - Each variant draws a fixed *layout* of slots: a region styled by one
    components key, a fixed group of items, or the name label.
  - The head, torso, arms, legs and antenna regions lower-case the stored
    value (or the default, when the key is absent) and compare it with one
    literal.
  - The Humanoid eyes do not compare: both irises are drawn in the stored
    eye colour as it is, or "black" when the key is absent.
  - The rivet loop is both the function `Rendering.Rivets` and the method
    `Rendering.DrawRivets`, which keeps the loop.
  - An unknown class (`Render(None, ...)`) draws the single placeholder text.
- **String helpers.** `Text` holds the string helpers the application needs:
  - `str.strip()`, with Python's `isspace` set;
  - `str.lower()`, ASCII only;
  - `str(n)` for non-negative `n`.

## Model

| member | source | states |
|---|---|---|
| Text.StripStart | Tmps1.py:354 | the result is no longer than the input, starts with a non-space character when non-empty, and everything dropped from the front is white space |
| Text.StripStartSuffix | Tmps1.py:354 | the result of stripping the front is a suffix of the input |
| Text.StripEnd | Tmps1.py:354 | the result is a prefix of the input, ends with a non-space character when non-empty, and everything dropped from the back is white space |
| Text.Strip | Tmps1.py:354 | the result has no white space at either end, and it is empty exactly when the input is all white space |
| Text.StripContent | Tmps1.py:354 | the result is a contiguous slice of the input, and the parts before and after that slice are all white space |
| Text.StripKeeps | Tmps1.py:443-445 | stripping leaves a string unchanged exactly when it is empty or neither end is white space |
| Text.StripIdempotent | Tmps1.py:443-445 | stripping an already stripped string changes nothing |
| Text.Lower | Tmps1.py:252 | lower-casing keeps the length and maps every character through the ASCII case mapping |
| Text.Decimal | Tmps1.py:354 | `str(n)` is non-empty and made of decimal digits only; it starts with '0' exactly when n is 0, and is then the single character "0"; with `ParseDecimalInverse` this fixes the text for every n |
| Text.ParseDecimalInverse | Tmps1.py:354 | the decimal text of `n` reads back as `n` |
| Text.DecimalInjective | Tmps1.py:354 | two numbers have the same decimal text exactly when they are equal |
| Robots.CatalogLabels | Tmps1.py:67-86 | every catalog label is non-empty; two labels are equal exactly when they come from the same catalog and the same step |
| Robots.PartFactory.CreateHead | Tmps1.py:67-86 | a catalog's head label is non-empty and differs from its torso and limbs labels |
| Robots.PartFactory.CreateTorso | Tmps1.py:67-86 | a catalog's torso label is non-empty and differs from its limbs label |
| Robots.PartFactory.CreateLimbs | Tmps1.py:67-86 | a catalog's limbs label is non-empty |
| Robots.Install | Tmps1.py:114-124 | a build step adds exactly its own key, stores the catalog's label there, and keeps every other entry |
| Robots.InstallIdempotent | Tmps1.py:136-146 | repeating a build step overwrites its key with the same value, so nothing changes |
| Robots.InstallCommutes | Tmps1.py:114-124 | two build steps commute, because they write different keys or the same value |
| Robots.InstallInOrder | Tmps1.py:157-161 | running the director's step list is installing head, then torso, then limbs |
| Robots.Assembled | Tmps1.py:157-161 | after construction the components hold exactly the keys head, torso and limbs, each with its catalog's label |
| Robots.AssembledParts | Tmps1.py:171-184 | a Humanoid robot starts with {head: "Smart Face", torso: "Sleek Body", limbs: "Agile Limbs"}; a Heavy robot starts with {head: "Armored Head", torso: "Reinforced Frame", limbs: "Robust Limbs"} |
| Robots.Logger.Log | Tmps1.py:17-21 | a message is appended to the log |
| Robots.Robot.Clone | Tmps1.py:34-35 | the clone is a fresh object with the same class, name and components, so later writes to either robot cannot reach the other |
| Robots.RobotBuilder.constructor | Tmps1.py:108-112 | a builder holds a fresh robot of its variant with the given name and no components, uses its variant's catalog, and logs its initialisation |
| Robots.RobotBuilder.BuildHead | Tmps1.py:114-116 | the robot's components become `Install(old components, head)`; the name is kept; the step is logged |
| Robots.RobotBuilder.BuildTorso | Tmps1.py:118-120 | the same for the torso |
| Robots.RobotBuilder.BuildLimbs | Tmps1.py:122-124 | the same for the limbs |
| Robots.RobotBuilder.GetRobot | Tmps1.py:126-127 | the builder hands out its own robot object, not a copy, so the director returns the very object the steps wrote |
| Robots.RobotDirector.constructor | Tmps1.py:152-155 | the director logs its initialisation |
| Robots.RobotDirector.ConstructRobot | Tmps1.py:157-161 | returns the builder's own robot; its components are those after head, torso and limbs, in that order; the log holds the three step messages in that order |
| Robots.RobotFactory.CreateRobot | Tmps1.py:171-184 | returns a fresh robot of the factory's variant, named exactly as requested, with `Assembled` components; the log gains the factory, builder, director and step messages, in order |
| Rendering.DrawRivets | Tmps1.py:313-314 | the loop over `range(160, 240, 20)` emits exactly the rivet row |
| Rendering.Rivets | Tmps1.py:313-314 | the rivet row is four ovals at x = 160, 180, 200 and 220 |
| Rendering.HumanoidHead | Tmps1.py:252-258 | two items; the first is a rectangle exactly when the style lower-cases to "square", and an oval exactly when it does not |
| Rendering.HumanoidEyes | Tmps1.py:260-264 | four ovals: two white sockets, and two irises filled and outlined with the given colour |
| Rendering.HumanoidTorso | Tmps1.py:268-274 | three items with an outline of width 4 when the style lower-cases to "muscular", otherwise one rectangle of width 2 |
| Rendering.HumanoidArms | Tmps1.py:276-286 | four items; the second is a joint oval exactly when the style lower-cases to "hydraulic" |
| Rendering.HumanoidLegs | Tmps1.py:288-297 | four items; the first is a rectangle exactly when the style lower-cases to "wide" |
| Rendering.HeavyHead | Tmps1.py:307-312 | an arc then a line when the style lower-cases to "dome"; otherwise one item, a rectangle (the first item is a rectangle exactly when the style is not "dome") |
| Rendering.HeavyTorso | Tmps1.py:316-322 | a rectangle of width 4 followed by two panel lines when the style lower-cases to "armored", otherwise one rectangle of width 3 |
| Rendering.HeavyArms | Tmps1.py:324-334 | always the two dim-gray arm rectangles first; six items when the style lower-cases to "robotic", otherwise just those two |
| Rendering.HeavyLegs | Tmps1.py:336-343 | two leg rectangles first; four items when the style lower-cases to "wide", otherwise just those two |
| Rendering.AntennaRegion | Tmps1.py:298-302 | three items, the stalk first, when the value does not lower-case to "none"; otherwise nothing |
| Rendering.Render | Tmps1.py:248-351 | the picture is never empty; a known class's picture ends with its name label (`NameLabel`: the name in bold Helvetica 16, dark blue for a Humanoid, dark red for a Heavy); an unknown class draws exactly the one placeholder text |
| Rendering.HumanoidRegions | Tmps1.py:250-303 | the Humanoid picture is, in order: head, eyes, mouth, torso, arms, legs, antenna, name label, each drawn from its key's value or default |
| Rendering.HeavyRegions | Tmps1.py:305-349 | the Heavy picture is, in order: head, rivets, torso, arms, legs, antenna, name label |
| Rendering.HumanoidHeadFallback | Tmps1.py:252-258 | the head draws as the default "Oval" exactly when the value does not lower-case to "square" |
| Rendering.HumanoidTorsoFallback | Tmps1.py:268-274 | the torso draws as the default exactly when the value does not lower-case to "muscular" |
| Rendering.HumanoidArmsFallback | Tmps1.py:276-286 | the arms draw as the default exactly when the value does not lower-case to "hydraulic" |
| Rendering.HumanoidLegsFallback | Tmps1.py:288-297 | the legs draw as the default exactly when the value does not lower-case to "wide" |
| Rendering.HeavyHeadFallback | Tmps1.py:307-312 | the head draws as the default "Rectangle" exactly when the value does not lower-case to "dome" |
| Rendering.HeavyTorsoFallback | Tmps1.py:316-322 | the torso draws as the default exactly when the value does not lower-case to "armored" |
| Rendering.HeavyArmsFallback | Tmps1.py:324-334 | the arms draw as the default exactly when the value does not lower-case to "robotic" |
| Rendering.HeavyLegsFallback | Tmps1.py:336-343 | the legs draw as the default exactly when the value does not lower-case to "wide" |
| Rendering.AntennaFallback | Tmps1.py:299-302 | the antenna draws as when the value is "None" (nothing) exactly when the value lower-cases to "none" |
| Rendering.RegionFallback | Tmps1.py:252-348 | every styled region of either variant draws its default picture exactly when the value does not select its other branch |
| Rendering.ValueFallback | Tmps1.py:252-348 | storing a value under a key draws the same whole picture as leaving the key out, exactly when the value does not select the other branch of that key's region; keys the renderer does not read never matter |
| Rendering.RenderReadsStyleKeys | Tmps1.py:248-351 | components that agree on the six style keys draw the same picture |
| Rendering.EyesSlot | Tmps1.py:259-264 | only a Humanoid draws eyes, and only in its second slot |
| Rendering.HumanoidCount | Tmps1.py:250-303 | a Humanoid picture has 2 + 4 + 1 + (3 or 1) + 4 + 4 + (3 or 0) + 1 items, chosen by the torso and antenna branches |
| Rendering.HeavyCount | Tmps1.py:305-349 | a Heavy picture has (2 or 1) + 4 + (3 or 1) + (6 or 2) + (4 or 2) + (3 or 0) + 1 items, chosen by the head, torso, arms, legs and antenna branches |
| Rendering.RivetsFollowHeavyHead | Tmps1.py:307-314 | right after the Heavy head (one or two items) come exactly the four rivets, whatever the head style |
| Rendering.EyesInPicture | Tmps1.py:259-264 | a Humanoid picture's items 3 to 6 are exactly the eyes drawn in the colour the renderer reads |
| Rendering.HumanoidEyeColors | Tmps1.py:260-264 | a Humanoid's sockets are white, and both irises are filled and outlined with the stored eye colour as it is ("black" when absent) |
| Rendering.AntennaDrawn | Tmps1.py:298-303 | the antenna stalk appears in the picture exactly when the antenna value lower-cases to something other than "none", and then stalk and bulb come just before the label |
| App.DefaultName | Tmps1.py:354 | the default name is the variant's word and "-", followed by at least one decimal digit and nothing else, the first of them not '0'; those digits read back as count + 1; no white space at either end |
| App.DefaultNameInjective | Tmps1.py:354 | two default names are equal exactly when variant and count are equal |
| App.RequestedName | Tmps1.py:354 | the create name is the stripped entry, or the default name exactly when the entry is all white space; it is never empty and never padded |
| App.EditedName | Tmps1.py:443-445 | the name after an edit is the stripped entry, or the current name exactly when the entry is all white space |
| App.EditComponents | Tmps1.py:446-452 | the edit stores the five dialog values, and eye_color only for a Humanoid; it adds exactly those keys and keeps every other entry, so head, torso and limbs are untouched |
| App.InitialEdit | Tmps1.py:390-436 | the dialog opens with the robot's name, and for antenna, legs, head, torso and arms with what the renderer reads; the eye colour field holds the stored colour or "Black" |
| App.EditedLook | Tmps1.py:446-452 | after the edit the renderer reads, for every key, the dialog's value; a Heavy's eye colour is not written |
| App.InitialEditLook | Tmps1.py:390-436 | the dialog opens with what the renderer reads for every key except a Humanoid's eye colour, whose menu default is "Black" |
| App.UnchangedDialogKeepsPicture | Tmps1.py:390-455 | for the same name, applying the dialog as it opened keeps everything drawn from the components, exactly unless the robot is a Humanoid with no stored eye colour |
| App.UnchangedDialogKeepsName | Tmps1.py:443-445 | applying the dialog's name field as it opened keeps the robot's name exactly when the name is all white space or has no white space at either end |
| App.PictureFollowsEdit | Tmps1.py:446-455 | after an edit the picture depends only on the dialog's values and the name, not on the styles the robot had before |
| App.RobotFactoryApp.constructor | Tmps1.py:227-235 | the application starts with no robots, no last robot and an empty canvas, and logs "Application started" |
| App.RobotFactoryApp.Append | Tmps1.py:356-357 | the robot becomes the newest list entry and the last robot; the list keeps its invariant |
| App.RobotFactoryApp.CreateWith | Tmps1.py:355-360 | exactly one fresh robot of the factory's variant is appended and becomes the last robot; it has the given name and the assembled parts; the canvas shows it; the log gains the creation events and the "Created" message |
| App.RobotFactoryApp.CreateHumanoidRobot | Tmps1.py:353-360 | the same for a Humanoid named `RequestedName(Humanoid, entry, number of robots so far)` |
| App.RobotFactoryApp.CreateHeavyRobot | Tmps1.py:362-369 | the same for a Heavy named `RequestedName(Heavy, entry, number of robots so far)` |
| App.RobotFactoryApp.CloneRobot | Tmps1.py:371-382 | with a last robot: appends a fresh copy with the same class and components and the "_clone" suffix, makes it the last robot, draws it and logs it; without one: only logs "No robot to clone." |
| App.RobotFactoryApp.ApplyChanges | Tmps1.py:442-455 | the robot's name becomes `EditedName`, its components become `EditComponents`, the edit is logged and the robot is redrawn; the robot list and the last robot are unchanged |
| App.RobotFactoryApp.DrawRobot | Tmps1.py:248-249 | the canvas holds exactly `Render` of the robot |
| App.RobotFactoryApp.CloneAndEdit | Tmps1.py:373-380 | cloning and then editing the clone leaves the original robot's name and components as they were; the clone carries the edited name and components |

## Left out

- The Tk widgets and layout are not modelled: frames, labels, the entry, the
  buttons, the list box, the scrolled log, `update_log`, `update_robot_list`,
  the `Toplevel` and `OptionMenu` construction, and `mainloop`. Their inputs
  become parameters: the entry's text, and the dialog's field values as an `App.Edit`.
- `SingletonLogger` becomes a `Logger` object passed in at construction. Its
  process-wide singleton creation, the "[LOG]: " prefix, `print` and the GUI
  callback are I/O and are not modelled.
- App.RobotFactoryApp.CreateWith, App.RobotFactoryApp.CreateHumanoidRobot and
  App.RobotFactoryApp.CreateHeavyRobot: the "Created ... robot" message
  carries the robot's name but not the components text of `str(robot)`.
  That text depends on Python's dict formatting and insertion order.
- App.RobotFactoryApp.CloneRobot: the "Cloned robot" message likewise carries
  only the name.
- App.RobotFactoryApp.ApplyChanges: the "Modified cloned robot" message
  likewise carries only the name.
- `Robot.__str__` and `perform` are not modelled. They are string formatting,
  and nothing in the core depends on them.
- `copy.deepcopy` is modelled by its effect: a fresh object holding a value
  copy of the name and the map.
- `canvas.delete("all")` is modelled as the picture starting empty.
  - Fonts, dash patterns and arc styles are plain fields of the items.
  - Options the source omits carry Tk's defaults: no fill, a black
    outline of width 1, black lines.
  - Tk's case-insensitive colour names are not modelled. So an iris
    colour "Black" and the default "black" are different items, although
    they look the same on screen.
- Text.Lower: `str.lower()` is modelled for ASCII letters only. Every literal
  the renderer compares with is ASCII without the letter k, so no non-ASCII
  character can lower-case into a match. The comparisons therefore come
  out as in Python, but the lowered strings themselves can differ from
  Python's.
- The dialog offers fixed menus. A `StringVar` can hold any string, so
  `App.Edit` fields are arbitrary strings; this is more general than the menus.
- A robot of a third class cannot arise in the application. The placeholder
  branch is reachable only through `Render(None, ...)`.
- Three behaviours of the code are modelled exactly as written:
  - Heavy default legs are two rectangles without foot dots (Tmps1.py:341-343);
  - the placeholder text is "Unknown Robot Type" (Tmps1.py:351);
  - cloning with no last robot only logs "No robot to clone." and changes
    nothing else (Tmps1.py:381-382).
- App.RobotFactoryApp.ApplyChanges: that no other robot changes follows from
  its `modifies` frame (only this robot, the canvas and the log). No
  `ensures` clause repeats it.
