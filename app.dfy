/** `RobotFactoryApp` without its widgets: the list of robots, the last
    robot created or cloned, the canvas, and the three button handlers. */
module App {
  import opened Text
  import opened Robots
  import opened Rendering

  /** The name used when the entry is blank: "Humanoid-3", "Heavy-12", ...
      numbered after all robots created so far. */
  function DefaultName(v: Variant, count: nat): (r: string)
    ensures |r| > |VariantWord(v)| + 1 && r[..|VariantWord(v)| + 1] == VariantWord(v) + "-"
    ensures forall i :: |VariantWord(v)| + 1 <= i < |r| ==> IsDigit(r[i])
    ensures ParseDecimal(r[|VariantWord(v)| + 1..]) == count + 1
    ensures r[|VariantWord(v)| + 1] != '0'
    ensures !IsSpace(r[0]) && !IsSpace(r[|r| - 1])
  {
    var w, d := VariantWord(v), Decimal(count + 1);
    var r := w + "-" + d;
    assert r[..|w| + 1] == w + "-" && r[|w| + 1..] == d;
    assert r[0] == w[0] && r[|r| - 1] == d[|d| - 1];
    ParseDecimalInverse(count + 1);
    r
  }

  /** Default names never collide: different variants or different counts
      give different names. */
  lemma DefaultNameInjective(v: Variant, w: Variant, i: nat, j: nat)
    ensures DefaultName(v, i) == DefaultName(w, j) <==> v == w && i == j
  {
    var a, b := DefaultName(v, i), DefaultName(w, j);
    if a == b {
      assert a[1] == b[1];
      assert v == w;
      var p := |VariantWord(v) + "-"|;
      assert a[p..] == Decimal(i + 1);
      assert b[p..] == Decimal(j + 1);
      DecimalInjective(i + 1, j + 1);
    }
  }

  /** The name a create button gives: the stripped entry, or the default
      name when the stripped entry is empty. */
  function RequestedName(v: Variant, entry: string, count: nat): (r: string)
    ensures r != [] && !IsSpace(r[0]) && !IsSpace(r[|r| - 1])
    ensures AllSpace(entry) ==> r == DefaultName(v, count)
    ensures !AllSpace(entry) ==> r == Strip(entry)
  {
    var n := Strip(entry);
    if n != [] then n else DefaultName(v, count)
  }

  /** The name after "Apply Changes": the stripped entry, unless that is
      empty, in which case the robot keeps its name. */
  function EditedName(current: string, entry: string): (r: string)
    ensures AllSpace(entry) ==> r == current
    ensures !AllSpace(entry) ==> r == Strip(entry) && !IsSpace(r[0]) && !IsSpace(r[|r| - 1])
  {
    var n := Strip(entry);
    if n != [] then n else current
  }

  /** What the edit dialog's fields hold when "Apply Changes" is pressed. */
  datatype Edit = Edit(name: string, antenna: string, legs: string, headStyle: string,
                       torsoStyle: string, armStyle: string, eyeColor: string)

  /** The keys `apply_changes` writes: eye colour for Humanoid robots only. */
  function EditedKeys(v: Variant): set<string> {
    {KeyName(Antenna), KeyName(Legs), KeyName(HeadStyle), KeyName(TorsoStyle), KeyName(ArmStyle)}
    + (if v == Humanoid then {KeyName(EyeColor)} else {})
  }

  /** The components after `apply_changes`: each field is stored under its
      key, the eye colour for a Humanoid only, and every other entry is kept,
      the built parts included. */
  function EditComponents(c: map<string, string>, v: Variant, e: Edit): (r: map<string, string>)
    ensures forall k :: k in r <==> k in c || k in EditedKeys(v)
    ensures KeyName(Antenna) in r && r[KeyName(Antenna)] == e.antenna
    ensures KeyName(Legs) in r && r[KeyName(Legs)] == e.legs
    ensures KeyName(HeadStyle) in r && r[KeyName(HeadStyle)] == e.headStyle
    ensures KeyName(TorsoStyle) in r && r[KeyName(TorsoStyle)] == e.torsoStyle
    ensures KeyName(ArmStyle) in r && r[KeyName(ArmStyle)] == e.armStyle
    ensures v == Humanoid ==> KeyName(EyeColor) in r && r[KeyName(EyeColor)] == e.eyeColor
    ensures forall k :: k in c && k !in EditedKeys(v) ==> k in r && r[k] == c[k]
    ensures HeadKey in c ==> HeadKey in r && r[HeadKey] == c[HeadKey]
    ensures TorsoKey in c ==> TorsoKey in r && r[TorsoKey] == c[TorsoKey]
    ensures LimbsKey in c ==> LimbsKey in r && r[LimbsKey] == c[LimbsKey]
  {
    var r := c[KeyName(Antenna) := e.antenna][KeyName(Legs) := e.legs][KeyName(HeadStyle) := e.headStyle]
              [KeyName(TorsoStyle) := e.torsoStyle][KeyName(ArmStyle) := e.armStyle];
    if v == Humanoid then r[KeyName(EyeColor) := e.eyeColor] else r
  }

  /** The values the dialog opens with: the stored value of each key, or
      the first option of its menu. For every key but the eye colour that is
      what the renderer reads; the eye colour menu starts at "Black". */
  function InitialEdit(v: Variant, name: string, c: map<string, string>): (r: Edit)
    ensures r.name == name
    ensures r.antenna == Look(v, c, Antenna) && r.legs == Look(v, c, Legs)
    ensures r.headStyle == Look(v, c, HeadStyle) && r.torsoStyle == Look(v, c, TorsoStyle)
    ensures r.armStyle == Look(v, c, ArmStyle)
    ensures r.eyeColor == Style(c, KeyName(EyeColor), "Black")
  {
    Edit(name,
         Style(c, KeyName(Antenna), "None"),
         Style(c, KeyName(Legs), "Standard"),
         Style(c, KeyName(HeadStyle), match v case Humanoid => "Oval" case Heavy => "Rectangle"),
         Style(c, KeyName(TorsoStyle), "Standard"),
         Style(c, KeyName(ArmStyle), "Standard"),
         Style(c, KeyName(EyeColor), "Black"))
  }

  /** What the renderer reads for a style key after an edit. */
  lemma EditedLook(c: map<string, string>, v: Variant, e: Edit, k: StyleKey)
    ensures Look(v, EditComponents(c, v, e), k) == match k
      case Antenna => e.antenna
      case Legs => e.legs
      case HeadStyle => e.headStyle
      case TorsoStyle => e.torsoStyle
      case ArmStyle => e.armStyle
      case EyeColor => if v == Humanoid then e.eyeColor else Look(v, c, k)
  {
    forall l: StyleKey ensures KeyName(k) == KeyName(l) <==> k == l {
      KeyNameInjective(k, l);
    }
  }

  /** The dialog opens with what the renderer would read for every key but
      the eye colour, whose menu default is "Black" where the renderer's is "black". */
  lemma InitialEditLook(v: Variant, c: map<string, string>, dialogName: string, k: StyleKey)
    ensures k != EyeColor || v == Heavy ==>
      Look(v, EditComponents(c, v, InitialEdit(v, dialogName, c)), k) == Look(v, c, k)
    ensures v == Humanoid ==>
      Look(v, EditComponents(c, v, InitialEdit(v, dialogName, c)), EyeColor) == Style(c, KeyName(EyeColor), "Black")
  {
    EditedLook(c, v, InitialEdit(v, dialogName, c), k);
    EditedLook(c, v, InitialEdit(v, dialogName, c), EyeColor);
  }

  /** Components that look the same under every key but the eye colour
      draw the same in every slot that is not the eyes. */
  lemma SlotsFollowLooks(v: Variant, c: map<string, string>, d: map<string, string>, name: string)
    requires forall k :: k != EyeColor ==> Look(v, c, k) == Look(v, d, k)
    ensures forall j :: 0 <= j < |Layout(v)| && Layout(v)[j] != Keyed(EyeColor) ==>
      Regions(v, c, name)[j] == Regions(v, d, name)[j]
  {
    forall j | 0 <= j < |Layout(v)| && Layout(v)[j] != Keyed(EyeColor)
      ensures Regions(v, c, name)[j] == Regions(v, d, name)[j]
    {
      match Layout(v)[j]
      case Keyed(k) =>
      case Fixed(_) =>
      case NameSlot =>
    }
  }

  /** Every slot but the second draws the same after the unchanged dialog. */
  lemma InitialEditSlots(v: Variant, c: map<string, string>, dialogName: string, name: string)
    ensures var rs, ts := Regions(v, EditComponents(c, v, InitialEdit(v, dialogName, c)), name), Regions(v, c, name);
      |rs| == |ts| && forall j :: 0 <= j < |rs| && j != 1 ==> rs[j] == ts[j]
  {
    var ec := EditComponents(c, v, InitialEdit(v, dialogName, c));
    forall k | k != EyeColor ensures Look(v, ec, k) == Look(v, c, k) {
      InitialEditLook(v, c, dialogName, k);
    }
    SlotsFollowLooks(v, ec, c, name);
    forall j | 0 <= j < |Layout(v)| {
      EyesSlot(v, j);
    }
  }

  /** The second slot (eyes or rivets) draws the same after the unchanged
      dialog unless it is a Humanoid's eyes with no stored colour. */
  lemma InitialEditSecondSlot(v: Variant, c: map<string, string>, dialogName: string, name: string)
    ensures var rs, ts := Regions(v, EditComponents(c, v, InitialEdit(v, dialogName, c)), name), Regions(v, c, name);
      rs[1] == ts[1] <==> v == Heavy || KeyName(EyeColor) in c
  {
    var ec := EditComponents(c, v, InitialEdit(v, dialogName, c));
    if v == Humanoid {
      InitialEditLook(v, c, dialogName, EyeColor);
      HumanoidSlot(ec, name, 1);
      HumanoidSlot(c, name, 1);
      if KeyName(EyeColor) !in c {
        assert HumanoidEyes("Black")[1].fill != HumanoidEyes("black")[1].fill;
      }
    } else {
      HeavySlot(ec, name, 1);
      HeavySlot(c, name, 1);
    }
  }

  /** Applying the dialog as it opened leaves the picture unchanged, except
      for a Humanoid without a stored eye colour: the dialog's "Black" then
      replaces the renderer's default "black" as the iris fill. */
  lemma UnchangedDialogKeepsPicture(v: Variant, c: map<string, string>, dialogName: string, name: string)
    ensures Render(Some(v), EditComponents(c, v, InitialEdit(v, dialogName, c)), name) == Render(Some(v), c, name)
        <==> v == Heavy || KeyName(EyeColor) in c
  {
    var rs, ts := Regions(v, EditComponents(c, v, InitialEdit(v, dialogName, c)), name), Regions(v, c, name);
    InitialEditSlots(v, c, dialogName, name);
    InitialEditSecondSlot(v, c, dialogName, name);
    FlattenDiffersAt(rs, ts, 1);
  }

  /** The dialog opens with the robot's name, and applying it unchanged keeps
      that name exactly when it is all white space or has no white space at
      either end, as every name the application gives has. */
  lemma UnchangedDialogKeepsName(n: string)
    ensures EditedName(n, n) == n <==> AllSpace(n) || (n != [] && !IsSpace(n[0]) && !IsSpace(n[|n| - 1]))
  {
    if !AllSpace(n) {
      StripKeeps(n);
    }
  }

  /** After "Apply Changes" the picture depends only on the dialog's values
      and the name, not on the styles the robot had before. */
  lemma PictureFollowsEdit(v: Variant, c: map<string, string>, d: map<string, string>, e: Edit, name: string)
    ensures Render(Some(v), EditComponents(c, v, e), name) == Render(Some(v), EditComponents(d, v, e), name)
  {
    var rs, ts := Regions(v, EditComponents(c, v, e), name), Regions(v, EditComponents(d, v, e), name);
    forall j | 0 <= j < |rs| ensures rs[j] == ts[j] {
      match Layout(v)[j]
      case Keyed(k) =>
        EditedLook(c, v, e, k);
        EditedLook(d, v, e, k);
      case Fixed(_) =>
      case NameSlot =>
    }
    assert rs == ts;
  }

  /** The messages the handlers log after creating, cloning or editing a
      robot. Each names the robot; the components dictionary that
      `str(robot)` appends is not part of this model. */
  function CreatedMessage(v: Variant, name: string): string {
    "Created " + (match v case Humanoid => "humanoid" case Heavy => "heavy") + " robot: " + name
  }

  function ClonedMessage(name: string): string {
    "Cloned robot: " + name
  }

  function ModifiedMessage(name: string): string {
    "Modified cloned robot: " + name
  }

  /** The application's state: every robot created or cloned, in order, the
      last one, and the items on the canvas. */
  class RobotFactoryApp {
    const logger: Logger
    const humanoidFactory: RobotFactory
    const heavyFactory: RobotFactory
    var robots: seq<Robot>
    var lastRobot: Robot?
    var canvas: seq<Primitive>

    /** The last robot is the newest entry of the list, there is one exactly
        when the list is non-empty, and no robot appears twice. */
    ghost predicate Valid()
      reads this`robots, this`lastRobot
    {
      && humanoidFactory.variant == Humanoid && heavyFactory.variant == Heavy
      && humanoidFactory.logger == logger && heavyFactory.logger == logger
      && (lastRobot == null <==> robots == [])
      && (lastRobot != null ==> lastRobot == robots[|robots| - 1])
      && (forall i, j :: 0 <= i < j < |robots| ==> robots[i] != robots[j])
    }

    constructor (logger: Logger)
      modifies logger
      ensures Valid() && this.logger == logger
      ensures robots == [] && lastRobot == null && canvas == []
      ensures logger.messages == old(logger.messages) + ["Application started"]
    {
      this.logger := logger;
      humanoidFactory := new RobotFactory(Humanoid, logger);
      heavyFactory := new RobotFactory(Heavy, logger);
      robots := [];
      lastRobot := null;
      canvas := [];
      new;
      logger.Log("Application started");
    }

    /** Shared body of the two create buttons. */
    method CreateWith(factory: RobotFactory, name: string)
      requires Valid() && factory.logger == logger
      modifies this, logger
      ensures Valid()
      ensures robots == old(robots) + [lastRobot] && fresh(lastRobot)
      ensures lastRobot.variant == factory.variant
      ensures lastRobot.name == name
      ensures lastRobot.components == Assembled(PartsFor(factory.variant))
      ensures canvas == Render(Some(factory.variant), lastRobot.components, lastRobot.name)
      ensures logger.messages == old(logger.messages) + CreationEvents(factory.variant, name)
        + [CreatedMessage(factory.variant, name)]
    {
      var robot := factory.CreateRobot(name);
      Append(robot);
      logger.Log(CreatedMessage(factory.variant, name));
      DrawRobot(robot);
    }

    /** Records `robot` as the newest entry of the list and the last robot. */
    method Append(robot: Robot)
      requires Valid() && robot !in robots
      modifies this`robots, this`lastRobot
      ensures Valid()
      ensures robots == old(robots) + [robot] && lastRobot == robot
    {
      robots, lastRobot := robots + [robot], robot;
    }

    /** "Create Humanoid Robot": appends exactly one new Humanoid robot with
        the requested or default name and makes it the last robot. */
    method CreateHumanoidRobot(entry: string)
      requires Valid()
      modifies this, logger
      ensures Valid()
      ensures robots == old(robots) + [lastRobot] && fresh(lastRobot)
      ensures lastRobot.variant == Humanoid
      ensures lastRobot.name == RequestedName(Humanoid, entry, |old(robots)|)
      ensures lastRobot.components == Assembled(HumanoidPartFactory)
      ensures canvas == Render(Some(Humanoid), lastRobot.components, lastRobot.name)
      ensures logger.messages == old(logger.messages) + CreationEvents(Humanoid, lastRobot.name)
        + [CreatedMessage(Humanoid, lastRobot.name)]
    {
      CreateWith(humanoidFactory, RequestedName(Humanoid, entry, |robots|));
    }

    /** "Create Heavy Robot": the same with the Heavy factory. */
    method CreateHeavyRobot(entry: string)
      requires Valid()
      modifies this, logger
      ensures Valid()
      ensures robots == old(robots) + [lastRobot] && fresh(lastRobot)
      ensures lastRobot.variant == Heavy
      ensures lastRobot.name == RequestedName(Heavy, entry, |old(robots)|)
      ensures lastRobot.components == Assembled(HeavyPartFactory)
      ensures canvas == Render(Some(Heavy), lastRobot.components, lastRobot.name)
      ensures logger.messages == old(logger.messages) + CreationEvents(Heavy, lastRobot.name)
        + [CreatedMessage(Heavy, lastRobot.name)]
    {
      CreateWith(heavyFactory, RequestedName(Heavy, entry, |robots|));
    }

    /** "Clone Last Robot": appends a deep copy of the last robot named with
        the "_clone" suffix and makes it the last robot; with no robot yet it
        only logs. */
    method CloneRobot()
      requires Valid()
      modifies this, logger
      ensures Valid()
      ensures old(lastRobot) == null ==>
        && robots == old(robots) && lastRobot == null && canvas == old(canvas)
        && logger.messages == old(logger.messages) + ["No robot to clone."]
      ensures old(lastRobot) != null ==>
        && robots == old(robots) + [lastRobot] && fresh(lastRobot)
        && lastRobot.variant == old(lastRobot.variant)
        && lastRobot.name == old(lastRobot.name) + "_clone"
        && lastRobot.components == old(lastRobot.components)
        && canvas == Render(Some(lastRobot.variant), lastRobot.components, lastRobot.name)
        && logger.messages == old(logger.messages) + [ClonedMessage(lastRobot.name)]
    {
      if lastRobot != null {
        var robot := lastRobot.Clone();
        robot.name := robot.name + "_clone";
        Append(robot);
        logger.Log(ClonedMessage(robot.name));
        DrawRobot(robot);
      } else {
        logger.Log("No robot to clone.");
      }
    }

    /** "Apply Changes" in the edit dialog of `robot`: renames it only to a
        non-blank stripped name, stores the dialog's styles, and redraws it.
        The frame says that no other robot changes. */
    method ApplyChanges(robot: Robot, e: Edit)
      requires Valid()
      modifies robot, this`canvas, logger
      ensures Valid()
      ensures robot.name == EditedName(old(robot.name), e.name)
      ensures robot.components == EditComponents(old(robot.components), robot.variant, e)
      ensures canvas == Render(Some(robot.variant), robot.components, robot.name)
      ensures logger.messages == old(logger.messages) + [ModifiedMessage(robot.name)]
      ensures robots == old(robots) && lastRobot == old(lastRobot)
    {
      var name := EditedName(robot.name, e.name);
      var components := EditComponents(robot.components, robot.variant, e);
      robot.name, robot.components := name, components;
      logger.Log(ModifiedMessage(name));
      DrawRobot(robot);
    }

    /** `draw_robot`: the canvas shows exactly the picture of `robot`. */
    method DrawRobot(robot: Robot)
      modifies this`canvas
      ensures canvas == Render(Some(robot.variant), robot.components, robot.name)
    {
      canvas := Render(Some(robot.variant), robot.components, robot.name);
    }

    /** The dialog flow of a clone: clone the last robot, then apply `e` to
        the clone. The source robot keeps its name and components. */
    method CloneAndEdit(e: Edit)
      requires Valid() && lastRobot != null
      modifies this, logger
      ensures Valid()
      ensures robots == old(robots) + [lastRobot] && fresh(lastRobot)
      ensures old(lastRobot).name == old(lastRobot.name)
      ensures old(lastRobot).components == old(lastRobot.components)
      ensures lastRobot.variant == old(lastRobot.variant)
      ensures lastRobot.name == EditedName(old(lastRobot.name) + "_clone", e.name)
      ensures lastRobot.components == EditComponents(old(lastRobot.components), lastRobot.variant, e)
      ensures canvas == Render(Some(lastRobot.variant), lastRobot.components, lastRobot.name)
      ensures logger.messages == old(logger.messages)
        + [ClonedMessage(old(lastRobot.name) + "_clone"), ModifiedMessage(lastRobot.name)]
    {
      CloneRobot();
      ApplyChanges(lastRobot, e);
    }
  }
}
