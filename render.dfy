/** `draw_robot` as a pure function: from a robot's class, components and
    name to the ordered list of canvas items it creates, back to front. */
module Rendering {
  import opened Text
  import opened Robots

  datatype Option<T> = None | Some(value: T)

  datatype ArcStyle = PieSlice | Chord | ArcOnly

  datatype Weight = Normal | Bold

  datatype Font = Font(family: string, size: int, weight: Weight)

  /** One canvas item. Options the source leaves out carry Tk's defaults:
      no fill (""), a "black" outline of width 1, and a "black" line or text. */
  datatype Primitive =
    | Oval(x0: int, y0: int, x1: int, y1: int, fill: string, outline: string, width: int)
    | Rectangle(x0: int, y0: int, x1: int, y1: int, fill: string, outline: string, width: int)
    | Arc(x0: int, y0: int, x1: int, y1: int, start: int, extent: int, style: ArcStyle,
          fill: string, outline: string, width: int)
    | Line(x0: int, y0: int, x1: int, y1: int, fill: string, width: int, dash: seq<int>)
    | TextItem(x: int, y: int, text: string, font: Font, fill: string)

  /** The six keys `draw_robot` reads from the components. */
  datatype StyleKey = HeadStyle | TorsoStyle | ArmStyle | Legs | Antenna | EyeColor

  function KeyName(k: StyleKey): string {
    match k
    case HeadStyle => "head_style"
    case TorsoStyle => "torso_style"
    case ArmStyle => "arm_style"
    case Legs => "legs"
    case Antenna => "antenna"
    case EyeColor => "eye_color"
  }

  /** The style key a components key names, if any. */
  function KeyOf(key: string): (r: Option<StyleKey>)
    ensures r.Some? ==> KeyName(r.value) == key
    ensures r.None? ==> forall k :: KeyName(k) != key
  {
    if key == "head_style" then Some(HeadStyle)
    else if key == "torso_style" then Some(TorsoStyle)
    else if key == "arm_style" then Some(ArmStyle)
    else if key == "legs" then Some(Legs)
    else if key == "antenna" then Some(Antenna)
    else if key == "eye_color" then Some(EyeColor)
    else None
  }

  /** `components.get(key, default)`. */
  function Style(c: map<string, string>, key: string, default: string): string {
    if key in c then c[key] else default
  }

  // ---------------- Humanoid regions ----------------

  /** Two items; a boxed head exactly when the style lower-cases to "square". */
  function HumanoidHead(style: string): (r: seq<Primitive>)
    ensures |r| == 2
    ensures r[0].Rectangle? <==> Lower(style) == "square"
    ensures r[0].Oval? <==> Lower(style) != "square"
  {
    if Lower(style) == "square" then
      [Rectangle(170, 40, 230, 100, "peachpuff", "black", 2),
       Line(230, 40, 230, 100, "gray", 2, [2, 2])]
    else
      [Oval(170, 40, 230, 100, "peachpuff", "black", 2),
       Arc(175, 45, 225, 95, 30, 120, ArcOnly, "", "white", 1)]
  }

  /** White sockets and irises filled with the raw eye colour. */
  function HumanoidEyes(color: string): (r: seq<Primitive>)
    ensures |r| == 4
    ensures forall i :: 0 <= i < 4 ==> r[i].Oval?
    ensures r[0].fill == "white" && r[2].fill == "white"
    ensures r[1].fill == color && r[1].outline == color && r[3].fill == color && r[3].outline == color
  {
    [Oval(185, 60, 195, 70, "white", "black", 1),
     Oval(188, 63, 192, 67, color, color, 1),
     Oval(205, 60, 215, 70, "white", "black", 1),
     Oval(208, 63, 212, 67, color, color, 1)]
  }

  const Mouth := Arc(180, 70, 220, 90, 200, 140, Chord, "red", "black", 1)

  /** A thick torso with two muscle lines exactly for "muscular", else one slim block. */
  function HumanoidTorso(style: string): (r: seq<Primitive>)
    ensures |r| == if Lower(style) == "muscular" then 3 else 1
    ensures r[0].Rectangle? && r[0].width == if Lower(style) == "muscular" then 4 else 2
  {
    if Lower(style) == "muscular" then
      [Rectangle(175, 100, 215, 170, "lightblue", "black", 4),
       Line(175, 135, 215, 135, "blue", 2, []),
       Line(195, 100, 195, 170, "blue", 2, [])]
    else
      [Rectangle(185, 100, 215, 170, "skyblue", "black", 2)]
  }

  /** Four items; each arm line is followed by its joint disc exactly for "hydraulic". */
  function HumanoidArms(style: string): (r: seq<Primitive>)
    ensures |r| == 4
    ensures r[1].Oval? <==> Lower(style) == "hydraulic"
  {
    if Lower(style) == "hydraulic" then
      [Line(185, 110, 150, 140, "black", 5, []),
       Oval(145, 135, 155, 145, "gray", "black", 1),
       Line(215, 110, 250, 140, "black", 5, []),
       Oval(245, 135, 255, 145, "gray", "black", 1)]
    else
      [Line(185, 110, 150, 140, "black", 3, []),
       Line(215, 110, 250, 140, "black", 3, []),
       Oval(145, 135, 155, 145, "black", "black", 1),
       Oval(245, 135, 255, 145, "black", "black", 1)]
  }

  /** Four items; block legs exactly for "wide", line legs otherwise. */
  function HumanoidLegs(style: string): (r: seq<Primitive>)
    ensures |r| == 4
    ensures r[0].Rectangle? <==> Lower(style) == "wide"
  {
    if Lower(style) == "wide" then
      [Rectangle(180, 170, 200, 220, "black", "black", 1),
       Rectangle(200, 170, 220, 220, "black", "black", 1),
       Oval(190, 215, 200, 225, "gray", "black", 1),
       Oval(210, 215, 220, 225, "gray", "black", 1)]
    else
      [Line(190, 170, 190, 220, "black", 3, []),
       Line(210, 170, 210, 220, "black", 3, []),
       Oval(185, 215, 195, 225, "black", "black", 1),
       Oval(205, 215, 215, 225, "black", "black", 1)]
  }

  // ---------------- Heavy regions ----------------

  /** A half-disc head and visor line exactly for "dome", else one block. */
  function HeavyHead(style: string): (r: seq<Primitive>)
    ensures |r| == if Lower(style) == "dome" then 2 else 1
    ensures r[0].Arc? <==> Lower(style) == "dome"
    ensures r[0].Rectangle? <==> Lower(style) != "dome"
    ensures Lower(style) == "dome" ==> r[1].Line?
  {
    if Lower(style) == "dome" then
      [Arc(150, 40, 250, 90, 0, 180, PieSlice, "dimgray", "black", 3),
       Line(150, 65, 250, 65, "black", 2, [])]
    else
      [Rectangle(150, 40, 250, 90, "dimgray", "black", 3)]
  }

  function Rivet(x: int): Primitive {
    Oval(x, 45, x + 10, 55, "black", "black", 1)
  }

  /** Python's `range(start, stop, step)` for a positive step. */
  function Range(start: int, stop: int, step: nat): seq<int>
    requires step > 0
    decreases stop - start
  {
    if start >= stop then [] else [start] + Range(start + step, stop, step)
  }

  function RivetsAt(xs: seq<int>): seq<Primitive> {
    if xs == [] then [] else [Rivet(xs[0])] + RivetsAt(xs[1..])
  }

  /** The row of rivets on every Heavy head: exactly four, at x = 160, 180,
      200 and 220. */
  function Rivets(): (r: seq<Primitive>)
    ensures r == [Rivet(160), Rivet(180), Rivet(200), Rivet(220)]
  {
    assert Range(240, 240, 20) == [];
    assert Range(220, 240, 20) == [220];
    assert Range(200, 240, 20) == [200, 220];
    assert Range(180, 240, 20) == [180, 200, 220];
    assert Range(160, 240, 20) == [160, 180, 200, 220];
    RivetsAt(Range(160, 240, 20))
  }

  /** The rivet loop of `draw_robot`, emitting one oval per iteration. */
  method DrawRivets() returns (out: seq<Primitive>)
    ensures out == Rivets()
  {
    out := [];
    var x := 160;
    while x < 240
      invariant out + RivetsAt(Range(x, 240, 20)) == Rivets()
      decreases 240 - x
    {
      assert RivetsAt(Range(x, 240, 20)) == [Rivet(x)] + RivetsAt(Range(x + 20, 240, 20));
      assert (out + [Rivet(x)]) + RivetsAt(Range(x + 20, 240, 20))
          == out + ([Rivet(x)] + RivetsAt(Range(x + 20, 240, 20)));
      out := out + [Rivet(x)];
      x := x + 20;
    }
    assert out + RivetsAt(Range(x, 240, 20)) == out + [];
  }

  /** A thick plate with two panel lines exactly for "armored", else one plate. */
  function HeavyTorso(style: string): (r: seq<Primitive>)
    ensures |r| == if Lower(style) == "armored" then 3 else 1
    ensures r[0].Rectangle? && r[0].width == if Lower(style) == "armored" then 4 else 3
    ensures Lower(style) == "armored" ==> r[1].Line? && r[2].Line?
  {
    if Lower(style) == "armored" then
      [Rectangle(140, 90, 260, 180, "gray", "black", 4),
       Line(140, 130, 260, 130, "black", 2, []),
       Line(200, 90, 200, 180, "black", 2, [])]
    else
      [Rectangle(140, 90, 260, 180, "gray", "black", 3)]
  }

  /** The two side blocks always, plus pegs and joints exactly for "robotic". */
  function HeavyArms(style: string): (r: seq<Primitive>)
    ensures |r| == if Lower(style) == "robotic" then 6 else 2
    ensures r[0] == Rectangle(110, 90, 140, 150, "dimgray", "black", 3)
    ensures r[1] == Rectangle(260, 90, 290, 150, "dimgray", "black", 3)
  {
    if Lower(style) == "robotic" then
      [Rectangle(110, 90, 140, 150, "dimgray", "black", 3),
       Rectangle(260, 90, 290, 150, "dimgray", "black", 3),
       Line(125, 90, 125, 70, "black", 2, []),
       Line(275, 90, 275, 70, "black", 2, []),
       Oval(120, 70, 130, 80, "black", "gray", 1),
       Oval(270, 70, 280, 80, "black", "gray", 1)]
    else
      [Rectangle(110, 90, 140, 150, "dimgray", "black", 3),
       Rectangle(260, 90, 290, 150, "dimgray", "black", 3)]
  }

  /** Two block legs always; wider, with ankle joints, exactly for "wide". */
  function HeavyLegs(style: string): (r: seq<Primitive>)
    ensures |r| == if Lower(style) == "wide" then 4 else 2
    ensures r[0].Rectangle? && r[1].Rectangle?
  {
    if Lower(style) == "wide" then
      [Rectangle(160, 180, 190, 260, "black", "black", 1),
       Rectangle(210, 180, 240, 260, "black", "black", 1),
       Oval(170, 255, 180, 265, "gray", "black", 1),
       Oval(220, 255, 230, 265, "gray", "black", 1)]
    else
      [Rectangle(170, 180, 190, 260, "black", "black", 1),
       Rectangle(210, 180, 230, 260, "black", "black", 1)]
  }

  // ---------------- Shared regions ----------------

  const AntennaStalk := Line(200, 40, 200, 15, "green", 2, [])

  function AntennaParts(): seq<Primitive> {
    [AntennaStalk,
     Oval(195, 10, 205, 20, "green", "black", 1),
     Oval(197, 12, 203, 18, "lightgreen", "green", 1)]
  }

  predicate ShowsAntenna(value: string) {
    Lower(value) != "none"
  }

  /** Stalk and two-tone bulb when the antenna is shown, nothing otherwise. */
  function AntennaRegion(value: string): (r: seq<Primitive>)
    ensures |r| == if ShowsAntenna(value) then 3 else 0
    ensures ShowsAntenna(value) ==> r[0] == AntennaStalk
  {
    if ShowsAntenna(value) then AntennaParts() else []
  }

  function LabelColor(v: Variant): string {
    match v
    case Humanoid => "darkblue"
    case Heavy => "darkred"
  }

  /** The robot's name at the top, in bold Helvetica 16, in its variant's colour. */
  function NameLabel(v: Variant, name: string): Primitive {
    TextItem(200, 20, name, Font("Helvetica", 16, Bold), LabelColor(v))
  }

  /** The only item drawn for a robot of any other class. */
  const UnknownLabel := TextItem(200, 200, "Unknown Robot Type", Font("Helvetica", 16, Normal), "black")

  /** The default `draw_robot` reads for an absent key. */
  function Default(v: Variant, k: StyleKey): string {
    match k
    case HeadStyle => (match v case Humanoid => "Oval" case Heavy => "Rectangle")
    case EyeColor => "black"
    case Antenna => "None"
    case _ => "Standard"
  }

  /** `components.get(key, default)` for the key's default. */
  function Look(v: Variant, c: map<string, string>, k: StyleKey): string {
    Style(c, KeyName(k), Default(v, k))
  }

  /** The items a styled region draws for a given value of its key. */
  function RegionOf(v: Variant, k: StyleKey, value: string): seq<Primitive> {
    match (v, k)
    case (Humanoid, HeadStyle) => HumanoidHead(value)
    case (Humanoid, EyeColor) => HumanoidEyes(value)
    case (Humanoid, TorsoStyle) => HumanoidTorso(value)
    case (Humanoid, ArmStyle) => HumanoidArms(value)
    case (Humanoid, Legs) => HumanoidLegs(value)
    case (Heavy, HeadStyle) => HeavyHead(value)
    case (Heavy, TorsoStyle) => HeavyTorso(value)
    case (Heavy, ArmStyle) => HeavyArms(value)
    case (Heavy, Legs) => HeavyLegs(value)
    case (Heavy, EyeColor) => []
    case (_, Antenna) => AntennaRegion(value)
  }

  /** One entry of a variant's drawing layout: a region styled by a key,
      a fixed group of items, or the name label. */
  datatype Slot = Keyed(key: StyleKey) | Fixed(items: seq<Primitive>) | NameSlot

  /** The drawing order of each variant, back to front. */
  function Layout(v: Variant): seq<Slot> {
    match v
    case Humanoid =>
      [Keyed(HeadStyle), Keyed(EyeColor), Fixed([Mouth]), Keyed(TorsoStyle),
       Keyed(ArmStyle), Keyed(Legs), Keyed(Antenna), NameSlot]
    case Heavy =>
      [Keyed(HeadStyle), Fixed(Rivets()), Keyed(TorsoStyle),
       Keyed(ArmStyle), Keyed(Legs), Keyed(Antenna), NameSlot]
  }

  function SlotItems(v: Variant, slot: Slot, c: map<string, string>, name: string): seq<Primitive> {
    match slot
    case Keyed(k) => RegionOf(v, k, Look(v, c, k))
    case Fixed(items) => items
    case NameSlot => [NameLabel(v, name)]
  }

  /** The region table: the items of every slot of the layout, in order. */
  function Regions(v: Variant, c: map<string, string>, name: string): (rs: seq<seq<Primitive>>)
    ensures |rs| == |Layout(v)|
    ensures forall j :: 0 <= j < |rs| ==> rs[j] == SlotItems(v, Layout(v)[j], c, name)
  {
    var layout := Layout(v);
    seq(|layout|, j requires 0 <= j < |layout| => SlotItems(v, layout[j], c, name))
  }

  function Flatten<T>(rs: seq<seq<T>>): seq<T> {
    if rs == [] then [] else rs[0] + Flatten(rs[1..])
  }

  /** `draw_robot`: the canvas is cleared, then every item is appended in order.
      Every picture ends with its label: the robot's name in bold Helvetica 16,
      dark blue or dark red, or the single "Unknown Robot Type" text for any
      other class. */
  function Render(kind: Option<Variant>, c: map<string, string>, name: string): (r: seq<Primitive>)
    ensures r != []
    ensures kind.Some? ==> r[|r| - 1] == NameLabel(kind.value, name)
    ensures kind.None? ==> r == [UnknownLabel]
  {
    match kind
    case None => [UnknownLabel]
    case Some(v) => LabelLast(v, c, name); Flatten(Regions(v, c, name))
  }

  // ---------------- Facts about flattening ----------------

  lemma {:induction false} FlattenSplit<T>(rs: seq<seq<T>>, i: nat)
    requires i < |rs|
    ensures Flatten(rs) == Flatten(rs[..i]) + rs[i] + Flatten(rs[i + 1..])
  {
    if i > 0 {
      FlattenSplit(rs[1..], i - 1);
      assert rs[1..][..i - 1] == rs[1..i];
      assert rs[1..][i - 1] == rs[i];
      assert rs[1..][i..] == rs[i + 1..];
      assert rs[..i] == [rs[0]] + rs[1..i];
      assert Flatten(rs[..i]) == rs[0] + Flatten(rs[1..i]);
    } else {
      assert rs[..0] == [];
    }
  }

  /** Two region tables that differ at most at position `i` flatten to the
      same list exactly when they agree at `i`. */
  lemma FlattenDiffersAt<T>(rs: seq<seq<T>>, ts: seq<seq<T>>, i: nat)
    requires |rs| == |ts| && i < |rs|
    requires forall j :: 0 <= j < |rs| && j != i ==> rs[j] == ts[j]
    ensures Flatten(rs) == Flatten(ts) <==> rs[i] == ts[i]
  {
    FlattenSplit(rs, i);
    FlattenSplit(ts, i);
    assert rs[..i] == ts[..i];
    assert rs[i + 1..] == ts[i + 1..];
    var a, b := Flatten(rs[..i]), Flatten(rs[i + 1..]);
    if Flatten(rs) == Flatten(ts) {
      assert |rs[i]| == |ts[i]|;
      assert rs[i] == (a + rs[i] + b)[|a|..|a| + |rs[i]|];
      assert ts[i] == (a + ts[i] + b)[|a|..|a| + |ts[i]|];
    }
  }

  function SumLengths<T>(rs: seq<seq<T>>): nat {
    if rs == [] then 0 else |rs[0]| + SumLengths(rs[1..])
  }

  lemma SumLengthsStep<T>(rs: seq<seq<T>>, k: nat)
    requires k < |rs|
    ensures SumLengths(rs[k..]) == |rs[k]| + SumLengths(rs[k + 1..])
  {
    assert rs[k..][1..] == rs[k + 1..];
  }

  lemma {:induction false} FlattenLength<T>(rs: seq<seq<T>>)
    ensures |Flatten(rs)| == SumLengths(rs)
  {
    if rs != [] {
      FlattenLength(rs[1..]);
    }
  }

  // ---------------- Fallback ----------------

  /** The value that switches a region away from its default drawing, for
      the regions chosen by comparing with one literal (not the antenna or
      the eyes). */
  function Trigger(v: Variant, k: StyleKey): string
    requires k != EyeColor && k != Antenna
  {
    match (v, k)
    case (Humanoid, HeadStyle) => "square"
    case (Humanoid, TorsoStyle) => "muscular"
    case (Humanoid, ArmStyle) => "hydraulic"
    case (Heavy, HeadStyle) => "dome"
    case (Heavy, TorsoStyle) => "armored"
    case (Heavy, ArmStyle) => "robotic"
    case (_, Legs) => "wide"
  }

  /** Does storing `value` under style key `k` draw anything other than
      what an absent key draws? */
  predicate SelectsStyle(v: Variant, k: StyleKey, value: string) {
    match k
    case Antenna => ShowsAntenna(value)
    case EyeColor => v == Humanoid && value != "black"
    case _ => Lower(value) == Trigger(v, k)
  }

  /** The same question for any components key: only style keys matter. */
  predicate Selects(v: Variant, key: string, value: string) {
    match KeyOf(key)
    case None => false
    case Some(k) => SelectsStyle(v, k, value)
  }

  /** Position of a key's region in the layout. */
  function RegionIndex(v: Variant, k: StyleKey): (i: nat)
    requires Keyed(k) in Layout(v)
    ensures i < |Layout(v)| && Layout(v)[i] == Keyed(k)
    ensures forall j :: 0 <= j < |Layout(v)| && j != i ==> Layout(v)[j] != Keyed(k)
  {
    match (v, k)
    case (Humanoid, HeadStyle) => 0
    case (Humanoid, EyeColor) => 1
    case (Humanoid, TorsoStyle) => 3
    case (Humanoid, ArmStyle) => 4
    case (Humanoid, Legs) => 5
    case (Humanoid, Antenna) => 6
    case (Heavy, HeadStyle) => 0
    case (Heavy, TorsoStyle) => 2
    case (Heavy, ArmStyle) => 3
    case (Heavy, Legs) => 4
    case (Heavy, Antenna) => 5
  }

  /** Only a Humanoid draws eyes, and they are its second slot. */
  lemma EyesSlot(v: Variant, j: nat)
    requires j < |Layout(v)|
    ensures Layout(v)[j] == Keyed(EyeColor) <==> v == Humanoid && j == 1
  {
    if v == Humanoid {
      var i := RegionIndex(v, EyeColor);
    } else {
      assert Keyed(EyeColor) !in Layout(v);
    }
  }

  lemma LowerStandard()
    ensures Lower("Standard") == "standard"
  {
  }

  lemma LowerNone()
    ensures Lower("None") == "none"
  {
  }

  lemma HumanoidHeadFallback(value: string)
    ensures HumanoidHead(value) == HumanoidHead("Oval") <==> Lower(value) != "square"
  {
    assert Lower("Oval") != "square";
  }

  lemma HumanoidTorsoFallback(value: string)
    ensures HumanoidTorso(value) == HumanoidTorso("Standard") <==> Lower(value) != "muscular"
  {
    LowerStandard();
  }

  lemma HumanoidArmsFallback(value: string)
    ensures HumanoidArms(value) == HumanoidArms("Standard") <==> Lower(value) != "hydraulic"
  {
    LowerStandard();
  }

  lemma HumanoidLegsFallback(value: string)
    ensures HumanoidLegs(value) == HumanoidLegs("Standard") <==> Lower(value) != "wide"
  {
    LowerStandard();
  }

  lemma HeavyHeadFallback(value: string)
    ensures HeavyHead(value) == HeavyHead("Rectangle") <==> Lower(value) != "dome"
  {
    if Lower(value) == "dome" {
      assert |HeavyHead(value)| == 2;
    } else {
      assert |Lower("Rectangle")| == 9;
    }
  }

  lemma HeavyTorsoFallback(value: string)
    ensures HeavyTorso(value) == HeavyTorso("Standard") <==> Lower(value) != "armored"
  {
    LowerStandard();
  }

  lemma HeavyArmsFallback(value: string)
    ensures HeavyArms(value) == HeavyArms("Standard") <==> Lower(value) != "robotic"
  {
    LowerStandard();
  }

  lemma HeavyLegsFallback(value: string)
    ensures HeavyLegs(value) == HeavyLegs("Standard") <==> Lower(value) != "wide"
  {
    LowerStandard();
  }

  lemma AntennaFallback(value: string)
    ensures AntennaRegion(value) == AntennaRegion("None") <==> !ShowsAntenna(value)
  {
    LowerNone();
  }

  lemma HumanoidRegionFallback(k: StyleKey, value: string)
    requires k != EyeColor
    ensures RegionOf(Humanoid, k, value) == RegionOf(Humanoid, k, Default(Humanoid, k))
        <==> !SelectsStyle(Humanoid, k, value)
  {
    match k
    case HeadStyle => HumanoidHeadFallback(value);
    case TorsoStyle => HumanoidTorsoFallback(value);
    case ArmStyle => HumanoidArmsFallback(value);
    case Legs => HumanoidLegsFallback(value);
    case Antenna => AntennaFallback(value);
  }

  lemma HeavyRegionFallback(k: StyleKey, value: string)
    requires k != EyeColor
    ensures RegionOf(Heavy, k, value) == RegionOf(Heavy, k, Default(Heavy, k))
        <==> !SelectsStyle(Heavy, k, value)
  {
    match k
    case HeadStyle => HeavyHeadFallback(value);
    case TorsoStyle => HeavyTorsoFallback(value);
    case ArmStyle => HeavyArmsFallback(value);
    case Legs => HeavyLegsFallback(value);
    case Antenna => AntennaFallback(value);
  }

  /** A styled region draws its default picture exactly for the values that
      do not select its other branch. */
  lemma RegionFallback(v: Variant, k: StyleKey, value: string)
    requires Keyed(k) in Layout(v)
    ensures RegionOf(v, k, value) == RegionOf(v, k, Default(v, k)) <==> !SelectsStyle(v, k, value)
  {
    if k != EyeColor {
      if v == Humanoid {
        HumanoidRegionFallback(k, value);
      } else {
        HeavyRegionFallback(k, value);
      }
    }
  }

  lemma KeyNameInjective(k: StyleKey, l: StyleKey)
    ensures KeyName(k) == KeyName(l) <==> k == l
  {
    if k != l {
      assert KeyName(k)[0] != KeyName(l)[0] || |KeyName(k)| != |KeyName(l)|;
    }
  }

  /** Slots whose key is not `key` draw the same whatever `key` holds. */
  lemma OtherSlotsAgree(v: Variant, c: map<string, string>, name: string, key: string, value: string)
    ensures var rs, ts := Regions(v, c[key := value], name), Regions(v, c - {key}, name);
      forall j :: 0 <= j < |rs| && !(Layout(v)[j].Keyed? && KeyName(Layout(v)[j].key) == key) ==> rs[j] == ts[j]
  {
    var c1, c0 := c[key := value], c - {key};
    forall j | 0 <= j < |Layout(v)| && !(Layout(v)[j].Keyed? && KeyName(Layout(v)[j].key) == key)
      ensures SlotItems(v, Layout(v)[j], c1, name) == SlotItems(v, Layout(v)[j], c0, name)
    {
      match Layout(v)[j]
      case Keyed(k) => assert Look(v, c1, k) == Look(v, c0, k);
      case Fixed(_) =>
      case NameSlot =>
    }
  }

  /** Unrecognised values fall back: storing `value` under `key` renders
      exactly as leaving the key out, unless `value` selects the region's
      other branch. Keys other than the six style keys never matter. */
  lemma ValueFallback(v: Variant, c: map<string, string>, name: string, key: string, value: string)
    ensures Render(Some(v), c[key := value], name) == Render(Some(v), c - {key}, name)
        <==> !Selects(v, key, value)
  {
    RegionsFallback(v, c, name, key, value);
  }

  lemma RegionsFallback(v: Variant, c: map<string, string>, name: string, key: string, value: string)
    ensures Flatten(Regions(v, c[key := value], name)) == Flatten(Regions(v, c - {key}, name))
        <==> !Selects(v, key, value)
  {
    var c1, c0 := c[key := value], c - {key};
    var rs, ts := Regions(v, c1, name), Regions(v, c0, name);
    OtherSlotsAgree(v, c, name, key, value);
    match KeyOf(key)
    case None =>
      assert rs == ts;
    case Some(k) =>
      forall j | 0 <= j < |rs| && Layout(v)[j].Keyed? && KeyName(Layout(v)[j].key) == key
        ensures Layout(v)[j] == Keyed(k)
      {
        KeyNameInjective(Layout(v)[j].key, k);
      }
      if Keyed(k) in Layout(v) {
        var i := RegionIndex(v, k);
        FlattenDiffersAt(rs, ts, i);
        RegionFallback(v, k, value);
      } else {
        assert rs == ts;
      }
  }

  /** The renderer reads nothing but the six style keys: components that
      agree on them draw the same picture. */
  lemma RenderReadsStyleKeys(kind: Option<Variant>, c: map<string, string>, d: map<string, string>, name: string)
    requires forall k :: (KeyName(k) in c <==> KeyName(k) in d) && (KeyName(k) in c ==> c[KeyName(k)] == d[KeyName(k)])
    ensures Render(kind, c, name) == Render(kind, d, name)
  {
    if kind.Some? {
      var v := kind.value;
      var rs, ts := Regions(v, c, name), Regions(v, d, name);
      forall j | 0 <= j < |rs| ensures rs[j] == ts[j] {
        match Layout(v)[j]
        case Keyed(k) => assert Look(v, c, k) == Look(v, d, k);
        case Fixed(_) =>
        case NameSlot =>
      }
      assert rs == ts;
    }
  }

  lemma FlattenLengthOf<T>(rs: seq<seq<T>>)
    requires 7 <= |rs| <= 8
    ensures |Flatten(rs)| == |rs[0]| + |rs[1]| + |rs[2]| + |rs[3]| + |rs[4]| + |rs[5]| + |rs[6]|
      + (if |rs| == 8 then |rs[7]| else 0)
  {
    FlattenLength(rs);
    assert rs[0..] == rs;
    SumLengthsStep(rs, 0); SumLengthsStep(rs, 1); SumLengthsStep(rs, 2); SumLengthsStep(rs, 3);
    SumLengthsStep(rs, 4); SumLengthsStep(rs, 5); SumLengthsStep(rs, 6);
    if |rs| == 8 {
      SumLengthsStep(rs, 7);
    }
    assert rs[|rs|..] == [];
  }

  /** One slot of the Humanoid region table. */
  lemma HumanoidSlot(c: map<string, string>, name: string, j: nat)
    requires j < 8
    ensures |Regions(Humanoid, c, name)| == 8
    ensures Regions(Humanoid, c, name)[j] == match j
      case 0 => HumanoidHead(Look(Humanoid, c, HeadStyle))
      case 1 => HumanoidEyes(Look(Humanoid, c, EyeColor))
      case 2 => [Mouth]
      case 3 => HumanoidTorso(Look(Humanoid, c, TorsoStyle))
      case 4 => HumanoidArms(Look(Humanoid, c, ArmStyle))
      case 5 => HumanoidLegs(Look(Humanoid, c, Legs))
      case 6 => AntennaRegion(Look(Humanoid, c, Antenna))
      case _ => [NameLabel(Humanoid, name)]
  {
    var rs := Regions(Humanoid, c, name);
    assert rs[j] == SlotItems(Humanoid, Layout(Humanoid)[j], c, name);
    if j == 0 {
      assert Layout(Humanoid)[0] == Keyed(HeadStyle);
    } else if j == 1 {
      assert Layout(Humanoid)[1] == Keyed(EyeColor);
    } else if j == 2 {
      assert Layout(Humanoid)[2] == Fixed([Mouth]);
    } else if j == 3 {
      assert Layout(Humanoid)[3] == Keyed(TorsoStyle);
    } else if j == 4 {
      assert Layout(Humanoid)[4] == Keyed(ArmStyle);
    } else if j == 5 {
      assert Layout(Humanoid)[5] == Keyed(Legs);
    } else if j == 6 {
      assert Layout(Humanoid)[6] == Keyed(Antenna);
    } else {
      assert Layout(Humanoid)[7] == NameSlot;
    }
  }

  /** One slot of the Heavy region table. */
  lemma HeavySlot(c: map<string, string>, name: string, j: nat)
    requires j < 7
    ensures |Regions(Heavy, c, name)| == 7
    ensures Regions(Heavy, c, name)[j] == match j
      case 0 => HeavyHead(Look(Heavy, c, HeadStyle))
      case 1 => Rivets()
      case 2 => HeavyTorso(Look(Heavy, c, TorsoStyle))
      case 3 => HeavyArms(Look(Heavy, c, ArmStyle))
      case 4 => HeavyLegs(Look(Heavy, c, Legs))
      case 5 => AntennaRegion(Look(Heavy, c, Antenna))
      case _ => [NameLabel(Heavy, name)]
  {
    var rs := Regions(Heavy, c, name);
    assert rs[j] == SlotItems(Heavy, Layout(Heavy)[j], c, name);
    if j == 0 {
      assert Layout(Heavy)[0] == Keyed(HeadStyle);
    } else if j == 1 {
      assert Layout(Heavy)[1] == Fixed(Rivets());
    } else if j == 2 {
      assert Layout(Heavy)[2] == Keyed(TorsoStyle);
    } else if j == 3 {
      assert Layout(Heavy)[3] == Keyed(ArmStyle);
    } else if j == 4 {
      assert Layout(Heavy)[4] == Keyed(Legs);
    } else if j == 5 {
      assert Layout(Heavy)[5] == Keyed(Antenna);
    } else {
      assert Layout(Heavy)[6] == NameSlot;
    }
  }

  /** The Humanoid region table, slot by slot. */
  lemma HumanoidRegions(c: map<string, string>, name: string)
    ensures var rs := Regions(Humanoid, c, name);
      && |rs| == 8
      && rs[0] == HumanoidHead(Look(Humanoid, c, HeadStyle))
      && rs[1] == HumanoidEyes(Look(Humanoid, c, EyeColor))
      && rs[2] == [Mouth]
      && rs[3] == HumanoidTorso(Look(Humanoid, c, TorsoStyle))
      && rs[4] == HumanoidArms(Look(Humanoid, c, ArmStyle))
      && rs[5] == HumanoidLegs(Look(Humanoid, c, Legs))
      && rs[6] == AntennaRegion(Look(Humanoid, c, Antenna))
      && rs[7] == [NameLabel(Humanoid, name)]
  {
    HumanoidSlot(c, name, 0); HumanoidSlot(c, name, 1); HumanoidSlot(c, name, 2); HumanoidSlot(c, name, 3);
    HumanoidSlot(c, name, 4); HumanoidSlot(c, name, 5); HumanoidSlot(c, name, 6); HumanoidSlot(c, name, 7);
  }

  /** The Heavy region table, slot by slot. */
  lemma HeavyRegions(c: map<string, string>, name: string)
    ensures var rs := Regions(Heavy, c, name);
      && |rs| == 7
      && rs[0] == HeavyHead(Look(Heavy, c, HeadStyle))
      && rs[1] == Rivets()
      && rs[2] == HeavyTorso(Look(Heavy, c, TorsoStyle))
      && rs[3] == HeavyArms(Look(Heavy, c, ArmStyle))
      && rs[4] == HeavyLegs(Look(Heavy, c, Legs))
      && rs[5] == AntennaRegion(Look(Heavy, c, Antenna))
      && rs[6] == [NameLabel(Heavy, name)]
  {
    HeavySlot(c, name, 0); HeavySlot(c, name, 1); HeavySlot(c, name, 2); HeavySlot(c, name, 3);
    HeavySlot(c, name, 4); HeavySlot(c, name, 5); HeavySlot(c, name, 6);
  }

  /** Exact item counts of a Humanoid picture for every combination of branches. */
  lemma HumanoidCount(c: map<string, string>, name: string)
    ensures |Render(Some(Humanoid), c, name)| ==
      2 + 4 + 1
      + (if Lower(Look(Humanoid, c, TorsoStyle)) == "muscular" then 3 else 1)
      + 4 + 4
      + (if ShowsAntenna(Look(Humanoid, c, Antenna)) then 3 else 0)
      + 1
  {
    FlattenLengthOf(Regions(Humanoid, c, name));
    HumanoidRegions(c, name);
  }

  /** Exact item counts of a Heavy picture for every combination of branches. */
  lemma HeavyCount(c: map<string, string>, name: string)
    ensures |Render(Some(Heavy), c, name)| ==
      (if Lower(Look(Heavy, c, HeadStyle)) == "dome" then 2 else 1)
      + 4
      + (if Lower(Look(Heavy, c, TorsoStyle)) == "armored" then 3 else 1)
      + (if Lower(Look(Heavy, c, ArmStyle)) == "robotic" then 6 else 2)
      + (if Lower(Look(Heavy, c, Legs)) == "wide" then 4 else 2)
      + (if ShowsAntenna(Look(Heavy, c, Antenna)) then 3 else 0)
      + 1
  {
    FlattenLengthOf(Regions(Heavy, c, name));
    HeavyRegions(c, name);
  }

  // ---------------- Fixed parts of the picture ----------------

  lemma FlattenFront<T>(rs: seq<seq<T>>)
    requires 2 <= |rs|
    ensures Flatten(rs) == rs[0] + rs[1] + Flatten(rs[2..])
  {
    assert rs[1..][1..] == rs[2..];
  }

  lemma FlattenLastTwo<T>(rs: seq<seq<T>>)
    requires 2 <= |rs|
    ensures Flatten(rs) == Flatten(rs[..|rs| - 2]) + rs[|rs| - 2] + rs[|rs| - 1]
  {
    var n := |rs|;
    FlattenSplit(rs, n - 2);
    assert rs[n - 1..] == [rs[n - 1]];
    assert Flatten([rs[n - 1]]) == rs[n - 1] + Flatten([]);
  }

  lemma FlattenBack<T>(rs: seq<seq<T>>)
    requires rs != []
    ensures Flatten(rs) == Flatten(rs[..|rs| - 1]) + rs[|rs| - 1]
  {
    FlattenSplit(rs, |rs| - 1);
    assert rs[|rs|..] == [];
  }

  /** The last two slots of every layout: the antenna region, then the label. */
  lemma LastSlots(v: Variant, c: map<string, string>, name: string)
    ensures var rs := Regions(v, c, name);
      && 2 <= |rs|
      && rs[|rs| - 2] == AntennaRegion(Look(v, c, Antenna))
      && rs[|rs| - 1] == [NameLabel(v, name)]
  {
    var rs := Regions(v, c, name);
    var n := |Layout(v)|;
    assert Layout(v)[n - 2] == Keyed(Antenna) && Layout(v)[n - 1] == NameSlot;
    assert rs[n - 2] == SlotItems(v, Layout(v)[n - 2], c, name);
    assert rs[n - 1] == SlotItems(v, Layout(v)[n - 1], c, name);
  }

  lemma LabelLast(v: Variant, c: map<string, string>, name: string)
    ensures var r := Flatten(Regions(v, c, name));
      r != [] && r[|r| - 1] == NameLabel(v, name)
  {
    var rs := Regions(v, c, name);
    var n := |Layout(v)|;
    assert Layout(v)[n - 1] == NameSlot;
    assert rs[n - 1] == [NameLabel(v, name)];
    FlattenBack(rs);
  }

  /** A Heavy head, dome or not, is followed by exactly four rivets at
      x = 160, 180, 200 and 220. */
  lemma RivetsFollowHeavyHead(c: map<string, string>, name: string)
    ensures var r := Render(Some(Heavy), c, name);
      var h := if Lower(Look(Heavy, c, HeadStyle)) == "dome" then 2 else 1;
      && h + 4 <= |r|
      && r[h..h + 4] == [Rivet(160), Rivet(180), Rivet(200), Rivet(220)]
  {
    var rs := Regions(Heavy, c, name);
    assert rs[1] == Rivets();
    FlattenFront(rs);
    var r := Flatten(rs);
    assert |rs[0]| == (if Lower(Look(Heavy, c, HeadStyle)) == "dome" then 2 else 1) by {}
    assert r[|rs[0]|..|rs[0]| + |rs[1]|] == rs[1];
  }

  /** A Humanoid's eyes: white sockets, and both irises filled and outlined
      with the stored eye colour as it is, "black" when none is stored. */
  lemma HumanoidEyeColors(c: map<string, string>, name: string)
    ensures var r := Render(Some(Humanoid), c, name);
      var color := if "eye_color" in c then c["eye_color"] else "black";
      && 6 <= |r|
      && r[2] == Oval(185, 60, 195, 70, "white", "black", 1)
      && r[3] == Oval(188, 63, 192, 67, color, color, 1)
      && r[4] == Oval(205, 60, 215, 70, "white", "black", 1)
      && r[5] == Oval(208, 63, 212, 67, color, color, 1)
  {
    var r := Render(Some(Humanoid), c, name);
    EyesInPicture(c, name);
    assert r[2..6] == HumanoidEyes(Look(Humanoid, c, EyeColor));
  }

  /** The eyes are the third to sixth items of a Humanoid picture. */
  lemma EyesInPicture(c: map<string, string>, name: string)
    ensures var r := Flatten(Regions(Humanoid, c, name));
      6 <= |r| && r[2..6] == HumanoidEyes(Look(Humanoid, c, EyeColor))
  {
    var rs := Regions(Humanoid, c, name);
    HumanoidSlot(c, name, 0);
    HumanoidSlot(c, name, 1);
    FlattenFront(rs);
    assert |rs[0]| == 2 && |rs[1]| == 4;
    assert Flatten(rs)[2..6] == rs[1];
  }

  /** `x` is missing from a flattened table when it is missing from every entry. */
  lemma {:induction false} NotInFlatten<T>(x: T, rs: seq<seq<T>>)
    requires forall j :: 0 <= j < |rs| ==> x !in rs[j]
    ensures x !in Flatten(rs)
  {
    if rs != [] {
      assert x !in rs[0];
      NotInFlatten(x, rs[1..]);
    }
  }

  lemma StalkOnlyInAntenna(v: Variant, k: StyleKey, value: string)
    requires k != Antenna
    ensures AntennaStalk !in RegionOf(v, k, value)
  {
  }

  /** A picture is its other regions, then the antenna region, then the label. */
  lemma AntennaBeforeLabel(v: Variant, c: map<string, string>, name: string)
    ensures var rs := Regions(v, c, name);
      Render(Some(v), c, name) == Flatten(rs[..|rs| - 2]) + AntennaRegion(Look(v, c, Antenna)) + [NameLabel(v, name)]
  {
    LastSlots(v, c, name);
    FlattenLastTwo(Regions(v, c, name));
  }

  lemma StalkOnlyInAntennaSlot(v: Variant, j: nat, c: map<string, string>, name: string)
    requires j < |Layout(v)| && Layout(v)[j] != Keyed(Antenna)
    ensures AntennaStalk !in SlotItems(v, Layout(v)[j], c, name)
  {
    match Layout(v)[j]
    case Keyed(k) => StalkOnlyInAntenna(v, k, Look(v, c, k));
    case Fixed(_) =>
    case NameSlot =>
  }

  /** No slot before the antenna region draws the stalk. */
  lemma NoStalkBeforeAntenna(v: Variant, c: map<string, string>, name: string)
    ensures var rs := Regions(v, c, name);
      2 <= |rs| && AntennaStalk !in Flatten(rs[..|rs| - 2])
  {
    var rs := Regions(v, c, name);
    var i := RegionIndex(v, Antenna);
    var front := rs[..|rs| - 2];
    forall j | 0 <= j < |front|
      ensures AntennaStalk !in front[j]
    {
      assert front[j] == SlotItems(v, Layout(v)[j], c, name);
      StalkOnlyInAntennaSlot(v, j, c, name);
    }
    NotInFlatten(AntennaStalk, front);
  }

  /** The antenna (stalk and two-tone bulb, just before the label) is drawn
      exactly when the stored value, lower-cased, is not "none"; an absent
      key counts as "None". */
  lemma AntennaDrawn(v: Variant, c: map<string, string>, name: string)
    ensures var r := Render(Some(v), c, name);
      && (ShowsAntenna(Look(v, c, Antenna)) <==> AntennaStalk in r)
      && (ShowsAntenna(Look(v, c, Antenna)) ==> 4 <= |r| && r[|r| - 4..|r| - 1] == AntennaParts())
  {
    AntennaBeforeLabel(v, c, name);
    NoStalkBeforeAntenna(v, c, name);
    assert AntennaParts()[0] == AntennaStalk;
  }
}
