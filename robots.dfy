/** The construction pipeline: robots, part catalogs, builders, the director
    and the robot factories, with the event log they write to. */
module Robots {

  /** The two concrete robot classes, `HumanoidRobot` and `HeavyRobot`. */
  datatype Variant = Humanoid | Heavy

  /** The three body regions a builder fills in, in the director's order. */
  datatype Step = HeadStep | TorsoStep | LimbsStep

  const HeadKey := "head"
  const TorsoKey := "torso"
  const LimbsKey := "limbs"

  /** The `components` key a build step writes. */
  function StepKey(step: Step): string {
    match step
    case HeadStep => HeadKey
    case TorsoStep => TorsoKey
    case LimbsStep => LimbsKey
  }

  /** The part catalogs `HumanoidPartFactory` and `HeavyPartFactory`. */
  datatype PartFactory = HumanoidPartFactory | HeavyPartFactory {

    function CreateHead(): (r: string)
      ensures r != "" && r != CreateTorso() && r != CreateLimbs()
    {
      match this
      case HumanoidPartFactory => "Smart Face"
      case HeavyPartFactory => "Armored Head"
    }

    function CreateTorso(): (r: string)
      ensures r != "" && r != CreateLimbs()
    {
      match this
      case HumanoidPartFactory => "Sleek Body"
      case HeavyPartFactory => "Reinforced Frame"
    }

    function CreateLimbs(): (r: string)
      ensures r != ""
    {
      match this
      case HumanoidPartFactory => "Agile Limbs"
      case HeavyPartFactory => "Robust Limbs"
    }

    /** The label the catalog supplies for one build step. */
    function Part(step: Step): string {
      match step
      case HeadStep => CreateHead()
      case TorsoStep => CreateTorso()
      case LimbsStep => CreateLimbs()
    }
  }

  /** The catalog each variant's builder uses. */
  function PartsFor(v: Variant): PartFactory {
    match v
    case Humanoid => HumanoidPartFactory
    case Heavy => HeavyPartFactory
  }

  /** Every catalog supplies three non-empty, pairwise distinct labels, and
      the two catalogs share none. */
  lemma CatalogLabels(p: PartFactory, q: PartFactory, s: Step, t: Step)
    ensures p.Part(s) != ""
    ensures p.Part(s) == q.Part(t) <==> p == q && s == t
  {
  }

  /** The effect of one build step on a `components` dictionary: the step
      writes its own key and leaves every other key as it was. */
  function Install(m: map<string, string>, parts: PartFactory, step: Step): (r: map<string, string>)
    ensures forall k :: k in r <==> k in m || k == StepKey(step)
    ensures StepKey(step) in r && r[StepKey(step)] == parts.Part(step)
    ensures forall k :: k in m && k != StepKey(step) ==> k in r && r[k] == m[k]
  {
    m[StepKey(step) := parts.Part(step)]
  }

  /** Repeating a build step changes nothing more. */
  lemma InstallIdempotent(m: map<string, string>, parts: PartFactory, s: Step)
    ensures Install(Install(m, parts, s), parts, s) == Install(m, parts, s)
  {
  }

  /** Two build steps give the same result in either order. */
  lemma InstallCommutes(m: map<string, string>, parts: PartFactory, s: Step, t: Step)
    ensures Install(Install(m, parts, s), parts, t) == Install(Install(m, parts, t), parts, s)
  {
  }

  /** The order in which the director runs the build steps. */
  const DirectorOrder := [HeadStep, TorsoStep, LimbsStep]

  /** The effect of running `steps` in order. */
  function InstallAll(m: map<string, string>, parts: PartFactory, steps: seq<Step>): map<string, string>
    decreases steps
  {
    if steps == [] then m else InstallAll(Install(m, parts, steps[0]), parts, steps[1..])
  }

  /** Running the director's steps is installing head, then torso, then limbs. */
  lemma InstallInOrder(m: map<string, string>, parts: PartFactory)
    ensures InstallAll(m, parts, DirectorOrder) ==
      Install(Install(Install(m, parts, HeadStep), parts, TorsoStep), parts, LimbsStep)
  {
    var h := Install(m, parts, HeadStep);
    var t := Install(h, parts, TorsoStep);
    var l := Install(t, parts, LimbsStep);
    assert DirectorOrder[1..] == [TorsoStep, LimbsStep];
    assert [TorsoStep, LimbsStep][1..] == [LimbsStep];
    assert [LimbsStep][1..] == [];
    calc {
      InstallAll(m, parts, DirectorOrder);
      InstallAll(h, parts, [TorsoStep, LimbsStep]);
      InstallAll(t, parts, [LimbsStep]);
      InstallAll(l, parts, []);
    }
  }

  /** The components of a freshly constructed robot. Construction is
      complete: exactly the keys head, torso and limbs, each holding the
      catalog's label for that region. */
  function Assembled(parts: PartFactory): (r: map<string, string>)
    ensures forall k :: k in r <==> k == HeadKey || k == TorsoKey || k == LimbsKey
    ensures forall s: Step :: StepKey(s) in r && r[StepKey(s)] == parts.Part(s)
  {
    InstallInOrder(map[], parts);
    var r := InstallAll(map[], parts, DirectorOrder);
    assert r[HeadKey] == parts.Part(HeadStep) && r[TorsoKey] == parts.Part(TorsoStep)
        && r[LimbsKey] == parts.Part(LimbsStep);
    r
  }

  /** The components each factory's robots start with. */
  lemma AssembledParts()
    ensures Assembled(HumanoidPartFactory) ==
      map[HeadKey := "Smart Face", TorsoKey := "Sleek Body", LimbsKey := "Agile Limbs"]
    ensures Assembled(HeavyPartFactory) ==
      map[HeadKey := "Armored Head", TorsoKey := "Reinforced Frame", LimbsKey := "Robust Limbs"]
  {
    InstallInOrder(map[], HumanoidPartFactory);
    InstallInOrder(map[], HeavyPartFactory);
  }

  function VariantWord(v: Variant): string {
    match v
    case Humanoid => "Humanoid"
    case Heavy => "Heavy"
  }

  function FactoryMessage(v: Variant, name: string): string {
    "Creating " + VariantWord(v) + " Robot: " + name
  }

  function BuilderMessage(v: Variant): string {
    VariantWord(v) + "RobotBuilder initialized"
  }

  const DirectorMessage := "RobotDirector initialized"

  function StepMessage(v: Variant, step: Step): string {
    var subject := match v case Humanoid => "humanoid" case Heavy => "heavy robot";
    var region := match step case HeadStep => "head" case TorsoStep => "torso" case LimbsStep => "limbs";
    "Built " + subject + " " + region
  }

  /** The messages one `create_robot` call logs, in order. */
  function CreationEvents(v: Variant, name: string): seq<string> {
    [FactoryMessage(v, name), BuilderMessage(v), DirectorMessage,
     StepMessage(v, HeadStep), StepMessage(v, TorsoStep), StepMessage(v, LimbsStep)]
  }

  /** The process-wide event log, as the sequence of messages passed to `log`. */
  class Logger {
    var messages: seq<string>

    constructor ()
      ensures messages == []
    {
      messages := [];
    }

    method Log(message: string)
      modifies this
      ensures messages == old(messages) + [message]
    {
      messages := messages + [message];
    }
  }

  /** A robot: its class is the variant, fixed at creation; name and
      components change in place. */
  class Robot {
    const variant: Variant
    var name: string
    var components: map<string, string>

    constructor (variant: Variant, name: string)
      ensures this.variant == variant && this.name == name && components == map[]
    {
      this.variant := variant;
      this.name := name;
      components := map[];
    }

    /** `copy.deepcopy(self)`: a new robot of the same class with the same
        name and an independent copy of the components. */
    method Clone() returns (r: Robot)
      ensures fresh(r)
      ensures r.variant == variant && r.name == name && r.components == components
    {
      r := new Robot(variant, name);
      r.components := components;
    }
  }

  /** `HumanoidRobotBuilder` / `HeavyRobotBuilder`: one robot under
      construction and the catalog its parts come from. */
  class RobotBuilder {
    const variant: Variant
    const parts: PartFactory
    const robot: Robot
    const logger: Logger

    constructor (variant: Variant, name: string, logger: Logger)
      modifies logger
      ensures this.variant == variant && parts == PartsFor(variant) && this.logger == logger
      ensures fresh(robot) && robot.variant == variant && robot.name == name && robot.components == map[]
      ensures logger.messages == old(logger.messages) + [BuilderMessage(variant)]
    {
      this.variant := variant;
      parts := PartsFor(variant);
      robot := new Robot(variant, name);
      this.logger := logger;
      new;
      logger.Log(BuilderMessage(variant));
    }

    method BuildHead()
      modifies robot, logger
      ensures robot.name == old(robot.name)
      ensures robot.components == Install(old(robot.components), parts, HeadStep)
      ensures logger.messages == old(logger.messages) + [StepMessage(variant, HeadStep)]
    {
      robot.components := robot.components[HeadKey := parts.CreateHead()];
      logger.Log(StepMessage(variant, HeadStep));
    }

    method BuildTorso()
      modifies robot, logger
      ensures robot.name == old(robot.name)
      ensures robot.components == Install(old(robot.components), parts, TorsoStep)
      ensures logger.messages == old(logger.messages) + [StepMessage(variant, TorsoStep)]
    {
      robot.components := robot.components[TorsoKey := parts.CreateTorso()];
      logger.Log(StepMessage(variant, TorsoStep));
    }

    method BuildLimbs()
      modifies robot, logger
      ensures robot.name == old(robot.name)
      ensures robot.components == Install(old(robot.components), parts, LimbsStep)
      ensures logger.messages == old(logger.messages) + [StepMessage(variant, LimbsStep)]
    {
      robot.components := robot.components[LimbsKey := parts.CreateLimbs()];
      logger.Log(StepMessage(variant, LimbsStep));
    }

    /** The builder's own robot object, not a copy. */
    function GetRobot(): (r: Robot)
      ensures r == robot
    {
      robot
    }
  }

  /** `RobotDirector`: the one place the order head, torso, limbs is fixed. */
  class RobotDirector {
    const builder: RobotBuilder

    constructor (builder: RobotBuilder)
      modifies builder.logger
      ensures this.builder == builder
      ensures builder.logger.messages == old(builder.logger.messages) + [DirectorMessage]
    {
      this.builder := builder;
      new;
      builder.logger.Log(DirectorMessage);
    }

    /** Runs each build step once, head then torso then limbs (the log
        records that order), and returns the builder's robot. */
    method ConstructRobot() returns (r: Robot)
      modifies builder.robot, builder.logger
      ensures r == builder.robot && r.name == old(r.name)
      ensures r.components ==
        Install(Install(Install(old(r.components), builder.parts, HeadStep), builder.parts, TorsoStep), builder.parts, LimbsStep)
      ensures builder.logger.messages == old(builder.logger.messages) +
        [StepMessage(builder.variant, HeadStep), StepMessage(builder.variant, TorsoStep), StepMessage(builder.variant, LimbsStep)]
    {
      builder.BuildHead();
      builder.BuildTorso();
      builder.BuildLimbs();
      r := builder.GetRobot();
    }
  }

  /** `HumanoidRobotFactory` / `HeavyRobotFactory`. */
  class RobotFactory {
    const variant: Variant
    const logger: Logger

    constructor (variant: Variant, logger: Logger)
      ensures this.variant == variant && this.logger == logger
    {
      this.variant := variant;
      this.logger := logger;
    }

    /** A new robot of the factory's variant, named exactly `name`, holding
        its catalog's three parts and nothing else. */
    method CreateRobot(name: string) returns (r: Robot)
      modifies logger
      ensures fresh(r)
      ensures r.variant == variant && r.name == name
      ensures r.components == Assembled(PartsFor(variant))
      ensures logger.messages == old(logger.messages) + CreationEvents(variant, name)
    {
      logger.Log(FactoryMessage(variant, name));
      var builder := new RobotBuilder(variant, name, logger);
      var director := new RobotDirector(builder);
      r := director.ConstructRobot();
      InstallInOrder(map[], PartsFor(variant));
    }
  }
}
