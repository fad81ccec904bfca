/** The game's data model: the enumerations and records of types.ts.
    Food amounts and food deltas are integer tenths of a kilogram. */
module Types {
  import opened Wrappers

  /** The seven phases of a session. */
  datatype GamePhase =
    | Menu
    | Travel
    | EventGeneration
    | EventDecision
    | EventResolution
    | GameOver
    | Victory

  /** The environment, which only flavours the narrative. */
  datatype Biome =
    | AridShrubland
    | TemperateForest
    | IceSheet
    | ExtremeDesert
    | TropicalRainforest

  /** The four fixed crew roles. */
  datatype Role = Leader | Doctor | Soldier | Cook

  /** The four crew statuses; a resolution's new status is drawn from the same set. */
  datatype Status = Healthy | Injured | Dead | Starving

  datatype CrewMember = CrewMember(id: string, name: string, role: Role, status: Status)

  /** The four kinds of choice an event may offer. */
  datatype ChoiceType = Aggressive | Diplomatic | Sacrifice | Neutral

  datatype Choice = Choice(id: string, text: string, kind: ChoiceType, riskLabel: string)

  datatype GameEvent = GameEvent(
    title: string,
    description: string,
    imageUrl: Option<string>,
    choices: seq<Choice>)

  /** One entry of a resolution's crew changes: the crew index it names and the status to write. */
  datatype StatusChange = StatusChange(memberIndex: int, newStatus: Status)

  /** The outcome of a choice; foodChange is in tenths of a kilogram. */
  datatype EventResolution = Resolution(
    outcomeText: string,
    foodChange: int,
    moodChange: int,
    distanceChange: int,
    crewStatusChanges: seq<StatusChange>)

  /** The whole session record; food is in tenths of a kilogram, and
      currentEvent and lastResolution are independently nullable. */
  datatype GameState = GameState(
    phase: GamePhase,
    day: int,
    distanceTraveled: int,
    distanceTotal: int,
    food: int,
    mood: int,
    crew: seq<CrewMember>,
    biome: Biome,
    logs: seq<string>,
    currentEvent: Option<GameEvent>,
    lastResolution: Option<EventResolution>)

  /** Every phase, in declaration order. */
  const AllPhases: seq<GamePhase> :=
    [Menu, Travel, EventGeneration, EventDecision, EventResolution, GameOver, Victory]

  /** The string value of each phase of the enum. */
  function PhaseName(p: GamePhase): string
  {
    match p
    case Menu => "MENU"
    case Travel => "TRAVEL"
    case EventGeneration => "EVENT_GENERATION"
    case EventDecision => "EVENT_DECISION"
    case EventResolution => "EVENT_RESOLUTION"
    case GameOver => "GAME_OVER"
    case Victory => "VICTORY"
  }

  /** The phase whose string value is s, if any. */
  function ParsePhase(s: string): (r: Option<GamePhase>)
    ensures forall p :: r == Some(p) <==> PhaseName(p) == s
  {
    if s == "MENU" then Some(Menu)
    else if s == "TRAVEL" then Some(Travel)
    else if s == "EVENT_GENERATION" then Some(EventGeneration)
    else if s == "EVENT_DECISION" then Some(EventDecision)
    else if s == "EVENT_RESOLUTION" then Some(EventResolution)
    else if s == "GAME_OVER" then Some(GameOver)
    else if s == "VICTORY" then Some(Victory)
    else None
  }

  /** There are exactly seven phases, each listed once in AllPhases, and
      their string values are pairwise different. */
  lemma PhasesEnumerated()
    ensures |AllPhases| == 7
    ensures forall p :: p in AllPhases
    ensures forall i, j :: 0 <= i < j < |AllPhases| ==> PhaseName(AllPhases[i]) != PhaseName(AllPhases[j])
  {
    forall p: GamePhase ensures p in AllPhases {
      match p
      case Menu => assert AllPhases[0] == p;
      case Travel => assert AllPhases[1] == p;
      case EventGeneration => assert AllPhases[2] == p;
      case EventDecision => assert AllPhases[3] == p;
      case EventResolution => assert AllPhases[4] == p;
      case GameOver => assert AllPhases[5] == p;
      case Victory => assert AllPhases[6] == p;
    }
  }

  /** The string value of each biome of the enum. */
  function BiomeName(b: Biome): string
  {
    match b
    case AridShrubland => "干旱灌木林"
    case TemperateForest => "温带森林"
    case IceSheet => "大冰盖"
    case ExtremeDesert => "极端沙漠"
    case TropicalRainforest => "热带雨林"
  }

  /** The label a role carries in the crew record. */
  function RoleLabel(r: Role): string
  {
    match r
    case Leader => "领队"
    case Doctor => "医生"
    case Soldier => "战士"
    case Cook => "厨师"
  }

  /** The role with label s, if s is one of the four. */
  function ParseRole(s: string): (r: Option<Role>)
    ensures forall x :: r == Some(x) <==> RoleLabel(x) == s
  {
    if s == "领队" then Some(Leader)
    else if s == "医生" then Some(Doctor)
    else if s == "战士" then Some(Soldier)
    else if s == "厨师" then Some(Cook)
    else None
  }

  /** The label a status carries in the crew record and in a status change. */
  function StatusLabel(s: Status): string
  {
    match s
    case Healthy => "健康"
    case Injured => "受伤"
    case Dead => "死亡"
    case Starving => "饥饿"
  }

  /** The status with label s, if s is one of the four. */
  function ParseStatus(s: string): (r: Option<Status>)
    ensures forall x :: r == Some(x) <==> StatusLabel(x) == s
  {
    if s == "健康" then Some(Healthy)
    else if s == "受伤" then Some(Injured)
    else if s == "死亡" then Some(Dead)
    else if s == "饥饿" then Some(Starving)
    else None
  }

  /** The string value of a choice type. */
  function ChoiceTypeName(t: ChoiceType): string
  {
    match t
    case Aggressive => "aggressive"
    case Diplomatic => "diplomatic"
    case Sacrifice => "sacrifice"
    case Neutral => "neutral"
  }

  /** The choice type whose string value is s, if s is one of the four. */
  function ParseChoiceType(s: string): (r: Option<ChoiceType>)
    ensures forall x :: r == Some(x) <==> ChoiceTypeName(x) == s
  {
    if s == "aggressive" then Some(Aggressive)
    else if s == "diplomatic" then Some(Diplomatic)
    else if s == "sacrifice" then Some(Sacrifice)
    else if s == "neutral" then Some(Neutral)
    else None
  }
}
