/** The game session of App.tsx: the React state `gameState` (one field per
    field of the record) and the `loading` flag, with the user intents as
    methods. Each `setGameState` updater is a function of Ledger; the
    terminal-condition effect is the method CheckTerminal, run after every
    change of the state it watches. The one suspension point of travel is
    made explicit: BeginTravel is what runs before the request, and
    CompleteTravel what runs when the event arrives. */
module Session {
  import opened Wrappers
  import opened Types
  import Ledger
  import Gateway

  /** The crew merge of handleEventChoice (App.tsx:144-154): copy the crew,
      then overwrite, change by change, the status at each index that exists. */
  method MergeCrew(crew: seq<CrewMember>, changes: seq<StatusChange>) returns (newCrew: seq<CrewMember>)
    ensures newCrew == Ledger.ApplyStatusChanges(crew, changes)
  {
    newCrew := crew;
    var i := 0;
    while i < |changes|
      invariant 0 <= i <= |changes|
      invariant newCrew == Ledger.ApplyStatusChanges(crew, changes[..i])
    {
      var change := changes[i];
      if 0 <= change.memberIndex < |newCrew| {
        newCrew := newCrew[change.memberIndex := newCrew[change.memberIndex].(status := change.newStatus)];
      }
      assert changes[..i + 1][..i] == changes[..i];
      i := i + 1;
    }
    assert changes[..|changes|] == changes;
  }

  class Game {
    var phase: GamePhase
    var day: int
    var distanceTraveled: int
    var distanceTotal: int
    var food: int
    var mood: int
    var crew: seq<CrewMember>
    var biome: Biome
    var logs: seq<string>
    var currentEvent: Option<GameEvent>
    var lastResolution: Option<EventResolution>
    /** True while a request to the gateway is outstanding. */
    var loading: bool

    /** The session record the fields make up. */
    function State(): GameState
      reads this
    {
      GameState(phase, day, distanceTraveled, distanceTotal, food, mood, crew, biome, logs,
                currentEvent, lastResolution)
    }

    /** The bounds every reachable session keeps. */
    ghost predicate Valid()
      reads this
    {
      Ledger.Invariant(State())
    }

    /** `useState(INITIAL_STATE)` and `useState(false)`. */
    constructor ()
      ensures State() == Ledger.InitialState() && !loading
      ensures Valid()
    {
      var s := Ledger.InitialState();
      phase, day, distanceTraveled, distanceTotal := s.phase, s.day, s.distanceTraveled, s.distanceTotal;
      food, mood, crew, biome, logs := s.food, s.mood, s.crew, s.biome, s.logs;
      currentEvent, lastResolution := s.currentEvent, s.lastResolution;
      loading := false;
      Ledger.InitialStateInvariant();
    }

    /** `setGameState(s)`: replace the whole record. */
    method SetGameState(s: GameState)
      modifies this
      ensures State() == s && loading == old(loading)
    {
      phase, day, distanceTraveled, distanceTotal := s.phase, s.day, s.distanceTraveled, s.distanceTotal;
      food, mood, crew, biome, logs := s.food, s.mood, s.crew, s.biome, s.logs;
      currentEvent, lastResolution := s.currentEvent, s.lastResolution;
    }

    /** The terminal-condition effect (App.tsx:66-78). */
    method CheckTerminal()
      modifies this
      ensures State() == Ledger.TerminalCheck(old(State())) && loading == old(loading)
    {
      var aliveCrew := Ledger.AliveCount(crew);
      if phase == Menu || phase == GameOver || phase == Victory {
        return;
      }
      if aliveCrew == 0 {
        phase := GameOver;
      } else if distanceTraveled >= distanceTotal {
        phase := Victory;
      }
    }

    /** startGame: a fresh session in the travel phase. */
    method StartGame()
      modifies this
      ensures State() == Ledger.StartState() && loading == old(loading)
      ensures Valid()
    {
      SetGameState(Ledger.StartState());
      CheckTerminal();
      Ledger.InitialStateInvariant();
    }

    /** The reset buttons of the end screens: back to INITIAL_STATE, in the menu. */
    method Reset()
      modifies this
      ensures State() == Ledger.InitialState() && loading == old(loading)
      ensures Valid()
    {
      SetGameState(Ledger.InitialState());
      CheckTerminal();
      Ledger.InitialStateInvariant();
    }

    /** travel up to its request (App.tsx:87-120): nothing while loading;
        otherwise set loading, commit the travel step, let the terminal
        check run, and hand back the snapshot the request is built from. */
    method BeginTravel() returns (snapshot: Option<GameState>)
      requires Valid()
      modifies this
      ensures Valid()
      ensures old(loading) ==> snapshot.None? && State() == old(State()) && loading
      ensures !old(loading) ==>
                loading
                && snapshot == Some(Ledger.TravelSnapshot(old(State())))
                && State() == Ledger.TerminalCheck(Ledger.TravelStep(old(State())))
    {
      if loading {
        return None;
      }
      loading := true;
      var before := State();
      var aliveCrewCount := Ledger.AliveCount(before.crew);
      var foodConsumed := Ledger.FoodPerMember * aliveCrewCount;
      var newFood := Ledger.Max(0, before.food - foodConsumed);
      snapshot := Some(before.(day := before.day + 1, food := newFood));
      assert snapshot == Some(Ledger.TravelSnapshot(before));
      // the updater passed to setGameState
      SetGameState(Ledger.TravelStep(before));
      Ledger.TravelKeepsInvariant(before);
      Ledger.TerminalCheckKeepsInvariant(State());
      CheckTerminal();
    }

    /** travel once its request returns (App.tsx:123-134): record the event,
        move to the decision, let the terminal check run, clear loading. */
    method CompleteTravel(event: GameEvent)
      requires Valid()
      modifies this
      ensures Valid() && !loading
      ensures State() == Ledger.TerminalCheck(Ledger.ReceiveEvent(old(State()), event))
    {
      currentEvent := Some(event);
      phase := EventDecision;
      Ledger.TerminalCheckKeepsInvariant(State());
      CheckTerminal();
      loading := false;
    }

    /** travel as a whole: the request for a new event sits between the two
        halves and never fails, so the turn always completes. */
    method Travel(k: nat, backend: Gateway.Backend)
      requires Valid()
      requires k < |Gateway.EventCategories|
      modifies this
      ensures Valid()
      ensures old(loading) ==> State() == old(State()) && loading
      ensures !old(loading) ==>
                !loading
                && State() == Ledger.TerminalCheck(Ledger.ReceiveEvent(
                                Ledger.TerminalCheck(Ledger.TravelStep(old(State()))),
                                Gateway.GenerateGameEvent(Ledger.TravelSnapshot(old(State())), k, backend)))
    {
      var snapshot := BeginTravel();
      if snapshot.Some? {
        var event := Gateway.GenerateGameEvent(snapshot.value, k, backend);
        CompleteTravel(event);
      }
    }

    /** The updater of handleEventChoice (App.tsx:143-167). */
    method ApplyResolution(resolution: EventResolution)
      requires Valid()
      modifies this
      ensures Valid() && loading == old(loading)
      ensures State() == Ledger.MergeResolution(old(State()), resolution)
    {
      ghost var before := State();
      var newCrew := MergeCrew(crew, resolution.crewStatusChanges);
      food := Ledger.Max(0, food + resolution.foodChange);
      mood := Ledger.Min(Ledger.MoodMax, Ledger.Max(0, mood + resolution.moodChange));
      distanceTraveled := Ledger.Min(distanceTotal, Ledger.Max(0, distanceTraveled + resolution.distanceChange));
      crew := newCrew;
      lastResolution := Some(resolution);
      phase := GamePhase.EventResolution;
      logs := logs + [Ledger.ResolutionLog(resolution)];
      currentEvent := None;
      Ledger.MergeKeepsInvariant(before, resolution);
    }

    /** handleEventChoice (App.tsx:137-181): no loading guard; with no current
        event the gateway throws, the error is swallowed and the state is left
        as it was; otherwise the resolution is merged and the terminal check
        runs. Loading is cleared on both paths. */
    method HandleEventChoice(choiceId: string, backend: Gateway.Backend)
      requires Valid()
      modifies this
      ensures Valid() && !loading
      ensures old(currentEvent).None? ==> State() == old(State())
      ensures old(currentEvent).Some? ==>
                State() == Ledger.TerminalCheck(Ledger.MergeResolution(
                             old(State()), Gateway.ResolveGameEvent(old(State()), choiceId, backend).value))
    {
      loading := true;
      var resolution := Gateway.ResolveGameEvent(State(), choiceId, backend);
      if resolution.Success? {
        ApplyResolution(resolution.value);
        Ledger.TerminalCheckKeepsInvariant(State());
        CheckTerminal();
      }
      loading := false;
    }

    /** continueJourney (App.tsx:183-186): back to travel, resolution cleared. */
    method ContinueJourney()
      requires Valid()
      modifies this
      ensures Valid() && loading == old(loading)
      ensures State() == Ledger.TerminalCheck(Ledger.ContinueJourney(old(State())))
    {
      phase := GamePhase.Travel;
      lastResolution := None;
      Ledger.TerminalCheckKeepsInvariant(State());
      CheckTerminal();
    }
  }
}
