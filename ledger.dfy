/** The state updaters of App.tsx as functions on the session record: the
    initial state, one travel step and the event request's snapshot, the
    arrival of an event, the merge of a resolution, the return to travel,
    and the terminal-condition check. Food is in tenths of a kilogram. */
module Ledger {
  import opened Wrappers
  import opened Types
  import Text

  /** Food eaten per living crew member per travel step: 1.5 kg. */
  const FoodPerMember: nat := 15
  /** Distance covered per travel step, in km. */
  const DailyDistance: nat := 25
  /** Flat mood loss of a travel step that leaves no food. */
  const StarvationPenalty: nat := 20
  const MoodMax: int := 100
  /** The distance to the escape ship, in km. */
  const DistanceTotal: int := 1000

  function Max(a: int, b: int): int { if a >= b then a else b }
  function Min(a: int, b: int): int { if a <= b then a else b }

  /** INITIAL_CREW: four healthy members, one per role. */
  function InitialCrew(): (c: seq<CrewMember>)
    ensures |c| == 4
    ensures forall i :: 0 <= i < 4 ==> c[i].status == Healthy
    ensures c[0].role == Leader && c[1].role == Doctor && c[2].role == Soldier && c[3].role == Cook
    ensures c[0].id == "1" && c[1].id == "2" && c[2].id == "3" && c[3].id == "4"
  {
    [ CrewMember("1", "万斯 (Vance)", Leader, Healthy),
      CrewMember("2", "多克 (Doc)", Doctor, Healthy),
      CrewMember("3", "萨奇 (Sarge)", Soldier, Healthy),
      CrewMember("4", "库克 (Cook)", Cook, Healthy) ]
  }

  function InitialLogs(): seq<string>
  {
    ["系统初始化...", "生命维持系统正常。", "远行队集结完毕。逃生飞船位于东部 1000 公里处。"]
  }

  /** INITIAL_STATE: the menu, day 1, 0 of 1000 km, 50 kg of food, mood 100. */
  function InitialState(): (s: GameState)
    ensures s.phase == Menu && s.day == 1 && s.food == 500 && s.mood == 100
    ensures s.distanceTraveled == 0 && s.distanceTotal == 1000
    ensures s.crew == InitialCrew() && s.biome == AridShrubland
    ensures s.logs == InitialLogs() && |s.logs| == 3
    ensures s.currentEvent.None? && s.lastResolution.None?
  {
    GameState(Menu, 1, 0, DistanceTotal, 500, 100, InitialCrew(), AridShrubland, InitialLogs(), None, None)
  }

  /** The state startGame installs: INITIAL_STATE in the travel phase. */
  function StartState(): (s: GameState)
    ensures s == InitialState().(phase := Travel)
    ensures s.phase == Travel && s.day == 1 && s.food == 500 && s.mood == 100
    ensures s.distanceTraveled == 0 && s.distanceTotal == 1000
    ensures |s.crew| == 4 && forall i :: 0 <= i < 4 ==> s.crew[i].status == Healthy
    ensures s.currentEvent.None? && s.lastResolution.None?
  {
    InitialState().(phase := Travel)
  }

  /** `crew.filter(c => c.status !== '死亡').length`. */
  function AliveCount(crew: seq<CrewMember>): (n: nat)
    ensures n <= |crew|
  {
    if |crew| == 0 then 0
    else (if crew[0].status != Dead then 1 else 0) + AliveCount(crew[1..])
  }

  /** Nobody is counted alive exactly when every member is dead. */
  lemma {:induction false} AliveCountZero(crew: seq<CrewMember>)
    ensures AliveCount(crew) == 0 <==> forall i :: 0 <= i < |crew| ==> crew[i].status == Dead
  {
    if |crew| > 0 {
      AliveCountZero(crew[1..]);
      assert forall i :: 1 <= i < |crew| ==> crew[i] == crew[1..][i - 1];
    }
  }

  /** The food one travel step eats, in tenths: 15 per member not dead. */
  function FoodConsumed(crew: seq<CrewMember>): (f: nat)
    ensures f % 15 == 0 && f <= 15 * |crew|
    ensures f == 0 <==> forall i :: 0 <= i < |crew| ==> crew[i].status == Dead
  {
    AliveCountZero(crew);
    FoodPerMember * AliveCount(crew)
  }

  /** The log line of a travel step: the new day and the food eaten. */
  function TravelLog(newDay: int, consumed: nat): (line: string)
    // the printed day after a two-character prefix, the printed amount
    // before the six-character unit suffix
    ensures var day := Text.IntToString(newDay);
      var amount := Text.TenthsToString(consumed);
      && |line| == 23 + |day| + |amount|
      && line[..2] == "第 "
      && line[2..2 + |day|] == day
      && line[2 + |day|..17 + |day|] == " 天: 前行 25km。消耗 "
      && line[17 + |day|..|line| - 6] == amount
      && line[|line| - 6..] == "kg 食物。"
  {
    var day := Text.IntToString(newDay);
    var amount := Text.TenthsToString(consumed);
    var head := "第 " + day + " 天: 前行 25km。消耗 ";
    var line := head + amount + "kg 食物。";
    assert |head| == 17 + |day| && head[2..2 + |day|] == day;
    assert line[..|head|] == head && line[|head|..|line| - 6] == amount;
    line
  }

  /** The log line of a merged resolution. */
  function ResolutionLog(r: EventResolution): (line: string)
    ensures |line| == 6 + |r.outcomeText|
    ensures line[..6] == "事件结果: " && line[6..] == r.outcomeText
  {
    "事件结果: " + r.outcomeText
  }

  /** The updater of travel (App.tsx:98-112). */
  function TravelStep(s: GameState): (t: GameState)
    ensures t.food >= 0 && t.day == s.day + 1 && t.phase == EventGeneration
    ensures t.food == 0 ==> t.mood == Max(0, s.mood - 20)
    ensures t.distanceTraveled <= s.distanceTotal
    ensures s.distanceTraveled >= 0 ==> t.distanceTraveled >= 0 || s.distanceTotal < 0
    ensures |t.logs| == |s.logs| + 1 && t.logs[..|s.logs|] == s.logs
    ensures t.crew == s.crew && t.currentEvent == s.currentEvent && t.lastResolution == s.lastResolution
  {
    var consumed := FoodConsumed(s.crew);
    var newFood := Max(0, s.food - consumed);
    var moodPenalty := if newFood == 0 then StarvationPenalty else 0;
    s.(day := s.day + 1,
       distanceTraveled := Min(s.distanceTotal, s.distanceTraveled + DailyDistance),
       food := newFood,
       mood := Max(0, s.mood - moodPenalty),
       phase := EventGeneration,
       logs := s.logs + [TravelLog(s.day + 1, consumed)])
  }

  /** What one travel step does to the session. */
  lemma TravelStepEffect(s: GameState)
    ensures var t := TravelStep(s); var consumed := 15 * AliveCount(s.crew);
      // food: what is left after 1.5 kg per living member, never negative
      && t.food >= 0
      && (t.food == 0 <==> s.food <= consumed)
      && (t.food > 0 ==> t.food == s.food - consumed)
      // mood: a flat 20 lost exactly when no food is left, floored at 0
      && (t.food == 0 ==> t.mood == Max(0, s.mood - 20))
      && (t.food != 0 ==> t.mood == Max(0, s.mood))
      && (s.mood >= 0 ==> t.mood >= 0)
      // one more day, 25 km more but never past the total
      && t.day == s.day + 1
      && (s.distanceTraveled + 25 <= s.distanceTotal ==> t.distanceTraveled == s.distanceTraveled + 25)
      && (s.distanceTraveled + 25 > s.distanceTotal ==> t.distanceTraveled == s.distanceTotal)
      && t.phase == EventGeneration
      // exactly one log line appended
      && |t.logs| == |s.logs| + 1 && t.logs[..|s.logs|] == s.logs
      && t.logs[|s.logs|] == TravelLog(s.day + 1, consumed)
      // nothing else changes
      && t.crew == s.crew && t.currentEvent == s.currentEvent && t.lastResolution == s.lastResolution
      && t.distanceTotal == s.distanceTotal && t.biome == s.biome
  {
  }

  /** The state the event request is built from (App.tsx:115-120). */
  function TravelSnapshot(s: GameState): (snap: GameState)
    ensures snap.day == s.day + 1 && snap.food >= 0
    ensures snap.food == Max(0, s.food - 15 * AliveCount(s.crew))
    ensures snap.distanceTraveled == s.distanceTraveled && snap.mood == s.mood && snap.crew == s.crew
    ensures snap.phase == s.phase && snap.logs == s.logs && snap.currentEvent == s.currentEvent
    ensures snap.biome == s.biome && snap.distanceTotal == s.distanceTotal
    ensures snap.lastResolution == s.lastResolution
  {
    s.(day := s.day + 1, food := Max(0, s.food - FoodConsumed(s.crew)))
  }

  /** The request sees the new day and the reduced food, but the distance
      and mood from before the step. */
  lemma TravelSnapshotAgainstStep(s: GameState)
    ensures var snap := TravelSnapshot(s); var t := TravelStep(s);
      && snap.day == t.day && snap.food == t.food && snap.crew == t.crew
      && snap.distanceTraveled == s.distanceTraveled && snap.mood == s.mood
      && snap.phase == s.phase && snap.logs == s.logs
      && (s.distanceTraveled + 25 <= s.distanceTotal ==> snap.distanceTraveled != t.distanceTraveled)
      && (t.food == 0 && s.mood > 0 ==> snap.mood != t.mood)
  {
  }

  /** The updater after the event arrives (App.tsx:124-128). */
  function ReceiveEvent(s: GameState, event: GameEvent): (t: GameState)
    ensures t.currentEvent == Some(event) && t.phase == EventDecision
    ensures t == s.(currentEvent := Some(event), phase := EventDecision)
  {
    s.(currentEvent := Some(event), phase := EventDecision)
  }

  /** One crew change: overwrite the status at an index that exists. */
  function ApplyStatusChange(crew: seq<CrewMember>, change: StatusChange): (r: seq<CrewMember>)
    ensures |r| == |crew|
    ensures forall i :: 0 <= i < |crew| && i != change.memberIndex ==> r[i] == crew[i]
    ensures 0 <= change.memberIndex < |crew| ==>
              r[change.memberIndex] == crew[change.memberIndex].(status := change.newStatus)
  {
    var i := change.memberIndex;
    if 0 <= i < |crew| then crew[i := crew[i].(status := change.newStatus)] else crew
  }

  /** The crew after the changes, applied one after another in order
      (the forEach at App.tsx:147-154). */
  function ApplyStatusChanges(crew: seq<CrewMember>, changes: seq<StatusChange>): (r: seq<CrewMember>)
    ensures |r| == |crew|
    ensures forall i :: 0 <= i < |crew| ==>
              r[i].id == crew[i].id && r[i].name == crew[i].name && r[i].role == crew[i].role
    decreases |changes|
  {
    if |changes| == 0 then crew
    else ApplyStatusChange(ApplyStatusChanges(crew, changes[..|changes| - 1]), changes[|changes| - 1])
  }

  /** Member j is left as it was when no change names index j. */
  lemma {:induction false} ApplyStatusChangesUntouched(crew: seq<CrewMember>, changes: seq<StatusChange>, j: int)
    requires 0 <= j < |crew|
    requires forall k :: 0 <= k < |changes| ==> changes[k].memberIndex != j
    ensures ApplyStatusChanges(crew, changes)[j] == crew[j]
    decreases |changes|
  {
    if |changes| > 0 {
      var front := changes[..|changes| - 1];
      assert forall k :: 0 <= k < |front| ==> front[k] == changes[k];
      ApplyStatusChangesUntouched(crew, front, j);
    }
  }

  /** Member j takes the new status of the last change that names index j:
      a later change to the same index wins. */
  lemma {:induction false} ApplyStatusChangesLastWins(crew: seq<CrewMember>, changes: seq<StatusChange>, j: int, k: nat)
    requires 0 <= j < |crew|
    requires k < |changes| && changes[k].memberIndex == j
    requires forall k' :: k < k' < |changes| ==> changes[k'].memberIndex != j
    ensures ApplyStatusChanges(crew, changes)[j].status == changes[k].newStatus
    decreases |changes|
  {
    var n := |changes|;
    var front := changes[..n - 1];
    var rf := ApplyStatusChanges(crew, front);
    assert ApplyStatusChanges(crew, changes) == ApplyStatusChange(rf, changes[n - 1]);
    if k < n - 1 {
      assert changes[n - 1].memberIndex != j;
      assert forall i :: 0 <= i < |front| ==> front[i] == changes[i];
      ApplyStatusChangesLastWins(crew, front, j, k);
    }
  }

  /** A resolution can write a living status over a dead member. */
  lemma DeadMemberCanBeOverwritten(m: CrewMember)
    requires m.status == Dead
    ensures ApplyStatusChanges([m], [StatusChange(0, Healthy)])[0].status == Healthy
  {
    assert [StatusChange(0, Healthy)][..0] == [];
  }

  /** The updater of handleEventChoice (App.tsx:143-167). */
  function MergeResolution(s: GameState, r: EventResolution): (t: GameState)
    ensures t.food >= 0 && 0 <= t.mood <= 100
    ensures s.distanceTotal >= 0 ==> 0 <= t.distanceTraveled <= s.distanceTotal
    ensures t.currentEvent.None? && t.lastResolution == Some(r) && t.phase == EventResolution
    ensures |t.logs| == |s.logs| + 1 && t.logs[..|s.logs|] == s.logs
    ensures t.day == s.day && |t.crew| == |s.crew|
  {
    s.(food := Max(0, s.food + r.foodChange),
       mood := Min(MoodMax, Max(0, s.mood + r.moodChange)),
       distanceTraveled := Min(s.distanceTotal, Max(0, s.distanceTraveled + r.distanceChange)),
       crew := ApplyStatusChanges(s.crew, r.crewStatusChanges),
       lastResolution := Some(r),
       phase := EventResolution,
       logs := s.logs + [ResolutionLog(r)],
       currentEvent := None)
  }

  /** What merging a resolution does to the session. */
  lemma MergeResolutionEffect(s: GameState, r: EventResolution)
    ensures var t := MergeResolution(s, r);
      // food: never negative, otherwise the sum
      && t.food >= 0
      && (s.food + r.foodChange >= 0 ==> t.food == s.food + r.foodChange)
      && (s.food + r.foodChange < 0 ==> t.food == 0)
      // mood: the sum clamped to [0, 100]
      && 0 <= t.mood <= 100
      && (0 <= s.mood + r.moodChange <= 100 ==> t.mood == s.mood + r.moodChange)
      && (s.mood + r.moodChange < 0 ==> t.mood == 0)
      && (s.mood + r.moodChange > 100 ==> t.mood == 100)
      // distance: the sum clamped to [0, total]
      && (s.distanceTotal >= 0 ==> 0 <= t.distanceTraveled <= s.distanceTotal)
      && (0 <= s.distanceTraveled + r.distanceChange <= s.distanceTotal ==>
            t.distanceTraveled == s.distanceTraveled + r.distanceChange)
      && (s.distanceTotal >= 0 && s.distanceTraveled + r.distanceChange < 0 ==> t.distanceTraveled == 0)
      && (s.distanceTotal >= 0 && s.distanceTraveled + r.distanceChange > s.distanceTotal ==>
            t.distanceTraveled == s.distanceTotal)
      // the event is consumed, the resolution recorded, one log line appended
      && t.currentEvent.None? && t.lastResolution == Some(r) && t.phase == EventResolution
      && t.logs == s.logs + [ResolutionLog(r)]
      // the crew is the in-order merge of the changes, keeping its length and identities
      && t.crew == ApplyStatusChanges(s.crew, r.crewStatusChanges)
      && |t.crew| == |s.crew|
      && (forall i :: 0 <= i < |s.crew| ==>
            t.crew[i].id == s.crew[i].id && t.crew[i].name == s.crew[i].name && t.crew[i].role == s.crew[i].role)
      && t.day == s.day && t.distanceTotal == s.distanceTotal && t.biome == s.biome
  {
  }

  /** The updater of continueJourney (App.tsx:185). */
  function ContinueJourney(s: GameState): (t: GameState)
    ensures t.phase == Travel && t.lastResolution.None?
    ensures t == s.(phase := Travel, lastResolution := None)
  {
    s.(phase := Travel, lastResolution := None)
  }

  /** The terminal-condition effect (App.tsx:66-78). */
  function TerminalCheck(s: GameState): (t: GameState)
    ensures t == s.(phase := t.phase)
    ensures t.phase == s.phase || t.phase == GameOver || t.phase == Victory
    ensures t.phase == GameOver && s.phase != GameOver ==> AliveCount(s.crew) == 0
    ensures t.phase == Victory && s.phase != Victory ==> AliveCount(s.crew) > 0 && s.distanceTraveled >= s.distanceTotal
  {
    if s.phase == Menu || s.phase == GameOver || s.phase == Victory then s
    else if AliveCount(s.crew) == 0 then s.(phase := GameOver)
    else if s.distanceTraveled >= s.distanceTotal then s.(phase := Victory)
    else s
  }

  /** The check changes at most the phase: nothing in the menu or a terminal
      phase; otherwise an all-dead crew loses before the distance is looked
      at, and reaching the distance with someone alive wins. */
  lemma TerminalCheckEffect(s: GameState)
    ensures var t := TerminalCheck(s);
      && t == s.(phase := t.phase)
      && (s.phase in {Menu, GameOver, Victory} ==> t == s)
      && (s.phase !in {Menu, GameOver, Victory} ==>
            ((forall i :: 0 <= i < |s.crew| ==> s.crew[i].status == Dead) ==> t.phase == GameOver)
            && ((exists i :: 0 <= i < |s.crew| && s.crew[i].status != Dead) ==>
                  (s.distanceTraveled >= s.distanceTotal ==> t.phase == Victory)
                  && (s.distanceTraveled < s.distanceTotal ==> t == s)))
  {
    AliveCountZero(s.crew);
  }

  /** Running the check twice is running it once. */
  lemma TerminalCheckIdempotent(s: GameState)
    ensures TerminalCheck(TerminalCheck(s)) == TerminalCheck(s)
  {
  }

  /** The crews agree on length, ids, names and roles. */
  predicate SameRoster(a: seq<CrewMember>, b: seq<CrewMember>)
  {
    |a| == |b|
    && forall i :: 0 <= i < |a| ==> a[i].id == b[i].id && a[i].name == b[i].name && a[i].role == b[i].role
  }

  /** What holds of every state a session reaches: distance within [0, total]
      of a fixed 1000 km, mood within [0, 100], food never negative, day at
      least 1, and the roster fixed at session start. */
  predicate Invariant(s: GameState)
  {
    && s.distanceTotal == DistanceTotal
    && 0 <= s.distanceTraveled <= s.distanceTotal
    && 0 <= s.mood <= MoodMax
    && s.food >= 0
    && s.day >= 1
    && SameRoster(s.crew, InitialCrew())
  }

  lemma InitialStateInvariant()
    ensures Invariant(InitialState()) && Invariant(StartState())
  {
  }

  /** A travel step keeps the invariant. */
  lemma TravelKeepsInvariant(s: GameState)
    requires Invariant(s)
    ensures Invariant(TravelStep(s))
  {
  }

  /** Merging any resolution keeps the invariant, whatever its deltas and
      crew changes. */
  lemma MergeKeepsInvariant(s: GameState, r: EventResolution)
    requires Invariant(s)
    ensures Invariant(MergeResolution(s, r))
  {
  }

  /** The terminal check keeps the invariant: it changes only the phase. */
  lemma TerminalCheckKeepsInvariant(s: GameState)
    requires Invariant(s)
    ensures Invariant(TerminalCheck(s))
  {
  }

  /** The arrival of an event keeps the invariant, whatever the event. */
  lemma ReceiveEventKeepsInvariant(s: GameState, e: GameEvent)
    requires Invariant(s)
    ensures Invariant(ReceiveEvent(s, e))
  {
  }

  /** Returning to travel keeps the invariant. */
  lemma ContinueJourneyKeepsInvariant(s: GameState)
    requires Invariant(s)
    ensures Invariant(ContinueJourney(s))
  {
  }

  /** A whole turn of travel: after the step, the check, the arrival of the
      event and the check again, the session is lost if nobody is alive, won
      if the distance is reached (the event then stays recorded), and
      otherwise waits for a decision on the event. */
  lemma TravelTurnOutcome(s: GameState, event: GameEvent)
    ensures var t := TerminalCheck(ReceiveEvent(TerminalCheck(TravelStep(s)), event));
      && t.currentEvent == Some(event)
      && (AliveCount(s.crew) == 0 ==> t.phase == GameOver)
      && (AliveCount(s.crew) > 0 && s.distanceTraveled + 25 >= s.distanceTotal ==> t.phase == Victory)
      && (AliveCount(s.crew) > 0 && s.distanceTraveled + 25 < s.distanceTotal ==> t.phase == EventDecision)
      && t.day == s.day + 1
  {
  }

  /** A travel turn started while a resolution is still recorded (that is,
      outside the travel phase) leaves the new event and the old resolution
      recorded together: the step does not clear the resolution. */
  lemma TravelKeepsStaleResolution(s: GameState, event: GameEvent)
    requires s.lastResolution.Some?
    ensures var t := TerminalCheck(ReceiveEvent(TerminalCheck(TravelStep(s)), event));
      t.currentEvent == Some(event) && t.lastResolution == s.lastResolution
  {
  }

  /** A resolution that brings the distance to the total wins at once when
      someone survives it; one that leaves nobody alive loses whatever the
      distance. */
  lemma ResolutionOutcome(s: GameState, r: EventResolution)
    requires s.distanceTotal > 0
    ensures var t := TerminalCheck(MergeResolution(s, r));
      && (AliveCount(MergeResolution(s, r).crew) == 0 ==> t.phase == GameOver)
      && (AliveCount(MergeResolution(s, r).crew) > 0 && s.distanceTraveled + r.distanceChange >= s.distanceTotal ==>
            t.phase == Victory)
      && (AliveCount(MergeResolution(s, r).crew) > 0 && s.distanceTraveled + r.distanceChange < s.distanceTotal ==>
            t.phase == EventResolution)
  {
  }

  /** The first turn of a new session: 6 kg eaten (44 kg left), 25 km, day 2. */
  lemma FirstTurnScenario(event: GameEvent)
    ensures var t := TerminalCheck(ReceiveEvent(TerminalCheck(TravelStep(StartState())), event));
      t.food == 440 && t.distanceTraveled == 25 && t.day == 2 && t.mood == 100 && t.phase == EventDecision
  {
    assert AliveCount(InitialCrew()) == 4;
  }

  /** The last 1.5 kg eaten by the one member alive: no food left and mood 100 -> 80. */
  lemma StarvationScenario(s: GameState)
    requires s.food == 15 && s.mood == 100 && AliveCount(s.crew) == 1
    ensures TravelStep(s).food == 0 && TravelStep(s).mood == 80
  {
  }
}
