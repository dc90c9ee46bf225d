/** The scoreboard of the game context: its state as a value (`Board`), one transition
    function per intent of the context, and the properties those transitions keep.
    Writes to the hosted database and to the shared live-game row are not performed:
    each transition appends the writes it would issue to `log`, in order. */
module Game {
  import opened Text

  datatype Mode = Quick | Tournament
  datatype Side = A | B
  datatype LiveStatus = Running | Paused | Ended

  /** Baskets recorded for one team, by value. */
  datatype Baskets = Baskets(one: nat, two: nat, three: nat)

  const NoBaskets: Baskets := Baskets(0, 0, 0)

  /** The points the recorded baskets add up to. */
  function Points(k: Baskets): nat { k.one + 2 * k.two + 3 * k.three }

  /** The number of recorded baskets. */
  function Made(k: Baskets): nat { k.one + k.two + k.three }

  datatype Settings = Settings(
    quickDurationSeconds: int, alertSeconds: int,
    defaultTeamA: string, defaultTeamB: string,
    soundEnabled: bool, theme: string)

  const DefaultSettings: Settings := Settings(7 * 60, 20, "Com Colete", "Sem Colete", true, "dark-green")

  const QuickTeamA: string := "COM COLETE"
  const QuickTeamB: string := "SEM COLETE"

  /** A match as the context keeps it while it is on the clock. A `matchNo` of 0 stands for
      a missing match number, an empty team name for a missing one. */
  datatype Match = Match(id: string, matchNo: int, quarters: int, durations: seq<int>,
                         teamAName: string, teamBName: string)

  /** The payload written to the shared live-game row. A `matchNo` of 0 stands for null. */
  datatype LivePush = LivePush(status: LiveStatus, mode: Mode, matchId: Option<string>, matchNo: int,
                               quarter: int, timeLeft: int, teamA: string, teamB: string,
                               scoreA: int, scoreB: int)

  /** The shared live-game row as another device reads it. Text fields are "" and numbers
      are 0 where the row holds null; `resetAt` and `updatedAt` are timestamps. */
  datatype LiveGame = LiveGame(status: LiveStatus, mode: Option<Mode>, matchId: string, matchNo: int,
                               quarter: int, timeLeft: int, teamA: string, teamB: string,
                               scoreA: int, scoreB: int, resetAt: int, updatedAt: Option<int>)

  datatype Alert = QuarterAtZero | ClockAtZero | QuickSaved | ZeroMatchRemoved | TournamentSaved

  /** A write the scoreboard issues (to the database or the live-game row) or a message it shows. */
  datatype Effect =
    | PushLive(payload: LivePush)
    | UpdateLiveClock(timeLeft: int)
    | UpdateLiveScore(status: LiveStatus, scoreA: int, scoreB: int)
    | EnsureQuickMatch(matchNo: int)
    | ScheduleTimerEnd
    | CreateDoneQuick(id: string, matchNo: int)
    | MarkQuickDone(id: string, matchNo: int)
    | MarkDone(id: string)
    | UpsertResult(id: string, scoreA: int, scoreB: int, baskets1: int, baskets2: int, baskets3: int)
    | DeleteMatch(id: string)
    | DeletePendingQuick(matchNo: int)
    | ShowAlert(alert: Alert)

  /** The fields and refs of the provider. `lastLiveAt` and `lastResetAt` are 0 while no
      snapshot or reset has been accepted (both are falsy, as the refs' initial null is). */
  datatype Board = Board(
    mode: Mode, matchId: Option<string>, current: Option<Match>,
    quarterIndex: nat, currentDurationSeconds: int, totalSeconds: int,
    running: bool, ajusteFinalAtivo: bool,
    teamAName: string, teamBName: string,
    scoreA: int, scoreB: int, basketsA: Baskets, basketsB: Baskets,
    quickMatchNumber: int,
    lastLiveAt: int, lastResetAt: int, remoteReset: bool, resetting: bool,
    settings: Settings, log: seq<Effect>)

  /** The board when the provider mounts. */
  function Initial(settings: Settings): (b: Board)
    ensures b.mode == Quick && b.quarterIndex == 0 && !b.running && !b.ajusteFinalAtivo
    ensures b.totalSeconds == b.currentDurationSeconds == settings.quickDurationSeconds
    ensures b.scoreA == 0 && b.scoreB == 0 && b.basketsA == NoBaskets && b.basketsB == NoBaskets
    ensures b.matchId.None? && !b.remoteReset && !b.resetting && b.log == []
  {
    Board(Quick, None, None, 0, settings.quickDurationSeconds, settings.quickDurationSeconds,
          false, false, "TIME 1", "TIME 2", 0, 0, NoBaskets, NoBaskets, 1,
          0, 0, false, false, settings, [])
  }

  // ---------------------------------------------------------------------------
  // The write log

  /** `r` has issued every write `b` had issued, and possibly more after them. */
  predicate Extends(b: Board, r: Board) {
    |b.log| <= |r.log| && r.log[..|b.log|] == b.log
  }

  /** The writes issued on the way from `b` to `r`. */
  function Emitted(b: Board, r: Board): seq<Effect>
    requires Extends(b, r)
  {
    r.log[|b.log|..]
  }

  /** The two teams' score and basket records are those of `b`. */
  predicate SameScores(b: Board, r: Board) {
    r.scoreA == b.scoreA && r.scoreB == b.scoreB && r.basketsA == b.basketsA && r.basketsB == b.basketsB
  }

  function StatusOf(running: bool): LiveStatus { if running then Running else Paused }

  /** The live payload most intents build: the current match's id in a tournament and the
      quick match's id otherwise, the quick match number or the current match's number. */
  function LiveOf(b: Board, status: LiveStatus, quarter: int, timeLeft: int): LivePush {
    LivePush(status, b.mode,
             if b.mode == Tournament then (if b.current.Some? then Some(b.current.value.id) else None)
             else b.matchId,
             if b.mode == Quick then b.quickMatchNumber
             else (if b.current.Some? then b.current.value.matchNo else 0),
             quarter, timeLeft, b.teamAName, b.teamBName, b.scoreA, b.scoreB)
  }

  /** The writes of `pushLiveGame(p)`: none while a remote reset is pending. */
  function Pushed(b: Board, p: LivePush): seq<Effect> {
    if b.remoteReset then [] else [PushLive(p)]
  }

  function AlertUnless(silent: bool, a: Alert): seq<Effect> {
    if silent then [] else [ShowAlert(a)]
  }

  // ---------------------------------------------------------------------------
  // Scores and baskets

  /** `Math.max(0, prev + delta)`. */
  function ClampScore(prev: int, delta: int): (r: nat)
    ensures r >= prev + delta
    ensures r == prev + delta || r == 0
  {
    if prev + delta < 0 then 0 else prev + delta
  }

  /** The basket record after a score change of `delta` (`RecordBasketSpec` states it). */
  function RecordBasket(k: Baskets, delta: int): Baskets
  {
    if delta == 1 then k.(one := k.one + 1)
    else if delta == 2 then k.(two := k.two + 1)
    else if delta == 3 then k.(three := k.three + 1)
    else if delta == -1 then
      if k.three > 0 then k.(three := k.three - 1)
      else if k.two > 0 then k.(two := k.two - 1)
      else if k.one > 0 then k.(one := k.one - 1)
      else k
    else k
  }

  /** +1, +2 and +3 record one basket of that value; -1 withdraws a three if there is one,
      else a two, else a one, and nothing from an empty record; any other change leaves the
      record alone. No counter goes below zero. */
  lemma RecordBasketSpec(k: Baskets, delta: int)
    ensures var r := RecordBasket(k, delta);
      (1 <= delta <= 3 ==> Points(r) == Points(k) + delta && Made(r) == Made(k) + 1)
      && (delta == -1 && k != NoBaskets ==> Made(r) == Made(k) - 1)
      && (delta == -1 && k.three > 0 ==> r == k.(three := k.three - 1))
      && (delta == -1 && k.three == 0 && k.two > 0 ==> r == k.(two := k.two - 1))
      && (delta == -1 && k.three == 0 && k.two == 0 ==> r == k.(one := if k.one > 0 then k.one - 1 else 0))
      && (!(1 <= delta <= 3) && delta != -1 ==> r == k)
  {
  }

  /** A -1 right after a basket withdraws that basket when no basket of a larger value is on
      record, so it undoes the basket exactly. */
  lemma UndoBasket(k: Baskets, v: int)
    requires 1 <= v <= 3
    requires v <= 2 ==> k.three == 0
    requires v == 1 ==> k.two == 0
    ensures RecordBasket(RecordBasket(k, v), -1) == k
  {
  }

  /** The writes of `ensureQuickMatch` up to its first lookup: none when a remote reset is
      pending or the match id it sees is already set. */
  function EnsureWrites(b: Board, seenMatchId: Option<string>, matchNo: int): seq<Effect> {
    if b.remoteReset || seenMatchId.Some? then [] else [EnsureQuickMatch(matchNo)]
  }

  /** `addPoint(side, delta)`. */
  function AfterAddPoint(b: Board, side: Side, delta: int): Board
  {
    if !(b.running || b.ajusteFinalAtivo) then b
    else if b.remoteReset then b
    else
      var ensure := if b.mode == Quick then EnsureWrites(b, b.matchId, b.quickMatchNumber) else [];
      match side
      case A =>
        var next := ClampScore(b.scoreA, delta);
        b.(scoreA := next, basketsA := RecordBasket(b.basketsA, delta),
           log := b.log + ensure + [UpdateLiveScore(StatusOf(b.running), next, b.scoreB)])
      case B =>
        var next := ClampScore(b.scoreB, delta);
        b.(scoreB := next, basketsB := RecordBasket(b.basketsB, delta),
           log := b.log + ensure + [UpdateLiveScore(StatusOf(b.running), b.scoreA, next)])
  }

  /** Scoring is ignored unless the clock runs or the final adjustment is on, and while a
      remote reset is pending. */
  lemma AddPointIgnored(b: Board, side: Side, delta: int)
    requires !(b.running || b.ajusteFinalAtivo) || b.remoteReset
    ensures AfterAddPoint(b, side, delta) == b
  {
  }

  /** Otherwise the side's score becomes `max(0, score + delta)` and its basket record follows
      `RecordBasket`; the other team and the rest of the board are untouched, and the live
      row receives the new scores. */
  lemma AddPointScores(b: Board, side: Side, delta: int)
    requires (b.running || b.ajusteFinalAtivo) && !b.remoteReset
    ensures var r := AfterAddPoint(b, side, delta);
      Extends(b, r)
      && (side == A ==> r.scoreA == ClampScore(b.scoreA, delta) && r.basketsA == RecordBasket(b.basketsA, delta)
                        && r.scoreB == b.scoreB && r.basketsB == b.basketsB
                        && r.log[|r.log| - 1] == UpdateLiveScore(StatusOf(b.running), r.scoreA, b.scoreB))
      && (side == B ==> r.scoreB == ClampScore(b.scoreB, delta) && r.basketsB == RecordBasket(b.basketsB, delta)
                        && r.scoreA == b.scoreA && r.basketsA == b.basketsA
                        && r.log[|r.log| - 1] == UpdateLiveScore(StatusOf(b.running), b.scoreA, r.scoreB))
      && |r.log| > |b.log|
      && r.(scoreA := b.scoreA, scoreB := b.scoreB, basketsA := b.basketsA, basketsB := b.basketsB, log := b.log) == b
  {
  }

  /** The score and the basket record of one team can disagree: a three followed by a -1
      leaves 2 points on the board and no basket on record. */
  lemma ScoreDrift(b: Board)
    requires b.running && !b.remoteReset && b.scoreA == 0 && b.basketsA == NoBaskets
    ensures var r := AfterAddPoint(AfterAddPoint(b, A, 3), A, -1);
      r.scoreA == 2 && Points(r.basketsA) == 0
  {
    var b1 := AfterAddPoint(b, A, 3);
    assert b1.running && !b1.remoteReset && b1.basketsA == Baskets(0, 0, 1);
  }

  // ---------------------------------------------------------------------------
  // Clock

  /** `play`. */
  function AfterPlay(b: Board): Board
  {
    if b.totalSeconds == 0 && b.ajusteFinalAtivo then b
    else
      var b1 := b.(remoteReset := false, ajusteFinalAtivo := false, running := true);
      var ensure := if b.mode == Quick then EnsureWrites(b1, b.matchId, b.quickMatchNumber) else [];
      b1.(log := b.log + ensure + Pushed(b1, LiveOf(b, Running, b.quarterIndex + 1, b.totalSeconds)))
  }

  /** `play` is refused exactly when the clock shows 0 in final adjustment; otherwise the clock
      runs, the adjustment and any pending remote reset are cleared, the live row is written,
      and nothing else changes. */
  lemma PlaySpec(b: Board)
    ensures var r := AfterPlay(b);
      Extends(b, r)
      && (b.totalSeconds == 0 && b.ajusteFinalAtivo ==> r == b)
      && (!(b.totalSeconds == 0 && b.ajusteFinalAtivo) ==>
            r.running && !r.ajusteFinalAtivo && !r.remoteReset
            && r.log[|r.log| - 1] == PushLive(LiveOf(b, Running, b.quarterIndex + 1, b.totalSeconds)))
      && r.(running := b.running, ajusteFinalAtivo := b.ajusteFinalAtivo, remoteReset := b.remoteReset,
            log := b.log) == b
  {
  }

  /** `pause`. */
  function AfterPause(b: Board): Board
  {
    if b.remoteReset then b
    else b.(running := false, log := b.log + Pushed(b, LiveOf(b, Paused, b.quarterIndex + 1, b.totalSeconds)))
  }

  /** `pause` is ignored while a remote reset is pending; otherwise it stops the clock and
      writes a paused live row, changing nothing else. */
  lemma PauseSpec(b: Board)
    ensures var r := AfterPause(b);
      Extends(b, r)
      && (b.remoteReset ==> r == b)
      && (!b.remoteReset ==>
            !r.running && Emitted(b, r) == [PushLive(LiveOf(b, Paused, b.quarterIndex + 1, b.totalSeconds))])
      && r.(running := b.running, log := b.log) == b
  {
  }

  /** One firing of the one-second interval. */
  function AfterTick(b: Board): Board
  {
    if b.totalSeconds <= 1 then b.(totalSeconds := 0, running := false, log := b.log + [ScheduleTimerEnd])
    else b.(totalSeconds := b.totalSeconds - 1, log := b.log + [UpdateLiveClock(b.totalSeconds - 1)])
  }

  /** `n` firings of the interval, which exists only while the clock runs. */
  function RunTicks(b: Board, n: nat): Board
    decreases n
  {
    if n == 0 || !b.running then b else RunTicks(AfterTick(b), n - 1)
  }

  /** The live-clock writes of `k` ticks counting down from `from`. */
  function ClockUpdates(from: int, k: nat): (r: seq<Effect>)
    ensures |r| == k && forall i :: 0 <= i < k ==> r[i] == UpdateLiveClock(from - i)
  {
    seq(k, i requires 0 <= i < k => UpdateLiveClock(from - i))
  }

  /** Before the clock reaches 1, each tick takes exactly one second off and writes the
      new time to the live row. */
  lemma {:induction false} Countdown(b: Board, k: nat)
    requires b.running && k <= b.totalSeconds - 1
    ensures RunTicks(b, k) == b.(totalSeconds := b.totalSeconds - k,
                                  log := b.log + ClockUpdates(b.totalSeconds - 1, k))
    decreases k
  {
    if k > 0 {
      var u := UpdateLiveClock(b.totalSeconds - 1);
      var b1 := AfterTick(b);
      assert b1 == b.(totalSeconds := b.totalSeconds - 1, log := b.log + [u]);
      Countdown(b1, k - 1);
      assert [u] + ClockUpdates(b.totalSeconds - 2, k - 1) == ClockUpdates(b.totalSeconds - 1, k);
      assert b.log + [u] + ClockUpdates(b.totalSeconds - 2, k - 1) == b.log + ClockUpdates(b.totalSeconds - 1, k);
    }
  }

  lemma {:induction false} RunTicksSplit(b: Board, m: nat, n: nat)
    ensures RunTicks(b, m + n) == RunTicks(RunTicks(b, m), n)
    decreases m
  {
    if m > 0 && b.running {
      RunTicksSplit(AfterTick(b), m - 1, n);
    }
  }

  /** From a running clock showing `D >= 1` seconds, exactly `D` ticks stop it at 0 having
      scheduled the timer-end handler once; further ticks change nothing, the clock is never
      negative, and the scores are untouched. */
  lemma CountdownStops(b: Board, n: nat)
    requires b.running && b.totalSeconds >= 1 && n >= b.totalSeconds
    ensures var r := RunTicks(b, n);
      r == b.(running := false, totalSeconds := 0,
               log := b.log + ClockUpdates(b.totalSeconds - 1, b.totalSeconds - 1) + [ScheduleTimerEnd])
    ensures forall k :: 0 <= k < b.totalSeconds ==> RunTicks(b, k).running
  {
    var d := b.totalSeconds;
    Countdown(b, d - 1);
    var last := RunTicks(b, d - 1);
    RunTicksSplit(b, d - 1, 1);
    RunTicksSplit(b, d, n - d);
    assert RunTicks(last, 1) == AfterTick(last);
    forall k | 0 <= k < d ensures RunTicks(b, k).running {
      Countdown(b, k);
    }
  }

  /** `shouldBeep`: the warning sounds while the clock runs with 1..alertSeconds left. */
  predicate ShouldBeep(b: Board) {
    b.running && b.settings.soundEnabled && b.totalSeconds > 0 && b.totalSeconds <= b.settings.alertSeconds
  }

  /** Counting down from `D`, the warning is on at tick `k < D` exactly when sound is enabled
      and at most `alertSeconds` remain, and it is off once the clock has stopped. */
  lemma BeepWindow(b: Board, k: nat)
    requires b.running && b.totalSeconds >= 1
    ensures k < b.totalSeconds ==>
      (ShouldBeep(RunTicks(b, k)) <==> b.settings.soundEnabled && b.totalSeconds - k <= b.settings.alertSeconds)
    ensures k >= b.totalSeconds ==> !ShouldBeep(RunTicks(b, k))
  {
    if k < b.totalSeconds {
      Countdown(b, k);
    } else {
      CountdownStops(b, k);
    }
  }

  /** `resetTimer`. */
  function AfterResetTimer(b: Board): Board
  {
    b.(running := false, ajusteFinalAtivo := false, totalSeconds := b.currentDurationSeconds,
       log := b.log + Pushed(b, LiveOf(b, Paused, b.quarterIndex + 1, b.currentDurationSeconds)))
  }

  /** Resetting the timer stops the clock, ends the adjustment and puts the clock back to the
      current period's duration; scores, baskets and everything else stay. */
  lemma ResetTimerSpec(b: Board)
    ensures var r := AfterResetTimer(b);
      Extends(b, r) && !r.running && !r.ajusteFinalAtivo && r.totalSeconds == b.currentDurationSeconds
      && SameScores(b, r)
      && r.(running := b.running, ajusteFinalAtivo := b.ajusteFinalAtivo, totalSeconds := b.totalSeconds,
            log := b.log) == b
  {
  }

  /** `clearGameState`: the clock stops at the current period's duration and the scores clear. */
  function AfterClearGameState(b: Board): (r: Board)
    ensures !r.running && !r.ajusteFinalAtivo && r.totalSeconds == b.currentDurationSeconds
    ensures r.scoreA == 0 && r.scoreB == 0 && r.basketsA == NoBaskets && r.basketsB == NoBaskets
    ensures r.log == b.log && r.mode == b.mode && r.matchId == b.matchId && r.quarterIndex == b.quarterIndex
  {
    b.(running := false, ajusteFinalAtivo := false, totalSeconds := b.currentDurationSeconds,
       scoreA := 0, scoreB := 0, basketsA := NoBaskets, basketsB := NoBaskets)
  }

  /** `endLiveGame`: marks the live row ended without touching the board. */
  function AfterEndLiveGame(b: Board): Board
  {
    b.(log := b.log + Pushed(b, LiveOf(b, Ended, b.quarterIndex + 1, 0)))
  }

  // ---------------------------------------------------------------------------
  // Finishing matches

  /** The result row of match `id`: the board's scores, and both teams' baskets of each value
      added together. */
  function ResultOf(id: string, b: Board): (e: Effect)
    ensures e.UpsertResult? && e.id == id && e.scoreA == b.scoreA && e.scoreB == b.scoreB
    ensures e.baskets1 == b.basketsA.one + b.basketsB.one
    ensures e.baskets2 == b.basketsA.two + b.basketsB.two
    ensures e.baskets3 == b.basketsA.three + b.basketsB.three
    ensures e.baskets1 + 2 * e.baskets2 + 3 * e.baskets3 == Points(b.basketsA) + Points(b.basketsB)
  {
    UpsertResult(id, b.scoreA, b.scoreB,
                 b.basketsA.one + b.basketsB.one, b.basketsA.two + b.basketsB.two,
                 b.basketsA.three + b.basketsB.three)
  }

  /** The live row of the next, empty quick match. */
  function NextQuickPush(b: Board, nextNo: int): LivePush {
    LivePush(Paused, Quick, None, nextNo, 1, b.settings.quickDurationSeconds, QuickTeamA, QuickTeamB, 0, 0)
  }

  /** `prepareNextQuick`, with `nextNo` the number the quick-number lookup answers. */
  function AfterPrepareNextQuick(b: Board, nextNo: int): Board
  {
    var q := b.settings.quickDurationSeconds;
    b.(ajusteFinalAtivo := false, running := false, currentDurationSeconds := q, totalSeconds := q,
       scoreA := 0, scoreB := 0, basketsA := NoBaskets, basketsB := NoBaskets,
       quickMatchNumber := nextNo, matchId := None, current := None,
       log := b.log + Pushed(b, NextQuickPush(b, nextNo)))
  }

  /** Preparing the next quick match stops the clock at the quick duration, clears the scores,
      takes the next number and detaches the match; its only write is the live row. */
  lemma PrepareNextQuickSpec(b: Board, nextNo: int)
    ensures var r := AfterPrepareNextQuick(b, nextNo);
      Extends(b, r) && !r.running && !r.ajusteFinalAtivo
      && r.totalSeconds == r.currentDurationSeconds == b.settings.quickDurationSeconds
      && r.scoreA == 0 && r.scoreB == 0 && r.basketsA == NoBaskets && r.basketsB == NoBaskets
      && r.quickMatchNumber == nextNo && r.matchId.None? && r.current.None?
      && r.mode == b.mode && r.remoteReset == b.remoteReset
      && Emitted(b, r) == Pushed(b, NextQuickPush(b, nextNo))
  {
  }

  /** The quick match id `saveQuickMatch` writes to: the attached one, else the created one. */
  function SavedId(b: Board, newId: string): string {
    if b.matchId.Some? then b.matchId.value else newId
  }

  /** The first write of `saveQuickMatch`. */
  function SaveQuickMark(b: Board, newId: string): Effect {
    if b.matchId.Some? then MarkQuickDone(b.matchId.value, b.quickMatchNumber)
    else CreateDoneQuick(newId, b.quickMatchNumber)
  }

  /** `saveQuickMatch`: marks the attached quick match done, or creates it done when none is
      attached, then stores its result. */
  function AfterSaveQuick(b: Board, newId: string): Board
  {
    b.(matchId := Some(SavedId(b, newId)),
       log := b.log + [SaveQuickMark(b, newId), ResultOf(SavedId(b, newId), b)])
  }

  /** The writes of a quick match finished at 0-0 before the roll-over: the attached match
      (if any) and the pending match of that number are deleted and the live row is ended. */
  function DiscardQuickWrites(b: Board): seq<Effect> {
    (if b.matchId.Some? then [DeleteMatch(b.matchId.value)] else [])
    + [DeletePendingQuick(b.quickMatchNumber)]
    + Pushed(b, LivePush(Ended, Quick, None, b.quickMatchNumber, 1, 0, b.teamAName, b.teamBName, b.scoreA, b.scoreB))
  }

  /** The writes of a quick match finished with a point on the board before the roll-over. */
  function SaveQuickWrites(b: Board, newId: string): seq<Effect> {
    [SaveQuickMark(b, newId), ResultOf(SavedId(b, newId), b), ShowAlert(QuickSaved)]
    + Pushed(b, LivePush(Ended, Quick, b.matchId, b.quickMatchNumber, 1, 0, b.teamAName, b.teamBName, b.scoreA, b.scoreB))
  }

  /** `finishQuick` on its success path, with `nextNo` the next quick number and `newId` the
      id a created match receives. */
  function AfterFinishQuick(b: Board, nextNo: int, newId: string): Board
  {
    if b.scoreA == 0 && b.scoreB == 0 then
      AfterPrepareNextQuick(b.(log := b.log + DiscardQuickWrites(b)), nextNo)
    else
      AfterPrepareNextQuick(b.(matchId := Some(SavedId(b, newId)), log := b.log + SaveQuickWrites(b, newId)), nextNo)
  }

  /** A quick match finished at 0-0 is deleted, and only when one is attached; it is never
      marked done nor given a result, and the board rolls over to the next quick slot. */
  lemma FinishQuickAtZero(b: Board, nextNo: int, newId: string)
    requires b.scoreA == 0 && b.scoreB == 0
    ensures var r := AfterFinishQuick(b, nextNo, newId);
      Extends(b, r)
      && (b.matchId.Some? ==> DeleteMatch(b.matchId.value) in Emitted(b, r))
      && (forall e :: e in Emitted(b, r) && e.DeleteMatch? ==> b.matchId == Some(e.id))
      && (forall e :: e in Emitted(b, r) ==> !e.MarkQuickDone? && !e.CreateDoneQuick? && !e.UpsertResult?)
      && !r.running && r.quickMatchNumber == nextNo && r.matchId.None?
      && r.totalSeconds == b.settings.quickDurationSeconds && r.scoreA == 0 && r.scoreB == 0
  {
    var w := DiscardQuickWrites(b);
    var b1 := b.(log := b.log + w);
    var r := AfterPrepareNextQuick(b1, nextNo);
    var tail := Pushed(b1, NextQuickPush(b1, nextNo));
    assert r.log == b.log + (w + tail);
    assert Emitted(b, r) == w + tail;
    DiscardQuickWritesSpec(b);
    assert forall e :: e in tail ==> e.PushLive?;
  }

  lemma DiscardQuickWritesSpec(b: Board)
    ensures b.matchId.Some? ==> DeleteMatch(b.matchId.value) in DiscardQuickWrites(b)
    ensures forall e :: e in DiscardQuickWrites(b) ==>
      e.PushLive? || e.DeletePendingQuick? || (e.DeleteMatch? && b.matchId == Some(e.id))
  {
  }

  /** A quick match finished with a point on the board is marked done (or created done) with
      a result holding the board's scores and basket totals, is never deleted, and the board
      rolls over to the next quick slot. */
  lemma FinishQuickSaves(b: Board, nextNo: int, newId: string)
    requires b.scoreA != 0 || b.scoreB != 0
    ensures var r := AfterFinishQuick(b, nextNo, newId);
      Extends(b, r)
      && Emitted(b, r)[..2] == [SaveQuickMark(b, newId), ResultOf(SavedId(b, newId), b)]
      && (b.matchId.Some? ==> SaveQuickMark(b, newId) == MarkQuickDone(b.matchId.value, b.quickMatchNumber))
      && (b.matchId.None? ==> SaveQuickMark(b, newId) == CreateDoneQuick(newId, b.quickMatchNumber))
      && (forall e :: e in Emitted(b, r) ==> !e.DeleteMatch? && !e.DeletePendingQuick?)
      && !r.running && r.quickMatchNumber == nextNo && r.matchId.None? && r.scoreA == 0 && r.scoreB == 0
  {
    var w := SaveQuickWrites(b, newId);
    var b1 := b.(matchId := Some(SavedId(b, newId)), log := b.log + w);
    var r := AfterPrepareNextQuick(b1, nextNo);
    assert r.log == b.log + (w + Pushed(b1, NextQuickPush(b1, nextNo)));
  }

  /** The writes of `finishTournamentMatch(silent)` for match `m`. */
  function FinishTournamentWrites(b: Board, m: Match, silent: bool): seq<Effect> {
    if b.scoreA == 0 && b.scoreB == 0 then
      [DeleteMatch(m.id)] + Pushed(b, LiveOf(b, Ended, b.quarterIndex + 1, 0).(matchId := None))
      + AlertUnless(silent, ZeroMatchRemoved)
    else
      [MarkDone(m.id), ResultOf(m.id, b)] + Pushed(b, LiveOf(b, Ended, b.quarterIndex + 1, 0))
      + AlertUnless(silent, TournamentSaved)
  }

  /** `finishTournamentMatch(silent)` on its success path. It changes no field of the board. */
  function AfterFinishTournament(b: Board, silent: bool): Board
  {
    if b.current.None? then b
    else b.(log := b.log + FinishTournamentWrites(b, b.current.value, silent))
  }

  /** A tournament match finished at 0-0 is deleted and never marked done nor given a result;
      no field of the board changes. */
  lemma FinishTournamentAtZero(b: Board, silent: bool)
    requires b.current.Some? && b.scoreA == 0 && b.scoreB == 0
    ensures var r := AfterFinishTournament(b, silent);
      Extends(b, r) && r.(log := b.log) == b
      && Emitted(b, r)[0] == DeleteMatch(b.current.value.id)
      && (forall e :: e in Emitted(b, r) ==> !e.MarkDone? && !e.UpsertResult?)
      && (silent ==> forall e :: e in Emitted(b, r) ==> !e.ShowAlert?)
  {
    var r := AfterFinishTournament(b, silent);
    assert Emitted(b, r) == FinishTournamentWrites(b, b.current.value, silent);
  }

  /** A tournament match finished with a point on the board is marked done and given a result
      holding the board's scores and basket totals, and is never deleted. */
  lemma FinishTournamentSaves(b: Board, silent: bool)
    requires b.current.Some? && (b.scoreA != 0 || b.scoreB != 0)
    ensures var r := AfterFinishTournament(b, silent);
      Extends(b, r) && r.(log := b.log) == b
      && |Emitted(b, r)| >= 2
      && Emitted(b, r)[..2] == [MarkDone(b.current.value.id), ResultOf(b.current.value.id, b)]
      && (forall e :: e in Emitted(b, r) ==> !e.DeleteMatch?)
      && (silent ==> forall e :: e in Emitted(b, r) ==> !e.ShowAlert?)
  {
    var r := AfterFinishTournament(b, silent);
    assert Emitted(b, r) == FinishTournamentWrites(b, b.current.value, silent);
  }

  /** `durations?.[i] || fallback`. */
  function DurationAt(durations: seq<int>, i: int, fallback: int): (d: int)
    ensures 0 <= i < |durations| && durations[i] != 0 ==> d == durations[i]
    ensures !(0 <= i < |durations| && durations[i] != 0) ==> d == fallback
  {
    if 0 <= i < |durations| && durations[i] != 0 then durations[i] else fallback
  }

  /** The current match is in its last quarter. */
  predicate LastQuarter(b: Board)
    requires b.current.Some?
  {
    b.quarterIndex >= b.current.value.quarters - 1
  }

  /** `advanceQuarterOrFinish`. */
  function AfterAdvance(b: Board): Board
  {
    if b.current.None? then b
    else if LastQuarter(b) then AfterFinishTournament(b, true)
    else
      var next := b.quarterIndex + 1;
      var d := DurationAt(b.current.value.durations, next, b.settings.quickDurationSeconds);
      b.(quarterIndex := next, currentDurationSeconds := d, totalSeconds := d, ajusteFinalAtivo := false,
         log := b.log + Pushed(b, LiveOf(b, Paused, next + 1, d)))
  }

  /** Advancing does nothing without a current match and finishes the match silently in its
      last quarter; otherwise the next quarter starts with its own duration (or the quick
      duration when that entry is missing or 0), and the scores carry over. */
  lemma AdvanceSpec(b: Board)
    ensures var r := AfterAdvance(b);
      (b.current.None? ==> r == b)
      && (b.current.Some? && LastQuarter(b) ==> r == AfterFinishTournament(b, true))
      && (b.current.Some? && !LastQuarter(b) ==>
            Extends(b, r) && r.quarterIndex == b.quarterIndex + 1
            && r.totalSeconds == r.currentDurationSeconds
               == DurationAt(b.current.value.durations, b.quarterIndex + 1, b.settings.quickDurationSeconds)
            && !r.ajusteFinalAtivo && r.running == b.running && SameScores(b, r)
            && r.current == b.current && r.mode == b.mode)
  {
  }

  /** The timer-end handler, reading the board as it is when the handler runs. */
  function AfterTimerEnd(b: Board, confirmed: bool, nextNo: int, newId: string): Board
  {
    if b.mode == Tournament then
      if confirmed then AfterAdvance(b)
      else b.(ajusteFinalAtivo := true, log := b.log + [ShowAlert(QuarterAtZero)])
    else if confirmed then AfterFinishQuick(b, nextNo, newId)
    else
      b.(ajusteFinalAtivo := true,
         log := b.log + [ShowAlert(ClockAtZero)] + Pushed(b, LiveOf(b, Paused, b.quarterIndex + 1, b.totalSeconds)))
  }

  /** Declining the timer-end prompt leaves the clock at 0 in final adjustment, where scores
      can still be changed but `play` is refused. */
  lemma DeclineTimerEnd(b: Board, nextNo: int, newId: string, side: Side, delta: int)
    requires b.totalSeconds == 0 && !b.running && !b.remoteReset
    ensures var r := AfterTimerEnd(b, false, nextNo, newId);
      r.ajusteFinalAtivo && r.totalSeconds == 0 && SameScores(b, r)
      && AfterPlay(r) == r
      && (side == A ==> AfterAddPoint(r, side, delta).scoreA == ClampScore(b.scoreA, delta))
      && (side == B ==> AfterAddPoint(r, side, delta).scoreB == ClampScore(b.scoreB, delta))
  {
  }

  /** Confirming the timer-end prompt when the match ends saves the board's own scores. */
  lemma TimerEndSavesBoard(b: Board, nextNo: int, newId: string)
    requires b.scoreA != 0 || b.scoreB != 0
    requires b.mode == Quick || (b.current.Some? && LastQuarter(b))
    ensures var r := AfterTimerEnd(b, true, nextNo, newId);
      Extends(b, r)
      && (b.mode == Quick ==> ResultOf(SavedId(b, newId), b) in Emitted(b, r))
      && (b.mode == Tournament ==> ResultOf(b.current.value.id, b) in Emitted(b, r))
      && (forall e :: e in Emitted(b, r) ==> !e.DeleteMatch?)
  {
    var r := AfterTimerEnd(b, true, nextNo, newId);
    if b.mode == Quick {
      FinishQuickSaves(b, nextNo, newId);
      assert ResultOf(SavedId(b, newId), b) == Emitted(b, r)[..2][1];
    } else {
      FinishTournamentSaves(b, true);
      assert ResultOf(b.current.value.id, b) == Emitted(b, r)[..2][1];
    }
  }

  /** The board as the timer-end handler of the source reads it: the interval calling the
      handler is set up only when `running` changes, so the handler and everything it calls
      read every state hook as it was in the render in which the clock was last started
      (`armed`); refs such as the current match are read as they are now. Only the hooks
      this device's own intents change while the clock runs are taken from `armed`: the
      scores and baskets (scoring) and the match id and quick number (a quick match attached
      after the start). The clock, which the ticks change, is not read on the confirmed path
      this function serves. The other hooks (mode, quarter, names, settings) change while the
      clock runs only through a live snapshot or remote reset from another device, or a
      settings edit, and are read current here. */
  function Captured(armed: Board, b: Board): Board {
    b.(scoreA := armed.scoreA, scoreB := armed.scoreB, basketsA := armed.basketsA, basketsB := armed.basketsB,
       matchId := armed.matchId, quickMatchNumber := armed.quickMatchNumber)
  }

  /** As written: a confirmed timer end issues the writes computed from the captured board.
      The fields it sets are those of `AfterTimerEnd`, since the roll-over of a quick match
      overwrites every captured field and a tournament finish sets none. */
  function TimerEndAsWritten(armed: Board, b: Board, nextNo: int, newId: string): Board
  {
    AfterTimerEnd(b, true, nextNo, newId).(log := AfterTimerEnd(Captured(armed, b), true, nextNo, newId).log)
  }

  /** The discrepancy: the last quarter of a tournament match started at 0-0, two points
      scored while the clock runs, the clock runs out and the end is confirmed. The handler as
      written deletes the match and stores no result; reading the current board stores the
      result with the two points. */
  lemma StaleTimerEnd(b0: Board, nextNo: int, newId: string)
    requires b0.mode == Tournament && b0.current.Some? && LastQuarter(b0)
    requires !b0.running && !b0.ajusteFinalAtivo && !b0.remoteReset && b0.totalSeconds >= 1
    requires b0.scoreA == 0 && b0.scoreB == 0
    ensures var armed := AfterPlay(b0);
      var end := RunTicks(AfterAddPoint(armed, A, 2), armed.totalSeconds);
      var stale := TimerEndAsWritten(armed, end, nextNo, newId);
      var fixed := AfterTimerEnd(end, true, nextNo, newId);
      end.scoreA == 2 && Extends(end, stale) && Extends(end, fixed)
      && DeleteMatch(b0.current.value.id) in Emitted(end, stale)
      && (forall e :: e in Emitted(end, stale) ==> !e.UpsertResult?)
      && ResultOf(b0.current.value.id, end) in Emitted(end, fixed)
  {
    var armed := AfterPlay(b0);
    PlaySpec(b0);
    var scored := AfterAddPoint(armed, A, 2);
    AddPointScores(armed, A, 2);
    CountdownStops(scored, armed.totalSeconds);
    var end := RunTicks(scored, armed.totalSeconds);
    assert end.current == b0.current && end.mode == Tournament && end.quarterIndex == b0.quarterIndex;
    assert LastQuarter(end);
    var c := Captured(armed, end);
    assert c.log == end.log && c.current == end.current && c.scoreA == 0 && c.scoreB == 0;
    FinishTournamentAtZero(c, true);
    TimerEndSavesBoard(end, nextNo, newId);
  }

  /** `saveCurrentIfNeeded`. */
  function AfterSaveCurrent(b: Board, nextNo: int, newId: string): Board
  {
    if b.scoreA == 0 && b.scoreB == 0 then b
    else if b.mode == Quick then AfterPrepareNextQuick(AfterSaveQuick(b, newId), nextNo)
    else AfterFinishTournament(b, true)
  }

  /** Leaving the game page saves nothing at 0-0; a quick match is saved with the board's
      result and the board rolls over; a tournament match is finished silently. */
  lemma SaveCurrentSpec(b: Board, nextNo: int, newId: string)
    ensures var r := AfterSaveCurrent(b, nextNo, newId);
      (b.scoreA == 0 && b.scoreB == 0 ==> r == b)
      && ((b.scoreA != 0 || b.scoreB != 0) && b.mode == Tournament ==> r == AfterFinishTournament(b, true))
      && ((b.scoreA != 0 || b.scoreB != 0) && b.mode == Quick ==>
            Extends(b, r) && r.scoreA == 0 && r.scoreB == 0 && r.quickMatchNumber == nextNo
            && Emitted(b, r)[..2] == [SaveQuickMark(b, newId), ResultOf(SavedId(b, newId), b)])
  {
    if (b.scoreA != 0 || b.scoreB != 0) && b.mode == Quick {
      var saved := AfterSaveQuick(b, newId);
      var r := AfterPrepareNextQuick(saved, nextNo);
      assert r.log == b.log + ([SaveQuickMark(b, newId), ResultOf(SavedId(b, newId), b)]
                               + Pushed(saved, NextQuickPush(saved, nextNo)));
    }
  }

  // ---------------------------------------------------------------------------
  // Starting matches

  function OrElse(s: string, fallback: string): (r: string)
    ensures fallback != "" ==> r != ""
    ensures s != "" ==> r == s
  {
    if s != "" then s else fallback
  }

  /** `startQuick`, with `nextNo` the number the quick-number lookup answers. The match id
      `ensureQuickMatch` then sees is the one from before the call. */
  function AfterStartQuick(b: Board, nextNo: int): Board
  {
    var q := b.settings.quickDurationSeconds;
    var b1 := b.(mode := Quick, matchId := None, quarterIndex := 0, teamAName := QuickTeamA, teamBName := QuickTeamB,
                 scoreA := 0, scoreB := 0, basketsA := NoBaskets, basketsB := NoBaskets,
                 currentDurationSeconds := q, totalSeconds := q, ajusteFinalAtivo := false, running := false,
                 remoteReset := false, quickMatchNumber := nextNo);
    b1.(log := b.log + EnsureWrites(b1, b.matchId, nextNo))
  }

  /** Starting a quick game gives a stopped, empty quick board at the quick duration with the
      next number and no pending remote reset; the pending match is looked up only when no
      match was attached before the call. */
  lemma StartQuickSpec(b: Board, nextNo: int)
    ensures var r := AfterStartQuick(b, nextNo);
      Extends(b, r) && r.mode == Quick && r.matchId.None? && r.quarterIndex == 0
      && !r.running && !r.ajusteFinalAtivo && !r.remoteReset
      && r.teamAName == QuickTeamA && r.teamBName == QuickTeamB
      && r.scoreA == 0 && r.scoreB == 0 && r.basketsA == NoBaskets && r.basketsB == NoBaskets
      && r.totalSeconds == r.currentDurationSeconds == b.settings.quickDurationSeconds
      && r.quickMatchNumber == nextNo
      && (b.matchId.None? ==> Emitted(b, r) == [EnsureQuickMatch(nextNo)])
      && (b.matchId.Some? ==> Emitted(b, r) == [])
  {
  }

  /** `startTournamentMatch(m)`. */
  function AfterStartTournament(b: Board, m: Match): Board
  {
    var initial := DurationAt(m.durations, 0, b.settings.quickDurationSeconds);
    var nameA := OrElse(m.teamAName, "TIME 1");
    var nameB := OrElse(m.teamBName, "TIME 2");
    var b1 := b.(mode := Tournament, matchId := Some(m.id), quarterIndex := 0, current := Some(m),
                 teamAName := nameA, teamBName := nameB,
                 scoreA := 0, scoreB := 0, basketsA := NoBaskets, basketsB := NoBaskets,
                 currentDurationSeconds := initial, totalSeconds := initial,
                 ajusteFinalAtivo := false, running := false, remoteReset := false);
    b1.(log := b.log + [PushLive(LivePush(Paused, Tournament, Some(m.id), m.matchNo, 1, initial, nameA, nameB, 0, 0))])
  }

  /** Starting a tournament match puts it on the clock at quarter 1 with its first duration
      (or the quick duration), cleared scores, named teams and a paused live row. */
  lemma StartTournamentSpec(b: Board, m: Match)
    ensures var r := AfterStartTournament(b, m);
      Extends(b, r) && r.mode == Tournament && r.matchId == Some(m.id) && r.current == Some(m)
      && r.quarterIndex == 0
      && r.totalSeconds == r.currentDurationSeconds == DurationAt(m.durations, 0, b.settings.quickDurationSeconds)
      && r.scoreA == 0 && r.scoreB == 0 && r.basketsA == NoBaskets && r.basketsB == NoBaskets
      && !r.running && !r.ajusteFinalAtivo && !r.remoteReset
      && r.teamAName != "" && r.teamBName != ""
      && Emitted(b, r) == [PushLive(LivePush(Paused, Tournament, Some(m.id), m.matchNo, 1, r.totalSeconds,
                                             r.teamAName, r.teamBName, 0, 0))]
  {
  }

  /** The pending quick match found by `ensureQuickMatch` is attached to the board. */
  function AfterQuickMatchFound(b: Board, m: Match): (r: Board)
    ensures r.matchId == Some(m.id) && r.current == Some(m)
    ensures m.matchNo != 0 ==> r.quickMatchNumber == m.matchNo
    ensures m.matchNo == 0 ==> r.quickMatchNumber == b.quickMatchNumber
    ensures r.(matchId := b.matchId, current := b.current, quickMatchNumber := b.quickMatchNumber) == b
  {
    b.(matchId := Some(m.id), current := Some(m),
       quickMatchNumber := if m.matchNo != 0 then m.matchNo else b.quickMatchNumber)
  }

  // ---------------------------------------------------------------------------
  // The live row: heartbeats, snapshots and remote resets

  /** The once-a-second heartbeat while the clock runs. */
  function AfterHeartbeat(b: Board): Board
  {
    if !b.running then b
    else b.(log := b.log + Pushed(b, LiveOf(b, Running, b.quarterIndex + 1, b.totalSeconds)))
  }

  /** The write that follows any change of a quick game with an attached match. */
  function AfterQuickSync(b: Board): Board
  {
    if b.mode != Quick then b
    else if b.matchId.None? then b
    else b.(log := b.log + Pushed(b, LivePush(StatusOf(b.running), Quick, b.matchId, b.quickMatchNumber, 1,
                                              b.totalSeconds, b.teamAName, b.teamBName, b.scoreA, b.scoreB)))
  }

  /** While a remote reset is pending no `pushLiveGame` write happens: scoring and pausing are
      ignored, and resetting the timer, declining the timer end, ending the live game, the
      heartbeat and the quick sync push no live row. The clock tick is not held back: it
      writes the remaining time with `updateLiveGame`, which bypasses that guard. */
  lemma NoPushWhileResetPending(b: Board, side: Side, delta: int, nextNo: int, newId: string)
    requires b.remoteReset
    ensures AfterAddPoint(b, side, delta) == b && AfterPause(b) == b
    ensures AfterResetTimer(b).log == b.log && AfterEndLiveGame(b) == b
    ensures AfterHeartbeat(b) == b && AfterQuickSync(b) == b
    ensures forall e :: e in AfterTimerEnd(b, false, nextNo, newId).log[|b.log|..] ==> !e.PushLive?
    ensures b.totalSeconds > 1 ==> AfterTick(b).log == b.log + [UpdateLiveClock(b.totalSeconds - 1)]
  {
    var r := AfterTimerEnd(b, false, nextNo, newId);
    assert r.log[|b.log|..] == [ShowAlert(if b.mode == Tournament then QuarterAtZero else ClockAtZero)];
  }

  /** `applyRemoteReset`. */
  function AfterRemoteReset(b: Board): Board
  {
    if b.resetting then b
    else
      var q := b.settings.quickDurationSeconds;
      b.(resetting := true, remoteReset := true, running := false, ajusteFinalAtivo := false,
         mode := Quick, quarterIndex := 0, teamAName := QuickTeamA, teamBName := QuickTeamB,
         scoreA := 0, scoreB := 0, basketsA := NoBaskets, basketsB := NoBaskets,
         currentDurationSeconds := q, totalSeconds := q, matchId := None, current := None,
         quickMatchNumber := 1)
  }

  /** A remote reset is ignored while one is in progress; otherwise the board becomes an
      empty, stopped quick game numbered 1 at the quick duration, with no match attached and
      pushes suppressed; it writes nothing. */
  lemma RemoteResetSpec(b: Board)
    ensures var r := AfterRemoteReset(b);
      (b.resetting ==> r == b)
      && (!b.resetting ==>
            r.mode == Quick && r.quarterIndex == 0 && r.scoreA == 0 && r.scoreB == 0
            && r.basketsA == NoBaskets && r.basketsB == NoBaskets && !r.running && !r.ajusteFinalAtivo
            && r.matchId.None? && r.current.None? && r.quickMatchNumber == 1
            && r.totalSeconds == r.currentDurationSeconds == b.settings.quickDurationSeconds
            && r.resetting && r.remoteReset && r.log == b.log)
  {
  }

  /** The one-second cool-down after a remote reset has elapsed. */
  function AfterResetCooldown(b: Board): (r: Board)
    ensures !r.resetting && r.(resetting := b.resetting) == b
  {
    b.(resetting := false)
  }

  /** After a remote reset, scoring and pausing are ignored until `play` is pressed, which is
      always accepted and resumes writing the live row. */
  lemma ResetHoldsUntilPlay(b: Board, side: Side, delta: int)
    requires !b.resetting
    ensures var r := AfterRemoteReset(b);
      AfterAddPoint(r, side, delta) == r && AfterPause(r) == r
      && AfterPlay(r).running && !AfterPlay(r).remoteReset
      && PushLive(LiveOf(r, Running, 1, r.totalSeconds)) in AfterPlay(r).log
  {
    var r := AfterRemoteReset(b);
    assert !(r.totalSeconds == 0 && r.ajusteFinalAtivo);
    PlaySpec(r);
    var p := AfterPlay(r);
    assert p.log[|p.log| - 1] == PushLive(LiveOf(r, Running, 1, r.totalSeconds));
  }

  /** `mode || 'quick'`. */
  function ModeOr(mode: Option<Mode>): Mode {
    if mode.Some? then mode.value else Quick
  }

  /** `x || fallback` on a number. */
  function NumberOr(x: int, fallback: int): int {
    if x != 0 then x else fallback
  }

  /** `Math.max(0, (quarter || 1) - 1)`. */
  function QuarterIndexOf(quarter: int): nat {
    var q := NumberOr(quarter, 1);
    if q - 1 < 0 then 0 else q - 1
  }

  /** `id || null`. */
  function IdOrNull(id: string): Option<string> {
    if id != "" then Some(id) else None
  }

  /** `applyLiveSnapshot(live)`, where `quick` is the quick duration held by the render whose
      `applyLiveSnapshot` runs: the current one for a call made now, the first render's for
      the call made by `pollLive`. */
  function AfterSnapshot(b: Board, live: LiveGame, quick: int): Board
  {
    if live.resetAt != 0 then b
    else
      var time := NumberOr(live.timeLeft, quick);
      b.(mode := ModeOr(live.mode), quarterIndex := QuarterIndexOf(live.quarter),
         teamAName := OrElse(live.teamA, QuickTeamA), teamBName := OrElse(live.teamB, QuickTeamB),
         scoreA := live.scoreA, scoreB := live.scoreB,
         totalSeconds := time, currentDurationSeconds := time,
         matchId := IdOrNull(live.matchId), quickMatchNumber := NumberOr(live.matchNo, b.quickMatchNumber),
         ajusteFinalAtivo := false, running := live.status == Running)
  }

  /** A row carrying `reset_at` is not applied; any other row replaces what the board shows,
      with the quick defaults standing in for its empty fields, and keeps the basket records
      and the write log. */
  lemma SnapshotSpec(b: Board, live: LiveGame, quick: int)
    ensures var r := AfterSnapshot(b, live, quick);
      (live.resetAt != 0 ==> r == b)
      && (live.resetAt == 0 ==>
            r.running == (live.status == Running) && !r.ajusteFinalAtivo
            && r.scoreA == live.scoreA && r.scoreB == live.scoreB
            && r.quarterIndex == (if live.quarter <= 1 then 0 else live.quarter - 1)
            && r.totalSeconds == r.currentDurationSeconds
            && (live.timeLeft != 0 ==> r.totalSeconds == live.timeLeft)
            && (live.timeLeft == 0 ==> r.totalSeconds == quick)
            && (live.matchNo != 0 ==> r.quickMatchNumber == live.matchNo)
            && (live.matchNo == 0 ==> r.quickMatchNumber == b.quickMatchNumber)
            && r.teamAName != "" && r.teamBName != ""
            && r.log == b.log && r.basketsA == b.basketsA && r.basketsB == b.basketsB
            && r.remoteReset == b.remoteReset)
  {
  }

  /** The time a polled row counts as written: its `updated_at`, or the poll's clock. */
  function StampOf(live: LiveGame, now: int): int {
    if live.updatedAt.Some? then live.updatedAt.value else now
  }

  /** `pollLive`: a row is applied only when no row was accepted yet or it is strictly newer
      than the last one accepted. The poll is set up once, when the provider mounts, so the
      `applyLiveSnapshot` it calls holds the quick duration of that first render,
      `mountQuick`, whatever the settings are now. */
  function AfterPollLive(b: Board, live: Option<LiveGame>, now: int, mountQuick: int): (r: Board)
    ensures live.None? ==> r == b
    ensures r != b ==> live.Some? && (b.lastLiveAt == 0 || StampOf(live.value, now) > b.lastLiveAt)
    ensures live.Some? && (b.lastLiveAt == 0 || StampOf(live.value, now) > b.lastLiveAt) ==>
      r == AfterSnapshot(b.(lastLiveAt := StampOf(live.value, now)), live.value, mountQuick)
    ensures r.log == b.log && r.lastResetAt == b.lastResetAt && r.resetting == b.resetting
  {
    if live.None? then b
    else
      var t := StampOf(live.value, now);
      if b.lastLiveAt == 0 || t > b.lastLiveAt then AfterSnapshot(b.(lastLiveAt := t), live.value, mountQuick)
      else b
  }

  /** An accepted row without a time shows the quick duration the provider mounted with, not
      the one in the settings now: after the quick duration is changed from 420 s to 600 s, a
      polled ended row shows 420 s. */
  lemma PollLiveMountDuration(b: Board, live: LiveGame, now: int, mountQuick: int)
    requires b.lastLiveAt == 0 && live.resetAt == 0 && live.timeLeft == 0
    ensures var r := AfterPollLive(b, Some(live), now, mountQuick);
      r.totalSeconds == r.currentDurationSeconds == mountQuick
      && (b.settings.quickDurationSeconds != mountQuick ==> r.totalSeconds != r.settings.quickDurationSeconds)
  {
  }

  /** Polling the same stamped row again changes nothing: each row is applied at most once. */
  lemma PollLiveOnce(b: Board, live: LiveGame, now: int, later: int, mountQuick: int)
    requires live.updatedAt.Some? && live.updatedAt.value != 0
    ensures var r := AfterPollLive(b, Some(live), now, mountQuick); AfterPollLive(r, Some(live), later, mountQuick) == r
  {
    var r := AfterPollLive(b, Some(live), now, mountQuick);
    if b.lastLiveAt == 0 || live.updatedAt.value > b.lastLiveAt {
      assert r.lastLiveAt == live.updatedAt.value;
    } else {
      assert r == b;
    }
  }

  /** A polled row carrying `reset_at` never changes what the board shows. */
  lemma ResetRowNotShown(b: Board, live: LiveGame, now: int, mountQuick: int)
    requires live.resetAt != 0
    ensures var r := AfterPollLive(b, Some(live), now, mountQuick); r.(lastLiveAt := b.lastLiveAt) == b
  {
  }

  /** `pollReset`: a reset is applied only when it is stamped and strictly newer than the last
      one seen; the stamp is remembered even when a reset is already in progress. */
  function AfterPollReset(b: Board, live: Option<LiveGame>): (r: Board)
    ensures r != b ==> live.Some? && live.value.resetAt != 0
                       && (b.lastResetAt == 0 || live.value.resetAt > b.lastResetAt)
    ensures live.Some? && live.value.resetAt != 0 && (b.lastResetAt == 0 || live.value.resetAt > b.lastResetAt) ==>
      r == AfterRemoteReset(b.(lastResetAt := live.value.resetAt))
    ensures r.log == b.log && r.lastLiveAt == b.lastLiveAt
  {
    var resetAt := if live.Some? then live.value.resetAt else 0;
    if resetAt != 0 && (b.lastResetAt == 0 || resetAt > b.lastResetAt) then
      AfterRemoteReset(b.(lastResetAt := resetAt))
    else b
  }

  /** Seeing the same reset twice resets the board at most once. */
  lemma PollResetOnce(b: Board, live: LiveGame)
    ensures var r := AfterPollReset(b, Some(live)); AfterPollReset(r, Some(live)) == r
  {
    var r := AfterPollReset(b, Some(live));
    if live.resetAt != 0 && (b.lastResetAt == 0 || live.resetAt > b.lastResetAt) {
      assert r.lastResetAt == live.resetAt;
    } else {
      assert r == b;
    }
  }
}
