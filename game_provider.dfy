/** The game provider as an object: the state hooks and refs of the provider are fields of
    `Scoreboard`, each hook's setter is a `Set...` method, and each intent is a method that
    calls the setters in the order the provider does. Every intent is proved to take the
    object to the state its transition function in `Game` describes, so the lemmas proved
    there hold of the object. */
module GameProvider {
  import opened Text
  import opened Game

  class Scoreboard {
    var mode: Mode
    var matchId: Option<string>
    /** The match the provider keeps in `currentMatchRef`. */
    var current: Option<Match>
    var quarterIndex: nat
    var currentDurationSeconds: int
    var totalSeconds: int
    var running: bool
    var ajusteFinalAtivo: bool
    var teamAName: string
    var teamBName: string
    var scoreA: int
    var scoreB: int
    var basketsA: Baskets
    var basketsB: Baskets
    var quickMatchNumber: int
    var lastLiveAt: int
    var lastResetAt: int
    var remoteReset: bool
    var resetting: bool
    var settings: Settings
    /** The quick duration of the settings the provider mounted with, which the live poll,
        set up once at mount, keeps reading. */
    const mountQuickSeconds: int
    /** The writes issued so far, in order. */
    var log: seq<Effect>

    /** The object's fields as a `Game.Board`. */
    function State(): Board
      reads this
    {
      Board(mode, matchId, current, quarterIndex, currentDurationSeconds, totalSeconds,
            running, ajusteFinalAtivo, teamAName, teamBName, scoreA, scoreB, basketsA, basketsB,
            quickMatchNumber, lastLiveAt, lastResetAt, remoteReset, resetting, settings, log)
    }

    constructor (settings: Settings)
      ensures State() == Initial(settings)
      ensures mountQuickSeconds == settings.quickDurationSeconds
    {
      mountQuickSeconds := settings.quickDurationSeconds;
      mode := Quick;
      matchId := None;
      current := None;
      quarterIndex := 0;
      currentDurationSeconds := settings.quickDurationSeconds;
      totalSeconds := settings.quickDurationSeconds;
      running := false;
      ajusteFinalAtivo := false;
      teamAName := "TIME 1";
      teamBName := "TIME 2";
      scoreA := 0;
      scoreB := 0;
      basketsA := NoBaskets;
      basketsB := NoBaskets;
      quickMatchNumber := 1;
      lastLiveAt := 0;
      lastResetAt := 0;
      remoteReset := false;
      resetting := false;
      this.settings := settings;
      log := [];
    }

    // -------------------------------------------------------------------------
    // One setter per state hook or ref

    method SetMode(v: Mode)
      modifies this
      ensures State() == old(State()).(mode := v)
    {
      mode := v;
    }

    method SetMatchId(v: Option<string>)
      modifies this
      ensures State() == old(State()).(matchId := v)
    {
      matchId := v;
    }

    method SetCurrentMatch(v: Option<Match>)
      modifies this
      ensures State() == old(State()).(current := v)
    {
      current := v;
    }

    method SetQuarterIndex(v: nat)
      modifies this
      ensures State() == old(State()).(quarterIndex := v)
    {
      quarterIndex := v;
    }

    method SetCurrentDurationSeconds(v: int)
      modifies this
      ensures State() == old(State()).(currentDurationSeconds := v)
    {
      currentDurationSeconds := v;
    }

    method SetTotalSeconds(v: int)
      modifies this
      ensures State() == old(State()).(totalSeconds := v)
    {
      totalSeconds := v;
    }

    method SetRunning(v: bool)
      modifies this
      ensures State() == old(State()).(running := v)
    {
      running := v;
    }

    method SetAjusteFinalAtivo(v: bool)
      modifies this
      ensures State() == old(State()).(ajusteFinalAtivo := v)
    {
      ajusteFinalAtivo := v;
    }

    method SetTeamAName(v: string)
      modifies this
      ensures State() == old(State()).(teamAName := v)
    {
      teamAName := v;
    }

    method SetTeamBName(v: string)
      modifies this
      ensures State() == old(State()).(teamBName := v)
    {
      teamBName := v;
    }

    method SetScoreA(v: int)
      modifies this
      ensures State() == old(State()).(scoreA := v)
    {
      scoreA := v;
    }

    method SetScoreB(v: int)
      modifies this
      ensures State() == old(State()).(scoreB := v)
    {
      scoreB := v;
    }

    method SetBasketsA(v: Baskets)
      modifies this
      ensures State() == old(State()).(basketsA := v)
    {
      basketsA := v;
    }

    method SetBasketsB(v: Baskets)
      modifies this
      ensures State() == old(State()).(basketsB := v)
    {
      basketsB := v;
    }

    method SetQuickMatchNumber(v: int)
      modifies this
      ensures State() == old(State()).(quickMatchNumber := v)
    {
      quickMatchNumber := v;
    }

    method SetLastLiveAt(v: int)
      modifies this
      ensures State() == old(State()).(lastLiveAt := v)
    {
      lastLiveAt := v;
    }

    method SetLastResetAt(v: int)
      modifies this
      ensures State() == old(State()).(lastResetAt := v)
    {
      lastResetAt := v;
    }

    method SetRemoteReset(v: bool)
      modifies this
      ensures State() == old(State()).(remoteReset := v)
    {
      remoteReset := v;
    }

    method SetResetting(v: bool)
      modifies this
      ensures State() == old(State()).(resetting := v)
    {
      resetting := v;
    }

    /** `setSettings(s)`, as the settings page's `save()` calls it. */
    method SetSettings(s: Settings)
      modifies this
      ensures State() == old(State()).(settings := s)
    {
      settings := s;
    }

    /** Issues the write `e`. */
    method Issue(e: Effect)
      modifies this
      ensures State() == old(State()).(log := old(log) + [e])
    {
      log := log + [e];
    }

    // -------------------------------------------------------------------------
    // Helpers of the provider

    /** `if (!silent) showAlert(a)`. */
    method AlertUnlessSilent(silent: bool, a: Alert)
      modifies this
      ensures State() == old(State()).(log := old(log) + AlertUnless(silent, a))
    {
      if !silent {
        Issue(ShowAlert(a));
      }
    }

    /** `pushLiveGame(p)`: suppressed while a remote reset is pending. */
    method PushLiveGame(p: LivePush)
      modifies this
      ensures State() == old(State()).(log := old(log) + Pushed(old(State()), p))
    {
      if remoteReset {
        return;
      }
      Issue(PushLive(p));
    }

    /** The part of `ensureQuickMatch` before its first lookup, reading `seenMatchId`. */
    method EnsureQuick(seenMatchId: Option<string>, matchNo: int)
      modifies this
      ensures State() == old(State()).(log := old(log) + EnsureWrites(old(State()), seenMatchId, matchNo))
    {
      if remoteReset {
        return;
      }
      if seenMatchId.Some? {
        return;
      }
      Issue(EnsureQuickMatch(matchNo));
    }

    method ResetCounters()
      modifies this
      ensures State() == old(State()).(scoreA := 0, scoreB := 0, basketsA := NoBaskets, basketsB := NoBaskets)
    {
      SetScoreA(0);
      SetScoreB(0);
      SetBasketsA(NoBaskets);
      SetBasketsB(NoBaskets);
    }

    // -------------------------------------------------------------------------
    // Intents

    method Play()
      modifies this
      ensures State() == AfterPlay(old(State()))
    {
      if totalSeconds == 0 && ajusteFinalAtivo {
        return;
      }
      var payload := LiveOf(State(), Running, quarterIndex + 1, totalSeconds);
      var seen := matchId;
      SetRemoteReset(false);
      SetAjusteFinalAtivo(false);
      SetRunning(true);
      if mode == Quick {
        EnsureQuick(seen, quickMatchNumber);
      }
      PushLiveGame(payload);
    }

    method Pause()
      modifies this
      ensures State() == AfterPause(old(State()))
    {
      if remoteReset {
        return;
      }
      var payload := LiveOf(State(), Paused, quarterIndex + 1, totalSeconds);
      SetRunning(false);
      PushLiveGame(payload);
    }

    method AddPoint(side: Side, delta: int)
      modifies this
      ensures State() == AfterAddPoint(old(State()), side, delta)
    {
      if !(running || ajusteFinalAtivo) {
        return;
      }
      if remoteReset {
        return;
      }
      if mode == Quick {
        EnsureQuick(matchId, quickMatchNumber);
      }
      match side
      case A =>
        var next := ClampScore(scoreA, delta);
        Issue(UpdateLiveScore(StatusOf(running), next, scoreB));
        SetScoreA(next);
        SetBasketsA(RecordBasket(basketsA, delta));
      case B =>
        var next := ClampScore(scoreB, delta);
        Issue(UpdateLiveScore(StatusOf(running), scoreA, next));
        SetScoreB(next);
        SetBasketsB(RecordBasket(basketsB, delta));
    }

    /** One firing of the one-second interval. */
    method Tick()
      modifies this
      ensures State() == AfterTick(old(State()))
    {
      if totalSeconds <= 1 {
        SetRunning(false);
        Issue(ScheduleTimerEnd);
        SetTotalSeconds(0);
      } else {
        var next := totalSeconds - 1;
        Issue(UpdateLiveClock(next));
        SetTotalSeconds(next);
      }
    }

    /** The interval left to fire for `n` seconds: it ticks while the clock runs. */
    method RunClock(n: nat)
      modifies this
      ensures State() == RunTicks(old(State()), n)
    {
      ghost var start := State();
      var i := 0;
      while i < n && running
        invariant 0 <= i <= n
        invariant State() == RunTicks(start, i)
      {
        RunTicksSplit(start, i, 1);
        Tick();
        i := i + 1;
      }
      RunTicksSplit(start, i, n - i);
    }

    method ResetTimer()
      modifies this
      ensures State() == AfterResetTimer(old(State()))
    {
      var payload := LiveOf(State(), Paused, quarterIndex + 1, currentDurationSeconds);
      SetRunning(false);
      SetAjusteFinalAtivo(false);
      SetTotalSeconds(currentDurationSeconds);
      PushLiveGame(payload);
    }

    method ClearGameState()
      modifies this
      ensures State() == AfterClearGameState(old(State()))
    {
      SetRunning(false);
      SetAjusteFinalAtivo(false);
      SetTotalSeconds(currentDurationSeconds);
      ResetCounters();
    }

    method EndLiveGame()
      modifies this
      ensures State() == AfterEndLiveGame(old(State()))
    {
      PushLiveGame(LiveOf(State(), Ended, quarterIndex + 1, 0));
    }

    /** `prepareNextQuick`, with `nextNo` the number the quick-number lookup answers. */
    method PrepareNextQuick(nextNo: int)
      modifies this
      ensures State() == AfterPrepareNextQuick(old(State()), nextNo)
    {
      var payload := NextQuickPush(State(), nextNo);
      SetAjusteFinalAtivo(false);
      SetRunning(false);
      SetCurrentDurationSeconds(settings.quickDurationSeconds);
      SetTotalSeconds(settings.quickDurationSeconds);
      ResetCounters();
      SetQuickMatchNumber(nextNo);
      PushLiveGame(payload);
      SetMatchId(None);
      SetCurrentMatch(None);
    }

    /** `saveQuickMatch`, with `newId` the id a created match receives. */
    method SaveQuickMatch(newId: string)
      modifies this
      ensures State() == AfterSaveQuick(old(State()), newId)
    {
      var result := ResultOf(SavedId(State(), newId), State());
      if matchId.None? {
        Issue(CreateDoneQuick(newId, quickMatchNumber));
        SetMatchId(Some(newId));
      } else {
        Issue(MarkQuickDone(matchId.value, quickMatchNumber));
      }
      Issue(result);
    }

    /** What `finishQuick` does at 0-0 before the roll-over. */
    method DiscardQuick()
      modifies this
      ensures State() == old(State()).(log := old(log) + DiscardQuickWrites(old(State())))
    {
      if matchId.Some? {
        Issue(DeleteMatch(matchId.value));
      }
      Issue(DeletePendingQuick(quickMatchNumber));
      PushLiveGame(LivePush(Ended, Quick, None, quickMatchNumber, 1, 0, teamAName, teamBName, scoreA, scoreB));
    }

    /** `finishQuick` on its success path. */
    method FinishQuick(nextNo: int, newId: string)
      modifies this
      ensures State() == AfterFinishQuick(old(State()), nextNo, newId)
    {
      if scoreA == 0 && scoreB == 0 {
        DiscardQuick();
        PrepareNextQuick(nextNo);
        return;
      }
      var ended := LivePush(Ended, Quick, matchId, quickMatchNumber, 1, 0, teamAName, teamBName, scoreA, scoreB);
      SaveQuickMatch(newId);
      Issue(ShowAlert(QuickSaved));
      PushLiveGame(ended);
      PrepareNextQuick(nextNo);
    }

    /** `finishTournamentMatch(silent)` on its success path. */
    method FinishTournamentMatch(silent: bool)
      modifies this
      ensures State() == AfterFinishTournament(old(State()), silent)
    {
      if current.None? {
        return;
      }
      if scoreA == 0 && scoreB == 0 {
        DiscardTournament(current.value, silent);
      } else {
        SaveTournament(current.value, silent);
      }
    }

    /** `finishTournamentMatch` at 0-0: the match is deleted. */
    method DiscardTournament(m: Match, silent: bool)
      requires scoreA == 0 && scoreB == 0
      modifies this
      ensures State() == old(State()).(log := old(log) + FinishTournamentWrites(old(State()), m, silent))
    {
      Issue(DeleteMatch(m.id));
      PushLiveGame(LiveOf(State(), Ended, quarterIndex + 1, 0).(matchId := None));
      AlertUnlessSilent(silent, ZeroMatchRemoved);
    }

    /** `finishTournamentMatch` with a point on the board: the match is marked done and its
        result recorded. */
    method SaveTournament(m: Match, silent: bool)
      requires scoreA != 0 || scoreB != 0
      modifies this
      ensures State() == old(State()).(log := old(log) + FinishTournamentWrites(old(State()), m, silent))
    {
      Issue(MarkDone(m.id));
      Issue(ResultOf(m.id, State()));
      PushLiveGame(LiveOf(State(), Ended, quarterIndex + 1, 0));
      AlertUnlessSilent(silent, TournamentSaved);
    }

    method AdvanceQuarterOrFinish()
      modifies this
      ensures State() == AfterAdvance(old(State()))
    {
      if current.None? {
        return;
      }
      var m := current.value;
      if quarterIndex >= m.quarters - 1 {
        FinishTournamentMatch(true);
        return;
      }
      var nextIndex := quarterIndex + 1;
      var nextDur := DurationAt(m.durations, nextIndex, settings.quickDurationSeconds);
      var payload := LiveOf(State(), Paused, nextIndex + 1, nextDur);
      SetQuarterIndex(nextIndex);
      SetCurrentDurationSeconds(nextDur);
      SetTotalSeconds(nextDur);
      SetAjusteFinalAtivo(false);
      PushLiveGame(payload);
    }

    /** The timer-end handler, with `confirmed` the answer to its prompt, reading the
        current fields. */
    method HandleTimerEnd(confirmed: bool, nextNo: int, newId: string)
      modifies this
      ensures State() == AfterTimerEnd(old(State()), confirmed, nextNo, newId)
    {
      if mode == Tournament {
        if confirmed {
          AdvanceQuarterOrFinish();
        } else {
          SetAjusteFinalAtivo(true);
          Issue(ShowAlert(QuarterAtZero));
        }
      } else if confirmed {
        FinishQuick(nextNo, newId);
      } else {
        var payload := LiveOf(State(), Paused, quarterIndex + 1, totalSeconds);
        SetAjusteFinalAtivo(true);
        Issue(ShowAlert(ClockAtZero));
        PushLiveGame(payload);
      }
    }

    method SaveCurrentIfNeeded(nextNo: int, newId: string)
      modifies this
      ensures State() == AfterSaveCurrent(old(State()), nextNo, newId)
    {
      if scoreA == 0 && scoreB == 0 {
        return;
      }
      if mode == Quick {
        SaveQuickMatch(newId);
        PrepareNextQuick(nextNo);
      } else {
        FinishTournamentMatch(true);
      }
    }

    /** `startQuick`, with `nextNo` the number the quick-number lookup answers. */
    method StartQuick(nextNo: int)
      modifies this
      ensures State() == AfterStartQuick(old(State()), nextNo)
    {
      var seen := matchId;
      SetMode(Quick);
      SetMatchId(None);
      SetQuarterIndex(0);
      SetTeamAName(QuickTeamA);
      SetTeamBName(QuickTeamB);
      ResetCounters();
      SetCurrentDurationSeconds(settings.quickDurationSeconds);
      SetTotalSeconds(settings.quickDurationSeconds);
      SetAjusteFinalAtivo(false);
      SetRunning(false);
      SetRemoteReset(false);
      SetQuickMatchNumber(nextNo);
      EnsureQuick(seen, nextNo);
    }

    method StartTournamentMatch(m: Match)
      modifies this
      ensures State() == AfterStartTournament(old(State()), m)
    {
      SetMode(Tournament);
      SetMatchId(Some(m.id));
      SetQuarterIndex(0);
      SetCurrentMatch(Some(m));
      SetTeamAName(OrElse(m.teamAName, "TIME 1"));
      SetTeamBName(OrElse(m.teamBName, "TIME 2"));
      ResetCounters();
      var initial := DurationAt(m.durations, 0, settings.quickDurationSeconds);
      SetCurrentDurationSeconds(initial);
      SetTotalSeconds(initial);
      SetAjusteFinalAtivo(false);
      SetRunning(false);
      SetRemoteReset(false);
      PushLiveGame(LivePush(Paused, Tournament, Some(m.id), m.matchNo, 1, initial,
                            OrElse(m.teamAName, "TIME 1"), OrElse(m.teamBName, "TIME 2"), 0, 0));
    }

    /** `ensureQuickMatch` found the pending quick match `m`. */
    method QuickMatchFound(m: Match)
      modifies this
      ensures State() == AfterQuickMatchFound(old(State()), m)
    {
      SetMatchId(Some(m.id));
      SetCurrentMatch(Some(m));
      if m.matchNo != 0 {
        SetQuickMatchNumber(m.matchNo);
      }
    }

    method Heartbeat()
      modifies this
      ensures State() == AfterHeartbeat(old(State()))
    {
      if !running {
        return;
      }
      PushLiveGame(LiveOf(State(), Running, quarterIndex + 1, totalSeconds));
    }

    method QuickSync()
      modifies this
      ensures State() == AfterQuickSync(old(State()))
    {
      if mode != Quick {
        return;
      }
      if matchId.None? {
        return;
      }
      PushLiveGame(LivePush(StatusOf(running), Quick, matchId, quickMatchNumber, 1, totalSeconds,
                            teamAName, teamBName, scoreA, scoreB));
    }

    method ApplyRemoteReset()
      modifies this
      ensures State() == AfterRemoteReset(old(State()))
    {
      if resetting {
        return;
      }
      SetResetting(true);
      SetRemoteReset(true);
      SetRunning(false);
      SetAjusteFinalAtivo(false);
      SetMode(Quick);
      SetQuarterIndex(0);
      SetTeamAName(QuickTeamA);
      SetTeamBName(QuickTeamB);
      ResetCounters();
      SetCurrentDurationSeconds(settings.quickDurationSeconds);
      SetTotalSeconds(settings.quickDurationSeconds);
      SetMatchId(None);
      SetCurrentMatch(None);
      SetQuickMatchNumber(1);
    }

    /** The one-second cool-down after a remote reset has elapsed. */
    method ResetCooldown()
      modifies this
      ensures State() == AfterResetCooldown(old(State()))
    {
      SetResetting(false);
    }

    /** The team and score part of `applyLiveSnapshot(live)`. */
    method ShowLiveTeams(live: LiveGame)
      modifies this
      ensures State() == old(State()).(mode := ModeOr(live.mode), quarterIndex := QuarterIndexOf(live.quarter),
                                       teamAName := OrElse(live.teamA, QuickTeamA),
                                       teamBName := OrElse(live.teamB, QuickTeamB),
                                       scoreA := live.scoreA, scoreB := live.scoreB)
    {
      SetMode(ModeOr(live.mode));
      SetQuarterIndex(QuarterIndexOf(live.quarter));
      SetTeamAName(OrElse(live.teamA, QuickTeamA));
      SetTeamBName(OrElse(live.teamB, QuickTeamB));
      SetScoreA(live.scoreA);
      SetScoreB(live.scoreB);
    }

    /** The clock and match part of `applyLiveSnapshot(live)`, with `quick` the quick duration
        the calling closure holds. */
    method ShowLiveClock(live: LiveGame, quick: int)
      modifies this
      ensures var time := NumberOr(live.timeLeft, quick);
        State() == old(State()).(totalSeconds := time, currentDurationSeconds := time,
                                 matchId := IdOrNull(live.matchId),
                                 quickMatchNumber := NumberOr(live.matchNo, old(quickMatchNumber)),
                                 ajusteFinalAtivo := false, running := live.status == Running)
    {
      var time := NumberOr(live.timeLeft, quick);
      SetTotalSeconds(time);
      SetCurrentDurationSeconds(time);
      SetMatchId(IdOrNull(live.matchId));
      SetQuickMatchNumber(NumberOr(live.matchNo, quickMatchNumber));
      SetAjusteFinalAtivo(false);
      SetRunning(live.status == Running);
    }

    /** `applyLiveSnapshot(live)` as the render holding the quick duration `quick` defines it. */
    method ApplyLiveSnapshot(live: LiveGame, quick: int)
      modifies this
      ensures State() == AfterSnapshot(old(State()), live, quick)
    {
      if live.resetAt != 0 {
        return;
      }
      ShowLiveTeams(live);
      ShowLiveClock(live, quick);
    }

    /** One run of `pollLive`, with `live` the row read (if any) and `now` the clock. */
    method PollLive(live: Option<LiveGame>, now: int)
      modifies this
      ensures State() == AfterPollLive(old(State()), live, now, mountQuickSeconds)
    {
      if live.None? {
        return;
      }
      var updatedAt := StampOf(live.value, now);
      if lastLiveAt == 0 || updatedAt > lastLiveAt {
        SetLastLiveAt(updatedAt);
        ApplyLiveSnapshot(live.value, mountQuickSeconds);
      }
    }

    /** One run of `pollReset`, with `live` the row read (if any). */
    method PollReset(live: Option<LiveGame>)
      modifies this
      ensures State() == AfterPollReset(old(State()), live)
    {
      var resetAt := if live.Some? then live.value.resetAt else 0;
      if resetAt != 0 && (lastResetAt == 0 || resetAt > lastResetAt) {
        SetLastResetAt(resetAt);
        ApplyRemoteReset();
      }
    }
  }
}
