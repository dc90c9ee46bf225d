/** The "create match" dialog of the tournament page: the minutes-and-seconds reader of its
    duration inputs, the resize of the per-quarter durations when the number of quarters
    changes, the edit of one duration, and the guards that run before a match is created. */
module Tournament {
  import opened Text

  /** The default quarter length the dialog starts from, `10 * 60`. */
  const DefaultQuarterSeconds := 600

  // ---------------------------------------------------------------------------
  // readDuration

  /** `Math.max(lo, Math.min(hi, x))`. */
  function Clamp(lo: int, hi: int, x: int): (r: int)
    requires lo <= hi
    ensures lo <= r <= hi
    ensures lo <= x <= hi ==> r == x
  {
    if x > hi then hi else if x < lo then lo else x
  }

  /** `readDuration(min, sec)` on the two inputs after `Number(x || 0)`, where `None` is NaN,
      which the clamps carry through. */
  function ReadDuration(min: Option<int>, sec: Option<int>): (r: Option<int>)
    ensures r.Some? <==> min.Some? && sec.Some?
    ensures r.Some? ==>
              0 <= r.value <= 99 * 60 + 59
              && r.value / 60 == Clamp(0, 99, min.value) && r.value % 60 == Clamp(0, 59, sec.value)
  {
    if min.None? || sec.None? then None
    else Some(Clamp(0, 99, min.value) * 60 + Clamp(0, 59, sec.value))
  }

  /** The dialog shows `Math.floor(d / 60)` and `d % 60`; typing either shown value back in
      gives the duration back, for every duration the reader can produce. */
  lemma ReadDurationRoundTrip(d: int)
    requires 0 <= d <= 99 * 60 + 59
    ensures ReadDuration(NumberOf(IntToString(d / 60)), Some(d % 60)) == Some(d)
    ensures ReadDuration(Some(d / 60), NumberOf(IntToString(d % 60))) == Some(d)
  {
    NumberOfIntToString(d / 60);
    NumberOfIntToString(d % 60);
  }

  // ---------------------------------------------------------------------------
  // The durations list

  /** `prev[0] || 10 * 60`. */
  function BaseDuration(prev: seq<int>): int {
    if prev == [] || prev[0] == 0 then DefaultQuarterSeconds else prev[0]
  }

  /** The effect run when `quarters` changes: cut the list down to `quarters` entries, or pad it
      with copies of its first entry (600 when that is missing or 0). */
  function Resize(prev: seq<int>, quarters: nat): (r: seq<int>)
    ensures |r| == quarters
    ensures forall i :: 0 <= i < quarters && i < |prev| ==> r[i] == prev[i]
    ensures forall i :: |prev| <= i < quarters ==> r[i] == BaseDuration(prev)
  {
    if |prev| >= quarters then prev[..quarters]
    else prev + seq(quarters - |prev|, _ => BaseDuration(prev))
  }

  /** Resizing a list to its own length leaves it as it is, and resizing twice to the same
      length is resizing once. */
  lemma ResizeStable(prev: seq<int>, quarters: nat)
    ensures Resize(prev, |prev|) == prev
    ensures Resize(Resize(prev, quarters), quarters) == Resize(prev, quarters)
  {
    assert prev[..|prev|] == prev;
    var r := Resize(prev, quarters);
    assert r[..|r|] == r;
  }

  /** Shrinking and growing back keeps the kept prefix and fills the rest with the first
      entry, so the entries past the new length are lost. */
  lemma ResizeShrinkGrow(prev: seq<int>, small: nat, big: nat)
    requires 0 < small <= big <= |prev| && prev[0] != 0
    ensures Resize(Resize(prev, small), big) == prev[..small] + seq(big - small, _ => prev[0])
  {
  }

  /** `setDurationAt(index, seconds)`: a copy of the list with one entry replaced. */
  function SetDurationAt(prev: seq<int>, index: nat, seconds: int): (r: seq<int>)
    requires index < |prev|
    ensures |r| == |prev| && r[index] == seconds
    ensures forall j :: 0 <= j < |prev| && j != index ==> r[j] == prev[j]
  {
    prev[index := seconds]
  }

  /** The durations sent with a new match: `quarters` copies of the first entry (or of the quick
      game length when that is missing or 0) when every quarter has the same length, else the
      first `quarters` entries. */
  function FinalDurations(durations: seq<int>, quarters: nat, sameDuration: bool, quickSeconds: int): (r: seq<int>)
    ensures sameDuration ==> |r| == quarters && forall i :: 0 <= i < quarters ==>
      r[i] == (if durations == [] || durations[0] == 0 then quickSeconds else durations[0])
    ensures !sameDuration ==> r == durations[..if quarters <= |durations| then quarters else |durations|]
  {
    if sameDuration then
      var d := if durations == [] || durations[0] == 0 then quickSeconds else durations[0];
      seq(quarters, _ => d)
    else if quarters <= |durations| then durations[..quarters]
    else durations
  }

  /** After the resize effect the separate durations are exactly the resized list. */
  lemma FinalAfterResize(prev: seq<int>, quarters: nat, quickSeconds: int)
    ensures FinalDurations(Resize(prev, quarters), quarters, false, quickSeconds) == Resize(prev, quarters)
  {
    var r := Resize(prev, quarters);
    assert r[..quarters] == r;
  }

  // ---------------------------------------------------------------------------
  // handleCreateMatch and openModal

  datatype Team = Team(id: string, name: string)

  /** The alerts the dialog can raise. */
  datatype Notice = NeedTwoTeams | SameTeams | InvalidDuration | MissingTeam

  /** The row passed to `createMatch`. */
  datatype MatchPayload = MatchPayload(
    dateIso: string, tournamentId: string,
    teamAId: string, teamBId: string, teamAName: string, teamBName: string,
    quarters: nat, durations: seq<int>)

  datatype CreateOutcome = Ignored | Refused(notice: Notice) | Create(payload: MatchPayload)

  /** `teams.find((t) => t.id === id)`: a team with that id, if any; `FindTeamFirst` says which. */
  function FindTeam(teams: seq<Team>, id: string): (r: Option<Team>)
    ensures r.Some? ==> r.value in teams && r.value.id == id
    ensures r.None? ==> forall t :: t in teams ==> t.id != id
  {
    if teams == [] then None
    else if teams[0].id == id then Some(teams[0])
    else FindTeam(teams[1..], id)
  }

  /** `find` answers the first team with the id: the one at index `i` when no team before it
      has the id. */
  lemma {:induction false} FindTeamFirst(teams: seq<Team>, id: string, i: nat)
    requires i < |teams| && teams[i].id == id
    requires forall j :: 0 <= j < i ==> teams[j].id != id
    ensures FindTeam(teams, id) == Some(teams[i])
  {
    if i > 0 {
      assert teams[1..][i - 1] == teams[i];
      FindTeamFirst(teams[1..], id, i - 1);
    }
  }

  /** `a || b`. */
  function OrElse(a: string, b: string): string {
    if a != "" then a else b
  }

  /** The dialog's state. */
  datatype Form = Form(open: bool, teamAId: string, teamBId: string, quarters: nat,
                       sameDuration: bool, durations: seq<int>)

  /** What `handleCreateMatch` does with the dialog's state: nothing without both teams,
      an alert for equal teams or a duration that is not positive, and otherwise the new
      match row (a team id missing from the list fails while the row is being built, and the
      failure is shown as an alert). */
  function CreateMatch(f: Form, teams: seq<Team>, quickSeconds: int, tournamentId: string,
                       tournamentDate: string, dateIso: string, today: string): CreateOutcome
  {
    if f.teamAId == "" || f.teamBId == "" then Ignored
    else if f.teamAId == f.teamBId then Refused(SameTeams)
    else
      var a := FindTeam(teams, f.teamAId);
      var b := FindTeam(teams, f.teamBId);
      var durations := FinalDurations(f.durations, f.quarters, f.sameDuration, quickSeconds);
      if exists i :: 0 <= i < |durations| && durations[i] <= 0 then Refused(InvalidDuration)
      else if a.None? || b.None? then Refused(MissingTeam)
      else Create(MatchPayload(OrElse(tournamentDate, OrElse(dateIso, today)), tournamentId,
                               a.value.id, b.value.id, a.value.name, b.value.name,
                               f.quarters, durations))
  }

  /** A match is created only for two different teams of the list, with every duration
      positive, and with one duration per quarter when every quarter has the same length. */
  lemma CreateMatchGuards(f: Form, teams: seq<Team>, quickSeconds: int, tournamentId: string,
                          tournamentDate: string, dateIso: string, today: string)
    ensures var o := CreateMatch(f, teams, quickSeconds, tournamentId, tournamentDate, dateIso, today);
      (f.teamAId == "" || f.teamBId == "" <==> o == Ignored)
      && (f.teamAId != "" && f.teamBId != "" && f.teamAId == f.teamBId <==> o == Refused(SameTeams))
      && (o == Refused(InvalidDuration) <==>
            f.teamAId != "" && f.teamBId != "" && f.teamAId != f.teamBId
            && exists d :: d in FinalDurations(f.durations, f.quarters, f.sameDuration, quickSeconds) && d <= 0)
      && (o.Create? <==>
            f.teamAId != "" && f.teamBId != "" && f.teamAId != f.teamBId
            && (forall d :: d in FinalDurations(f.durations, f.quarters, f.sameDuration, quickSeconds) ==> d > 0)
            && (exists t :: t in teams && t.id == f.teamAId)
            && (exists t :: t in teams && t.id == f.teamBId))
      && (o.Create? ==>
            o.payload.durations == FinalDurations(f.durations, f.quarters, f.sameDuration, quickSeconds)
            && o.payload.dateIso == OrElse(tournamentDate, OrElse(dateIso, today))
            && o.payload.tournamentId == tournamentId
            && Some(Team(o.payload.teamAId, o.payload.teamAName)) == FindTeam(teams, f.teamAId)
            && Some(Team(o.payload.teamBId, o.payload.teamBName)) == FindTeam(teams, f.teamBId))
      && (o.Create? ==>
            o.payload.teamAId == f.teamAId && o.payload.teamBId == f.teamBId
            && o.payload.teamAId != o.payload.teamBId
            && Team(o.payload.teamAId, o.payload.teamAName) in teams
            && Team(o.payload.teamBId, o.payload.teamBName) in teams
            && (forall d :: d in o.payload.durations ==> d > 0)
            && o.payload.quarters == f.quarters
            && (f.sameDuration ==> |o.payload.durations| == f.quarters))
  {
    var o := CreateMatch(f, teams, quickSeconds, tournamentId, tournamentDate, dateIso, today);
    var durations := FinalDurations(f.durations, f.quarters, f.sameDuration, quickSeconds);
    assert (exists i :: 0 <= i < |durations| && durations[i] <= 0) <==> (exists d :: d in durations && d <= 0) by {
      if exists d :: d in durations && d <= 0 {
        var d :| d in durations && d <= 0;
        var i :| 0 <= i < |durations| && durations[i] == d;
      }
      if exists i :: 0 <= i < |durations| && durations[i] <= 0 {
        var i :| 0 <= i < |durations| && durations[i] <= 0;
        assert durations[i] in durations;
      }
    }
    if o.Create? {
      assert o.payload.durations == durations;
    }
  }

  /** A dialog just opened on two different teams creates a match of 4 quarters of 600 s
      between them. */
  lemma OpenedDialogCreates(teams: seq<Team>, quickSeconds: int, tournamentId: string,
                            tournamentDate: string, dateIso: string, today: string)
    requires |teams| >= 2 && teams[0].id != "" && teams[1].id != "" && teams[0].id != teams[1].id
    ensures var f := Form(true, teams[0].id, teams[1].id, 4, true, seq(4, _ => DefaultQuarterSeconds));
      CreateMatch(f, teams, quickSeconds, tournamentId, tournamentDate, dateIso, today)
      == Create(MatchPayload(OrElse(tournamentDate, OrElse(dateIso, today)), tournamentId,
                             teams[0].id, teams[1].id, teams[0].name, teams[1].name,
                             4, [600, 600, 600, 600]))
  {
    assert FindTeam(teams, teams[1].id) == FindTeam(teams[1..], teams[1].id);
    var d := FinalDurations(seq(4, _ => DefaultQuarterSeconds), 4, true, quickSeconds);
    assert d == [600, 600, 600, 600];
  }

  /** The dialog state on the tournament page. */
  class CreateMatchDialog {
    var open: bool
    var teamAId: string
    var teamBId: string
    var quarters: nat
    var sameDuration: bool
    var durations: seq<int>

    function State(): Form
      reads this
    {
      Form(open, teamAId, teamBId, quarters, sameDuration, durations)
    }

    /** The page's initial state: closed, no teams chosen, 4 quarters of 600 s. */
    constructor ()
      ensures State() == Form(false, "", "", 4, true, seq(4, _ => DefaultQuarterSeconds))
    {
      open := false;
      teamAId := "";
      teamBId := "";
      quarters := 4;
      sameDuration := true;
      durations := seq(4, _ => DefaultQuarterSeconds);
    }

    /** `openModal()`: refused with fewer than two teams; otherwise opens on the first two
        teams with 4 quarters of 600 s each. */
    method OpenModal(teams: seq<Team>) returns (notice: Option<Notice>)
      modifies this
      ensures |teams| < 2 ==> notice == Some(NeedTwoTeams) && State() == old(State())
      ensures |teams| >= 2 ==>
                notice == None
                && State() == Form(true, teams[0].id, teams[1].id, 4, true, seq(4, _ => DefaultQuarterSeconds))
    {
      if |teams| < 2 {
        return Some(NeedTwoTeams);
      }
      teamAId := teams[0].id;
      teamBId := teams[1].id;
      quarters := 4;
      sameDuration := true;
      durations := seq(4, _ => DefaultQuarterSeconds);
      open := true;
      notice := None;
    }

    /** Choosing a number of quarters, followed by the effect that resizes the durations. */
    method SetQuarters(q: nat)
      modifies this
      ensures State() == old(State()).(quarters := q, durations := Resize(old(durations), q))
    {
      quarters := q;
      durations := Resize(durations, q);
    }

    method ToggleSameDuration()
      modifies this
      ensures State() == old(State()).(sameDuration := !old(sameDuration))
    {
      sameDuration := !sameDuration;
    }

    /** Typing a new value into the minutes or seconds input of quarter `index`. */
    method EditDuration(index: nat, min: Option<int>, sec: Option<int>)
      requires index < |durations|
      requires ReadDuration(min, sec).Some?
      modifies this
      ensures State() == old(State()).(durations := SetDurationAt(old(durations), index, ReadDuration(min, sec).value))
    {
      durations := SetDurationAt(durations, index, ReadDuration(min, sec).value);
    }

    /** `handleCreateMatch()`: the guards, then the new row; the dialog closes once the row
        is sent. */
    method HandleCreateMatch(teams: seq<Team>, quickSeconds: int, tournamentId: string,
                             tournamentDate: string, dateIso: string, today: string)
      returns (outcome: CreateOutcome)
      modifies this
      ensures outcome == CreateMatch(old(State()), teams, quickSeconds, tournamentId, tournamentDate, dateIso, today)
      ensures State() == old(State()).(open := if outcome.Create? then false else old(open))
    {
      outcome := CreateMatch(State(), teams, quickSeconds, tournamentId, tournamentDate, dateIso, today);
      if outcome.Create? {
        open := false;
      }
    }
  }
}
