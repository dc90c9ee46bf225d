/** The settings page: the form it opens with, taken from the current settings, and the
    settings record `save()` writes back. */
module SettingsPage {
  import opened Text
  import opened Game

  /** The form fields. A numeric field is None when `Number(...)` of its text is NaN; an empty
      field reads as 0. */
  datatype Form = Form(minutes: Option<int>, seconds: Option<int>, alertSeconds: Option<int>,
                       soundEnabled: bool, defaultTeamA: string, defaultTeamB: string)

  /** `a % b` in JavaScript: the remainder takes the sign of `a`; `a` minus it is a multiple of `b`. */
  function JsRem(a: int, b: int): (r: int)
    requires b > 0
    ensures a >= 0 ==> 0 <= r < b
    ensures a < 0 ==> -b < r <= 0
    ensures (a - r) % b == 0
  {
    if a >= 0 then
      PosRem(a, b);
      a % b
    else
      NegRem(-a, b);
      -((-a) % b)
  }

  /** Taking away the remainder leaves a multiple of `b`, for `n` and for `-n` with the remainder
      negated. */
  lemma PosRem(n: int, b: int)
    requires b > 0
    ensures (n - n % b) % b == 0
  {
    var q, m := n / b, n % b;
    assert n == q * b + m;
    MultipleMod(q, b);
  }

  lemma NegRem(n: int, b: int)
    requires b > 0
    ensures (-n + n % b) % b == 0
  {
    var q, m := n / b, n % b;
    assert n == q * b + m;
    assert -(q * b) == (-q) * b;
    MultipleMod(-q, b);
  }

  /** A multiple of `b` leaves no remainder. */
  lemma MultipleMod(k: int, b: int)
    requires b > 0
    ensures (k * b) % b == 0
  {
    var x := k * b;
    var q, m := x / b, x % b;
    assert x == q * b + m;
    assert (k - q) * b == k * b - q * b;
    var d := k - q;
    if d >= 1 { MulAtLeast(d, b); } else if d <= -1 { MulAtMost(d, b); }
  }

  /** A non-zero multiple of `b` is at least `b` away from zero. */
  lemma MulAtLeast(d: int, b: int)
    requires d >= 1 && b > 0
    ensures d * b >= b
  {
  }

  lemma MulAtMost(d: int, b: int)
    requires d <= -1 && b > 0
    ensures d * b <= -b
  {
  }

  /** The form as the page opens: the quick duration split into `Math.floor(d / 60)` minutes
      and `d % 60` seconds, the other fields copied. */
  function Open(s: Settings): Form {
    Form(Some(s.quickDurationSeconds / 60), Some(JsRem(s.quickDurationSeconds, 60)), Some(s.alertSeconds),
         s.soundEnabled, s.defaultTeamA, s.defaultTeamB)
  }

  /** `Math.max(0, Number(quickMinutes) * 60 + Number(quickSeconds))`, None for NaN. */
  function Duration(f: Form): (r: Option<int>)
    ensures r.Some? <==> f.minutes.Some? && f.seconds.Some?
    ensures r.Some? ==> r.value >= 0 && r.value >= f.minutes.value * 60 + f.seconds.value
    ensures r.Some? ==> r.value == 0 || r.value == f.minutes.value * 60 + f.seconds.value
  {
    if f.minutes.None? || f.seconds.None? then None
    else Some(if f.minutes.value * 60 + f.seconds.value > 0 then f.minutes.value * 60 + f.seconds.value else 0)
  }

  /** `save()`: the edited fields over the previous settings, with 7 minutes for a zero or
      NaN duration, 20 for a zero or NaN alert time and the quick-game names for empty team
      names. */
  function Save(s: Settings, f: Form): (r: Settings)
    ensures r.theme == s.theme
    ensures r.quickDurationSeconds > 0
    ensures f.minutes.Some? && f.seconds.Some? && f.minutes.value * 60 + f.seconds.value > 0 ==>
              r.quickDurationSeconds == f.minutes.value * 60 + f.seconds.value
    ensures !(f.minutes.Some? && f.seconds.Some? && f.minutes.value * 60 + f.seconds.value > 0) ==>
              r.quickDurationSeconds == 7 * 60
    ensures r.alertSeconds != 0
    ensures f.alertSeconds.Some? && f.alertSeconds.value != 0 ==> r.alertSeconds == f.alertSeconds.value
    ensures !(f.alertSeconds.Some? && f.alertSeconds.value != 0) ==> r.alertSeconds == 20
    ensures r.soundEnabled == f.soundEnabled
    ensures r.defaultTeamA != "" && r.defaultTeamB != ""
    ensures f.defaultTeamA != "" ==> r.defaultTeamA == f.defaultTeamA
    ensures f.defaultTeamA == "" ==> r.defaultTeamA == "Com Colete"
    ensures f.defaultTeamB != "" ==> r.defaultTeamB == f.defaultTeamB
    ensures f.defaultTeamB == "" ==> r.defaultTeamB == "Sem Colete"
    ensures r.(quickDurationSeconds := s.quickDurationSeconds, alertSeconds := s.alertSeconds,
               soundEnabled := s.soundEnabled, defaultTeamA := s.defaultTeamA, defaultTeamB := s.defaultTeamB) == s
  {
    var duration := Duration(f);
    s.(quickDurationSeconds := if duration.Some? && duration.value != 0 then duration.value else 7 * 60,
       alertSeconds := if f.alertSeconds.Some? && f.alertSeconds.value != 0 then f.alertSeconds.value else 20,
       soundEnabled := f.soundEnabled,
       defaultTeamA := if f.defaultTeamA != "" then f.defaultTeamA else "Com Colete",
       defaultTeamB := if f.defaultTeamB != "" then f.defaultTeamB else "Sem Colete")
  }

  /** Minutes and seconds put back together give the duration when it is positive, and at
      most zero otherwise. */
  lemma SplitRejoin(d: int)
    ensures d >= 0 ==> (d / 60) * 60 + JsRem(d, 60) == d
    ensures d < 0 ==> (d / 60) * 60 + JsRem(d, 60) <= 0
  {
  }

  /** Saving the form unedited changes only what `save()` normalises: a duration that is not
      positive becomes 7 minutes, a zero alert time 20 s and an empty team name the default. */
  lemma SaveOpened(s: Settings)
    ensures Save(s, Open(s)) ==
              s.(quickDurationSeconds := if s.quickDurationSeconds > 0 then s.quickDurationSeconds else 7 * 60,
                 alertSeconds := if s.alertSeconds != 0 then s.alertSeconds else 20,
                 defaultTeamA := if s.defaultTeamA != "" then s.defaultTeamA else "Com Colete",
                 defaultTeamB := if s.defaultTeamB != "" then s.defaultTeamB else "Sem Colete")
  {
    SplitRejoin(s.quickDurationSeconds);
  }

  /** Settings already in normal form come back unchanged, and what `save()` writes is in
      normal form, so saving twice without editing is saving once. */
  lemma SaveStable(s: Settings, f: Form)
    ensures s.quickDurationSeconds > 0 && s.alertSeconds != 0 && s.defaultTeamA != "" && s.defaultTeamB != "" ==>
              Save(s, Open(s)) == s
    ensures Save(Save(s, f), Open(Save(s, f))) == Save(s, f)
  {
    SaveOpened(s);
    SaveOpened(Save(s, f));
  }

  /** The default settings survive a save of the unedited form. */
  lemma SaveDefaults()
    ensures Save(DefaultSettings, Open(DefaultSettings)) == DefaultSettings
  {
    SaveStable(DefaultSettings, Open(DefaultSettings));
  }
}
