/** The user administration page: the per-user play statistics, the pending invites, the
    filters of the user list, who may have their role switched, the update behind the
    activate and deactivate button, and the address an invite goes to. */
module ManageUsers {
  import opened Text

  /** A profile row. `email` is empty when null; `isActive` is None when the column is null. */
  datatype Profile = Profile(id: string, email: string, fullName: string, role: string,
                             isActive: Option<bool>)

  /** A row of `player_entries` with the date of its match; both are empty when null. */
  datatype EntryRow = EntryRow(userId: string, date: string)

  /** A row of `master_invites`; `email` is empty when null. */
  datatype Invite = Invite(id: string, email: string, role: string, createdAt: string)

  /** How many matches a user played and the latest date among them, empty when none. */
  datatype UserStats = UserStats(count: nat, last: string)

  const NoStats: UserStats := UserStats(0, "")

  // ---------------------------------------------------------------------------
  // statsByUser

  /** One turn of the loop of `statsByUser`: entries without a user are skipped; otherwise the
      user's count goes up by one and a date later than the kept one replaces it. */
  function Tally(stats: map<string, UserStats>, e: EntryRow): map<string, UserStats> {
    if e.userId == "" then stats
    else
      var info := if e.userId in stats then stats[e.userId] else NoStats;
      var last := if e.date != "" && (info.last == "" || Less(info.last, e.date)) then e.date else info.last;
      stats[e.userId := UserStats(info.count + 1, last)]
  }

  /** The map after the loop has seen every entry. */
  function StatsOf(entries: seq<EntryRow>): map<string, UserStats> {
    if entries == [] then map[]
    else Tally(StatsOf(entries[..|entries| - 1]), entries[|entries| - 1])
  }

  /** The loop of `statsByUser`. */
  method StatsByUser(entries: seq<EntryRow>) returns (stats: map<string, UserStats>)
    ensures stats == StatsOf(entries)
  {
    stats := map[];
    for i := 0 to |entries|
      invariant stats == StatsOf(entries[..i])
    {
      assert entries[..i + 1][..i] == entries[..i];
      var e := entries[i];
      if e.userId != "" {
        var info := if e.userId in stats then stats[e.userId] else NoStats;
        info := info.(count := info.count + 1);
        if e.date != "" && (info.last == "" || Less(info.last, e.date)) {
          info := info.(last := e.date);
        }
        stats := stats[e.userId := info];
      }
    }
    assert entries[..|entries|] == entries;
  }

  /** The number of entries of user `u`. */
  function Count(entries: seq<EntryRow>, u: string): nat {
    if entries == [] then 0
    else Count(entries[..|entries| - 1], u) + (if entries[|entries| - 1].userId == u then 1 else 0)
  }

  /** The latest non-empty date among the entries of user `u`, empty when there is none. */
  function Latest(entries: seq<EntryRow>, u: string): string {
    if entries == [] then ""
    else
      var before := Latest(entries[..|entries| - 1], u);
      var e := entries[|entries| - 1];
      if e.userId == u && e.date != "" && (before == "" || Less(before, e.date)) then e.date else before
  }

  /** The map holds exactly the users with at least one entry, each with the number of its
      entries and the latest of their dates. */
  lemma {:induction false} StatsOfUsers(entries: seq<EntryRow>)
    ensures forall u :: u in StatsOf(entries) <==> u != "" && Count(entries, u) > 0
    ensures forall u :: u in StatsOf(entries) ==>
              StatsOf(entries)[u] == UserStats(Count(entries, u), Latest(entries, u))
  {
    if entries != [] {
      var init := entries[..|entries| - 1];
      var e := entries[|entries| - 1];
      StatsOfUsers(init);
      if e.userId != "" && e.userId !in StatsOf(init) {
        CountZero(init, e.userId);
      }
    }
  }

  /** The kept date is the latest one: empty exactly when the user has no dated entry, else
      the date of one of the user's entries that no other of them comes after. */
  lemma {:induction false} LatestIsMaximum(entries: seq<EntryRow>, u: string)
    ensures Latest(entries, u) == "" <==>
              forall i :: 0 <= i < |entries| && entries[i].userId == u ==> entries[i].date == ""
    ensures Latest(entries, u) != "" ==>
              exists i :: 0 <= i < |entries| && entries[i].userId == u && entries[i].date == Latest(entries, u)
    ensures forall i :: 0 <= i < |entries| && entries[i].userId == u ==> !Less(Latest(entries, u), entries[i].date)
  {
    if entries != [] {
      var init := entries[..|entries| - 1];
      var e := entries[|entries| - 1];
      LatestIsMaximum(init, u);
      var before := Latest(init, u);
      assert forall i :: 0 <= i < |init| ==> entries[i] == init[i];
      if e.userId == u && e.date != "" && (before == "" || Less(before, e.date)) {
        forall i | 0 <= i < |entries| && entries[i].userId == u
          ensures !Less(e.date, entries[i].date)
        {
          if i < |init| && entries[i].date != "" {
            assert before != "";
            if Less(e.date, entries[i].date) {
              LessTransitive(before, e.date, entries[i].date);
              assert false;
            }
          } else if i == |init| {
            LessIrreflexive(e.date);
          }
        }
        assert entries[|init|] == e;
      } else {
        if e.userId == u && e.date != "" {
          assert !Less(before, e.date);
        }
      }
    }
  }

  /** `statsByUser.get(u.id) || { count: 0, last: null }`. */
  function StatsFor(stats: map<string, UserStats>, userId: string): (r: UserStats)
    ensures userId !in stats ==> r == NoStats
  {
    if userId in stats then stats[userId] else NoStats
  }

  /** A user's row shows as many matches as the user has entries, and the latest date. */
  lemma StatsForUser(entries: seq<EntryRow>, userId: string)
    requires userId != ""
    ensures StatsFor(StatsOf(entries), userId) == UserStats(Count(entries, userId), Latest(entries, userId))
  {
    StatsOfUsers(entries);
    if userId !in StatsOf(entries) {
      CountZero(entries, userId);
    }
  }

  /** A user with no entries has no date either. */
  lemma {:induction false} CountZero(entries: seq<EntryRow>, u: string)
    requires Count(entries, u) == 0
    ensures Latest(entries, u) == ""
  {
    if entries != [] {
      CountZero(entries[..|entries| - 1], u);
    }
  }

  // ---------------------------------------------------------------------------
  // loadInvites

  /** The lower-cased e-mail addresses of the profiles. */
  function Registered(profiles: seq<Profile>): (r: set<string>)
    ensures forall a :: a in r <==> exists p :: p in profiles && ToLower(p.email) == a
  {
    set p | p in profiles :: ToLower(p.email)
  }

  /** The invites whose address, ignoring case, belongs to no profile, in their order. */
  function Pending(invites: seq<Invite>, profiles: seq<Profile>): (r: seq<Invite>)
    ensures |r| <= |invites|
  {
    if invites == [] then []
    else
      var rest := Pending(invites[1..], profiles);
      if ToLower(invites[0].email) in Registered(profiles) then rest else [invites[0]] + rest
  }

  /** An invite is kept exactly when no profile has its address, ignoring case. */
  lemma {:induction false} PendingMembers(invites: seq<Invite>, profiles: seq<Profile>)
    ensures forall inv :: inv in Pending(invites, profiles) <==>
              inv in invites && forall p :: p in profiles ==> ToLower(p.email) != ToLower(inv.email)
  {
    if invites != [] {
      PendingMembers(invites[1..], profiles);
      assert forall inv :: inv in invites <==> inv == invites[0] || inv in invites[1..];
    }
  }

  /** The filter keeps the order: filtering two lists one after the other is filtering their
      concatenation. */
  lemma {:induction false} PendingAppend(a: seq<Invite>, b: seq<Invite>, profiles: seq<Profile>)
    ensures Pending(a + b, profiles) == Pending(a, profiles) + Pending(b, profiles)
  {
    if a != [] {
      assert (a + b)[0] == a[0] && (a + b)[1..] == a[1..] + b;
      PendingAppend(a[1..], b, profiles);
    } else {
      assert a + b == b;
    }
  }

  /** With no registered address among them, every invite is kept. */
  lemma {:induction false} PendingNoneRegistered(invites: seq<Invite>, profiles: seq<Profile>)
    requires forall i :: 0 <= i < |invites| ==> ToLower(invites[i].email) !in Registered(profiles)
    ensures Pending(invites, profiles) == invites
  {
    if invites != [] {
      PendingNoneRegistered(invites[1..], profiles);
    }
  }

  /** `loadInvites()` with its default empty profile list, as the page calls it after an
      invite is sent, resent or removed: it removes nothing. */
  function ReloadInvitesAsWritten(invites: seq<Invite>): seq<Invite> {
    Pending(invites, [])
  }

  /** An invite of an address that already has a profile is hidden by a full reload and shown
      again by the reload that follows an invite. */
  lemma StaleInviteShown()
    ensures var p := Profile("u1", "Ana@Club.org", "Ana", "observer", Some(true));
            var inv := Invite("i1", "ana@club.org", "observer", "");
            Pending([inv], [p]) == [] && ReloadInvitesAsWritten([inv]) == [inv]
  {
    var p := Profile("u1", "Ana@Club.org", "Ana", "observer", Some(true));
    var inv := Invite("i1", "ana@club.org", "observer", "");
    assert ToLower(inv.email) == ToLower(p.email);
    assert ToLower(inv.email) in Registered([p]);
  }

  // ---------------------------------------------------------------------------
  // The user list

  /** `u.is_active === false`. */
  predicate Inactive(u: Profile) {
    u.isActive == Some(false)
  }

  /** Both filters of the user list, in their order. */
  function Visible(users: seq<Profile>, showInactive: bool, showMaster: bool, showCommon: bool): (r: seq<Profile>)
    ensures |r| <= |users|
    ensures forall u :: u in r <==>
              u in users && (showInactive || !Inactive(u))
              && (if u.role == "master" then showMaster else showCommon)
  {
    if users == [] then []
    else
      var rest := Visible(users[1..], showInactive, showMaster, showCommon);
      assert forall u :: u in users <==> u == users[0] || u in users[1..];
      var u := users[0];
      if (showInactive || !Inactive(u)) && (if u.role == "master" then showMaster else showCommon) then [u] + rest
      else rest
  }

  /** The filters keep the order of the users. */
  lemma {:induction false} VisibleAppend(a: seq<Profile>, c: seq<Profile>, showInactive: bool,
                                         showMaster: bool, showCommon: bool)
    ensures Visible(a + c, showInactive, showMaster, showCommon)
            == Visible(a, showInactive, showMaster, showCommon) + Visible(c, showInactive, showMaster, showCommon)
  {
    if a != [] {
      var keep := VisibleHead(a, showInactive, showMaster, showCommon);
      assert (a + c)[0] == a[0] && (a + c)[1..] == a[1..] + c;
      VisibleStep(a + c, showInactive, showMaster, showCommon);
      VisibleStep(a, showInactive, showMaster, showCommon);
      VisibleAppend(a[1..], c, showInactive, showMaster, showCommon);
      AppendAssoc(keep, Visible(a[1..], showInactive, showMaster, showCommon), Visible(c, showInactive, showMaster, showCommon));
    } else {
      assert a + c == c;
    }
  }

  /** What the filters keep of the first user of a non-empty list. */
  function VisibleHead(users: seq<Profile>, showInactive: bool, showMaster: bool, showCommon: bool): seq<Profile>
    requires users != []
  {
    var u := users[0];
    if (showInactive || !Inactive(u)) && (if u.role == "master" then showMaster else showCommon) then [u] else []
  }

  lemma VisibleStep(users: seq<Profile>, showInactive: bool, showMaster: bool, showCommon: bool)
    requires users != []
    ensures Visible(users, showInactive, showMaster, showCommon)
            == VisibleHead(users, showInactive, showMaster, showCommon) + Visible(users[1..], showInactive, showMaster, showCommon)
  {
  }

  /** With every box ticked the list shows every user in order. */
  lemma {:induction false} VisibleAll(users: seq<Profile>)
    ensures Visible(users, true, true, true) == users
  {
    if users != [] {
      VisibleAll(users[1..]);
    }
  }

  /** The role switch is live only for a master, and never on the master's own row: the
      addresses are compared ignoring case. */
  predicate CanToggleRole(isMaster: bool, email: string, currentEmail: string) {
    isMaster && ToLower(email) != ToLower(currentEmail)
  }

  /** The role the switch asks for. */
  function NextRole(role: string): (r: string)
    ensures r == "master" <==> role != "master"
  {
    if role == "master" then "observer" else "master"
  }

  /** A click on the switch: nothing unless the switch is live and the user has an id, else
      the user's id and the other role. */
  function ToggleRequest(isMaster: bool, currentEmail: string, u: Profile): (r: Option<(string, string)>)
    ensures r.Some? <==> CanToggleRole(isMaster, u.email, currentEmail) && u.id != ""
    ensures r.Some? ==> r.value.0 == u.id && (r.value.1 == "master" <==> u.role != "master")
  {
    if !CanToggleRole(isMaster, u.email, currentEmail) || u.id == "" then None
    else Some((u.id, NextRole(u.role)))
  }

  /** A master never gets a request for their own row, whatever the case of the address. */
  lemma OwnRoleLocked(isMaster: bool, currentEmail: string, u: Profile)
    requires ToLower(u.email) == ToLower(currentEmail)
    ensures ToggleRequest(isMaster, currentEmail, u) == None
  {
  }

  // ---------------------------------------------------------------------------
  // setUserActive

  /** The columns `setUserActive` writes; `role` is None when it is not written. */
  datatype ProfileUpdate = ProfileUpdate(isActive: bool, role: Option<string>)

  /** Activating writes only the flag; deactivating also demotes the user to observer. */
  function ActivePayload(active: bool): (r: ProfileUpdate)
    ensures r.isActive == active
    ensures r.role.Some? <==> !active
    ensures !active ==> r.role == Some("observer")
  {
    if active then ProfileUpdate(true, None) else ProfileUpdate(false, Some("observer"))
  }

  /** The profile once the update is written. */
  function Apply(u: Profile, update: ProfileUpdate): Profile {
    u.(isActive := Some(update.isActive), role := if update.role.Some? then update.role.value else u.role)
  }

  /** The button sends `active` as `u.is_active === false`: it flips the user between active
      and inactive, a deactivated user is no master and is listed only with the inactive box
      and the common box ticked, and an activated one keeps their role. */
  lemma ActiveButton(u: Profile, showInactive: bool, showMaster: bool, showCommon: bool)
    ensures Inactive(Apply(u, ActivePayload(Inactive(u)))) <==> !Inactive(u)
    ensures !Inactive(u) ==>
              Apply(u, ActivePayload(false)).role != "master"
              && (Apply(u, ActivePayload(false)) in Visible([Apply(u, ActivePayload(false))], showInactive, showMaster, showCommon)
                  <==> showInactive && showCommon)
    ensures Inactive(u) ==> Apply(u, ActivePayload(true)).role == u.role
  {
  }

  // ---------------------------------------------------------------------------
  // inviteUser and resendInvite

  /** The address `inviteUser` sends to: the typed one trimmed and lower-cased, or nothing
      when that is empty. */
  function InviteTarget(typed: string): (r: Option<string>)
    ensures r.None? <==> Trim(typed) == ""
    ensures r.Some? ==> r.value == ToLower(Trim(typed))
    ensures r.Some? ==> |r.value| == |Trim(typed)| && IsTrimmed(r.value)
  {
    var target := ToLower(Trim(typed));
    LowerTrimmed(Trim(typed));
    if target == "" then None else Some(target)
  }

  /** Lower-casing keeps a trimmed string trimmed: no upper-case letter is, or becomes, white
      space. */
  lemma LowerTrimmed(s: string)
    requires IsTrimmed(s)
    ensures IsTrimmed(ToLower(s))
  {
  }

  /** Typing the address an invite went to sends the invite to the same address. */
  lemma InviteTargetIdempotent(typed: string)
    requires InviteTarget(typed).Some?
    ensures InviteTarget(InviteTarget(typed).value) == InviteTarget(typed)
  {
    var t := InviteTarget(typed).value;
    assert Trim(t) == t;
    ToLowerIdempotent(Trim(typed));
    assert ToLower(Trim(t)) == t;
  }

  /** `resendInvite`: nothing without an address, else the stored address and role, with
      observer standing in for a missing role. */
  function ResendRequest(email: string, role: string): (r: Option<(string, string)>)
    ensures r.None? <==> email == ""
    ensures r.Some? ==> r.value.0 == email && r.value.1 != ""
    ensures r.Some? && role != "" ==> r.value.1 == role
  {
    if email == "" then None else Some((email, if role != "" then role else "observer"))
  }

  // ---------------------------------------------------------------------------
  // The page

  /** The lists the page keeps. */
  class ManageUsersPage {
    var users: seq<Profile>
    var entries: seq<EntryRow>
    var invites: seq<Invite>

    constructor ()
      ensures users == [] && entries == [] && invites == []
    {
      users := [];
      entries := [];
      invites := [];
    }

    /** `loadUsers()` once its three reads are in: keeps the profiles and the entries, and the
        invites of addresses without a profile. */
    method LoadUsers(profiles: seq<Profile>, entryRows: seq<EntryRow>, inviteRows: seq<Invite>)
      modifies this
      ensures users == profiles && entries == entryRows
      ensures invites == Pending(inviteRows, profiles)
    {
      users := profiles;
      entries := entryRows;
      invites := Pending(inviteRows, profiles);
    }

    /** The reload after an invite is sent, resent or removed, filtered against the profiles
        the page holds rather than against none. */
    method ReloadInvites(inviteRows: seq<Invite>)
      modifies this
      ensures users == old(users) && entries == old(entries)
      ensures invites == Pending(inviteRows, users)
    {
      invites := Pending(inviteRows, users);
    }
  }
}
