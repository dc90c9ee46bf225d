/** The list shaping of the check-in page: the order of the day's matches, the one entry shown
    per match number, the 1-based position of each match, the order of the user's entries,
    the filter that hides quick matches not yet played, and the guards of a check-in. */
module CheckIn {
  import opened Text

  /** A row of `matches` as the page reads it. `matchNo` is 0 when the column is null (both
      are falsy), and `time` is the first result's `finished_at`, or else `created_at`, as a
      number. */
  datatype CheckMatch = CheckMatch(id: string, matchNo: int, mode: string, time: int)

  /** A row of `player_entries` of the logged-in user. */
  datatype Entry = Entry(id: string, matchId: string, teamSide: string)

  // ---------------------------------------------------------------------------
  // orderedMatches

  /** The comparator of `orderedMatches`: by match number when both have one, else by time. */
  function CompareMatches(a: CheckMatch, b: CheckMatch): int {
    if a.matchNo != 0 && b.matchNo != 0 then a.matchNo - b.matchNo else a.time - b.time
  }

  /** The comparator is antisymmetric, and on two numbered matches it orders them by number. */
  lemma CompareMatchesAntisymmetric(a: CheckMatch, b: CheckMatch)
    ensures CompareMatches(a, b) == -CompareMatches(b, a)
    ensures a.matchNo != 0 && b.matchNo != 0 ==> (CompareMatches(a, b) < 0 <==> a.matchNo < b.matchNo)
  {
  }

  /** The comparator is not transitive once numbered and unnumbered matches mix, so
      `Array.prototype.sort` is given no consistent order for such a day. */
  lemma CompareMatchesCycle()
    ensures var a, b, c := CheckMatch("a", 2, "quick", 1), CheckMatch("b", 0, "quick", 2), CheckMatch("c", 1, "quick", 3);
      CompareMatches(a, b) < 0 && CompareMatches(b, c) < 0 && CompareMatches(c, a) < 0
  {
  }

  /** A list the comparator puts in order at every adjacent pair. */
  predicate InOrder(list: seq<CheckMatch>) {
    forall i :: 0 <= i < |list| - 1 ==> CompareMatches(list[i], list[i + 1]) <= 0
  }

  /** In a list in that order, consecutive numbered matches have ascending numbers. */
  lemma InOrderNumbered(list: seq<CheckMatch>, i: nat)
    requires InOrder(list) && i + 1 < |list|
    requires list[i].matchNo != 0 && list[i + 1].matchNo != 0
    ensures list[i].matchNo <= list[i + 1].matchNo
  {
  }

  // ---------------------------------------------------------------------------
  // displayMatches

  /** The key of `displayMatches`: `n-<match_no>` for a numbered match, `id-<id>` otherwise.
      The two prefixes never collide, so the key is a pair of a kind and a value. */
  datatype Key = ByNumber(no: int) | ById(id: string)

  function KeyOf(m: CheckMatch): Key {
    if m.matchNo != 0 then ByNumber(m.matchNo) else ById(m.id)
  }

  /** The keys already in the map. */
  function KeysOf(shown: seq<CheckMatch>): set<Key>
  {
    if shown == [] then {} else KeysOf(shown[..|shown| - 1]) + {KeyOf(shown[|shown| - 1])}
  }

  /** The keys in the map are exactly the keys of the matches kept. */
  lemma {:induction false} KeysOfMembers(shown: seq<CheckMatch>)
    ensures forall k :: k in KeysOf(shown) <==> exists i :: 0 <= i < |shown| && KeyOf(shown[i]) == k
  {
    if shown != [] {
      var init := shown[..|shown| - 1];
      KeysOfMembers(init);
      assert forall i :: 0 <= i < |init| ==> init[i] == shown[i];
    }
  }

  /** The values of the map after inserting the matches in order and keeping the first match
      per key. */
  function Display(ordered: seq<CheckMatch>): seq<CheckMatch>
  {
    if ordered == [] then []
    else
      var shown := Display(ordered[..|ordered| - 1]);
      var m := ordered[|ordered| - 1];
      if KeyOf(m) in KeysOf(shown) then shown else shown + [m]
  }

  /** The loop of `displayMatches`. */
  method DisplayMatches(ordered: seq<CheckMatch>) returns (shown: seq<CheckMatch>)
    ensures shown == Display(ordered)
  {
    shown := [];
    var seen: set<Key> := {};
    for i := 0 to |ordered|
      invariant shown == Display(ordered[..i])
      invariant seen == KeysOf(shown)
    {
      assert ordered[..i + 1][..i] == ordered[..i];
      var key := KeyOf(ordered[i]);
      if key !in seen {
        assert (shown + [ordered[i]])[..|shown|] == shown;
        shown := shown + [ordered[i]];
        seen := seen + {key};
      }
    }
    assert ordered[..|ordered|] == ordered;
  }

  predicate DistinctKeys(shown: seq<CheckMatch>) {
    forall i, j :: 0 <= i < j < |shown| ==> KeyOf(shown[i]) != KeyOf(shown[j])
  }

  /** No two shown matches share a key. */
  lemma {:induction false} DisplayDistinctKeys(ordered: seq<CheckMatch>)
    ensures DistinctKeys(Display(ordered))
  {
    if ordered != [] {
      var init := ordered[..|ordered| - 1];
      var m := ordered[|ordered| - 1];
      DisplayDistinctKeys(init);
      var before := Display(init);
      if KeyOf(m) !in KeysOf(before) {
        KeysOfMembers(before);
        var shown := before + [m];
        assert Display(ordered) == shown;
        forall i, j | 0 <= i < j < |shown|
          ensures KeyOf(shown[i]) != KeyOf(shown[j])
        {
          assert shown[i] == before[i];
          if j < |before| {
            assert shown[j] == before[j];
          } else {
            assert KeyOf(before[i]) != KeyOf(m);
          }
        }
      }
    }
  }

  lemma KeysOfSnoc(shown: seq<CheckMatch>, m: CheckMatch)
    ensures KeysOf(shown + [m]) == KeysOf(shown) + {KeyOf(m)}
  {
    assert (shown + [m])[..|shown|] == shown;
  }

  /** Showing one more match loses no key and shows the new match's key. */
  lemma DisplayKeysGrow(ordered: seq<CheckMatch>)
    requires ordered != []
    ensures KeysOf(Display(ordered[..|ordered| - 1])) <= KeysOf(Display(ordered))
    ensures KeyOf(ordered[|ordered| - 1]) in KeysOf(Display(ordered))
  {
    var before, m := Display(ordered[..|ordered| - 1]), ordered[|ordered| - 1];
    if KeyOf(m) !in KeysOf(before) {
      KeysOfSnoc(before, m);
    }
  }

  /** Every match's key is shown. */
  lemma {:induction false} DisplayCoversKeys(ordered: seq<CheckMatch>)
    ensures forall k :: 0 <= k < |ordered| ==> KeyOf(ordered[k]) in KeysOf(Display(ordered))
  {
    if ordered != [] {
      var init := ordered[..|ordered| - 1];
      DisplayCoversKeys(init);
      DisplayKeysGrow(ordered);
      forall k | 0 <= k < |init| ensures KeyOf(ordered[k]) in KeysOf(Display(ordered)) {
        assert ordered[k] == init[k];
      }
    }
  }

  /** No match before index `k` has the key of the match at `k`. */
  predicate IsFirst(s: seq<CheckMatch>, k: int)
    requires 0 <= k < |s|
  {
    forall l :: 0 <= l < k ==> KeyOf(s[l]) != KeyOf(s[k])
  }

  /** The matches whose key no earlier match has, in order: a reference definition of the
      list `displayMatches` shows, written without the map. */
  function Firsts(s: seq<CheckMatch>): seq<CheckMatch>
  {
    if s == [] then []
    else Firsts(s[..|s| - 1]) + (if IsFirst(s, |s| - 1) then [s[|s| - 1]] else [])
  }

  lemma {:induction false} DisplayMembers(ordered: seq<CheckMatch>)
    ensures forall x :: x in Display(ordered) ==> x in ordered
  {
    if ordered != [] {
      DisplayMembers(ordered[..|ordered| - 1]);
      assert forall x :: x in ordered[..|ordered| - 1] ==> x in ordered;
    }
  }

  /** The last match is the first of its key exactly when the map does not hold its key yet. */
  lemma LastIsFirst(ordered: seq<CheckMatch>)
    requires ordered != []
    ensures IsFirst(ordered, |ordered| - 1) <==>
              KeyOf(ordered[|ordered| - 1]) !in KeysOf(Display(ordered[..|ordered| - 1]))
  {
    var init := ordered[..|ordered| - 1];
    var m := ordered[|ordered| - 1];
    var before := Display(init);
    KeysOfMembers(before);
    if KeyOf(m) in KeysOf(before) {
      DisplayMembers(init);
      var i :| 0 <= i < |before| && KeyOf(before[i]) == KeyOf(m);
      assert before[i] in init;
      var l :| 0 <= l < |init| && init[l] == before[i];
      assert ordered[l] == init[l];
    } else {
      DisplayCoversKeys(init);
      forall l | 0 <= l < |init| ensures KeyOf(ordered[l]) != KeyOf(m) {
        assert ordered[l] == init[l];
      }
    }
  }

  /** `displayMatches` shows exactly the first match of every key, in order. */
  lemma {:induction false} DisplayIsFirsts(ordered: seq<CheckMatch>)
    ensures Display(ordered) == Firsts(ordered)
  {
    if ordered != [] {
      DisplayIsFirsts(ordered[..|ordered| - 1]);
      LastIsFirst(ordered);
    }
  }

  /** No two shown matches share a match number. */
  lemma DisplayDistinctNumbers(ordered: seq<CheckMatch>)
    ensures var shown := Display(ordered);
      forall i, j :: 0 <= i < j < |shown| && shown[i].matchNo != 0 ==>
        shown[i].matchNo != shown[j].matchNo
  {
    DisplayDistinctKeys(ordered);
    var shown := Display(ordered);
    assert DistinctKeys(shown);
    forall i, j | 0 <= i < j < |shown| && shown[i].matchNo != 0
      ensures shown[i].matchNo != shown[j].matchNo
    {
      assert KeyOf(shown[i]) != KeyOf(shown[j]);
    }
  }

  // ---------------------------------------------------------------------------
  // orderMap and orderedEntries

  /** `new Map(orderedMatches.map((m, idx) => [m.id, idx + 1]))`: a later match with the same
      id replaces the position of an earlier one. */
  function OrderMap(ordered: seq<CheckMatch>): map<string, nat>
  {
    if ordered == [] then map[]
    else OrderMap(ordered[..|ordered| - 1])[ordered[|ordered| - 1].id := |ordered|]
  }

  /** The map holds the id of every match, each at a 1-based position of a match with that
      id. */
  lemma {:induction false} OrderMapKeys(ordered: seq<CheckMatch>)
    ensures forall id :: id in OrderMap(ordered) <==> exists k :: 0 <= k < |ordered| && ordered[k].id == id
    ensures forall id :: id in OrderMap(ordered) ==>
              1 <= OrderMap(ordered)[id] <= |ordered| && ordered[OrderMap(ordered)[id] - 1].id == id
  {
    if ordered != [] {
      var init := ordered[..|ordered| - 1];
      OrderMapKeys(init);
      forall k | 0 <= k < |init| ensures ordered[k] == init[k] { }
    }
  }

  /** When the ids are distinct, every match's position is its 1-based index. */
  lemma {:induction false} OrderMapPositions(ordered: seq<CheckMatch>)
    requires forall i, j :: 0 <= i < j < |ordered| ==> ordered[i].id != ordered[j].id
    ensures forall k :: 0 <= k < |ordered| ==>
              ordered[k].id in OrderMap(ordered) && OrderMap(ordered)[ordered[k].id] == k + 1
  {
    if ordered != [] {
      var init := ordered[..|ordered| - 1];
      OrderMapPositions(init);
      forall k | 0 <= k < |ordered|
        ensures ordered[k].id in OrderMap(ordered) && OrderMap(ordered)[ordered[k].id] == k + 1
      {
        if k < |init| {
          assert ordered[k] == init[k];
        }
      }
    }
  }

  /** `orderMap.get(match_id) || 9999`. */
  function Rank(orderMap: map<string, nat>, e: Entry): nat {
    if e.matchId in orderMap && orderMap[e.matchId] != 0 then orderMap[e.matchId] else 9999
  }

  /** One step of a stable sort by rank: `e` goes after every entry of rank not above its own. */
  function Insert(orderMap: map<string, nat>, e: Entry, sorted: seq<Entry>): (r: seq<Entry>)
    ensures |r| == |sorted| + 1
    ensures multiset(r) == multiset(sorted) + multiset{e}
  {
    if sorted == [] then [e]
    else if Rank(orderMap, e) < Rank(orderMap, sorted[0]) then
      assert [e] + sorted == [e] + ([sorted[0]] + sorted[1..]);
      [e] + sorted
    else
      assert sorted == [sorted[0]] + sorted[1..];
      [sorted[0]] + Insert(orderMap, e, sorted[1..])
  }

  /** `orderedEntries`: the entries sorted by rank, ties keeping their order
      (`Array.prototype.sort` is stable). */
  function OrderedEntries(orderMap: map<string, nat>, entries: seq<Entry>): (r: seq<Entry>)
    ensures multiset(r) == multiset(entries)
  {
    if entries == [] then []
    else
      assert entries == entries[..|entries| - 1] + [entries[|entries| - 1]];
      Insert(orderMap, entries[|entries| - 1], OrderedEntries(orderMap, entries[..|entries| - 1]))
  }

  /** Each entry's rank is at most the next one's. */
  predicate ByRank(orderMap: map<string, nat>, s: seq<Entry>) {
    forall i :: 0 <= i < |s| - 1 ==> Rank(orderMap, s[i]) <= Rank(orderMap, s[i + 1])
  }

  /** The first entry after inserting `e` is `e` or the first entry before. */
  lemma InsertHead(orderMap: map<string, nat>, e: Entry, sorted: seq<Entry>)
    ensures Insert(orderMap, e, sorted)[0] == e || Insert(orderMap, e, sorted)[0] == sorted[0]
  {
  }

  lemma {:induction false} InsertByRank(orderMap: map<string, nat>, e: Entry, sorted: seq<Entry>)
    requires ByRank(orderMap, sorted)
    ensures ByRank(orderMap, Insert(orderMap, e, sorted))
  {
    if sorted != [] && Rank(orderMap, e) >= Rank(orderMap, sorted[0]) {
      var tail := sorted[1..];
      InsertByRank(orderMap, e, tail);
      InsertHead(orderMap, e, tail);
      var rest := Insert(orderMap, e, tail);
      var r := Insert(orderMap, e, sorted);
      assert r == [sorted[0]] + rest;
      forall i | 0 <= i < |r| - 1 ensures Rank(orderMap, r[i]) <= Rank(orderMap, r[i + 1]) {
        if i > 0 {
          assert r[i] == rest[i - 1] && r[i + 1] == rest[i];
        } else if rest[0] != e {
          assert rest[0] == sorted[1];
        }
      }
    }
  }

  /** Ranks that never drop between neighbours never drop at all. */
  lemma {:induction false} ByRankPairs(orderMap: map<string, nat>, s: seq<Entry>, i: nat, j: nat)
    requires ByRank(orderMap, s) && i <= j < |s|
    ensures Rank(orderMap, s[i]) <= Rank(orderMap, s[j])
    decreases j - i
  {
    if i < j {
      ByRankPairs(orderMap, s, i + 1, j);
    }
  }

  /** `orderedEntries` lists the entries by the display position of their match. */
  lemma {:induction false} OrderedEntriesByRank(orderMap: map<string, nat>, entries: seq<Entry>)
    ensures ByRank(orderMap, OrderedEntries(orderMap, entries))
  {
    if entries != [] {
      OrderedEntriesByRank(orderMap, entries[..|entries| - 1]);
      InsertByRank(orderMap, entries[|entries| - 1], OrderedEntries(orderMap, entries[..|entries| - 1]));
    }
  }

  /** The entries of rank `k`, in their order in `s`. */
  function OfRank(orderMap: map<string, nat>, s: seq<Entry>, k: nat): seq<Entry> {
    if s == [] then []
    else (if Rank(orderMap, s[0]) == k then [s[0]] else []) + OfRank(orderMap, s[1..], k)
  }

  /** Picking out one rank commutes with concatenation. */
  lemma {:induction false} OfRankAppend(orderMap: map<string, nat>, a: seq<Entry>, c: seq<Entry>, k: nat)
    ensures OfRank(orderMap, a + c, k) == OfRank(orderMap, a, k) + OfRank(orderMap, c, k)
  {
    if a != [] {
      assert (a + c)[1..] == a[1..] + c;
      OfRankAppend(orderMap, a[1..], c, k);
      AppendAssoc(if Rank(orderMap, a[0]) == k then [a[0]] else [], OfRank(orderMap, a[1..], k), OfRank(orderMap, c, k));
    } else {
      assert a + c == c;
    }
  }

  /** A list sorted by rank has no entry of a rank below its first one's. */
  lemma {:induction false} OfRankBelow(orderMap: map<string, nat>, s: seq<Entry>, k: nat)
    requires ByRank(orderMap, s) && s != [] && k < Rank(orderMap, s[0])
    ensures OfRank(orderMap, s, k) == []
  {
    if |s| > 1 {
      ByRankTail(orderMap, s);
      OfRankBelow(orderMap, s[1..], k);
    }
  }

  /** A list sorted by rank stays sorted without its first entry. */
  lemma ByRankTail(orderMap: map<string, nat>, s: seq<Entry>)
    requires ByRank(orderMap, s) && s != []
    ensures ByRank(orderMap, s[1..])
  {
    forall i | 0 <= i < |s| - 2 ensures Rank(orderMap, s[1..][i]) <= Rank(orderMap, s[1..][i + 1]) {
      assert s[1..][i] == s[i + 1] && s[1..][i + 1] == s[i + 2];
    }
  }

  /** Inserting `e` into a list sorted by rank puts it after every entry of its own rank. */
  lemma {:induction false} InsertOfRank(orderMap: map<string, nat>, e: Entry, sorted: seq<Entry>, k: nat)
    requires ByRank(orderMap, sorted)
    ensures OfRank(orderMap, Insert(orderMap, e, sorted), k)
            == OfRank(orderMap, sorted, k) + (if Rank(orderMap, e) == k then [e] else [])
  {
    var mine := if Rank(orderMap, e) == k then [e] else [];
    if sorted == [] {
      OfRankOne(orderMap, e, k);
    } else if Rank(orderMap, e) < Rank(orderMap, sorted[0]) {
      calc {
        OfRank(orderMap, Insert(orderMap, e, sorted), k);
        OfRank(orderMap, [e] + sorted, k);
        { OfRankAppend(orderMap, [e], sorted, k); OfRankOne(orderMap, e, k); }
        mine + OfRank(orderMap, sorted, k);
        { if Rank(orderMap, e) == k { OfRankBelow(orderMap, sorted, k); } }
        OfRank(orderMap, sorted, k) + mine;
      }
    } else {
      var tail := sorted[1..];
      var head := if Rank(orderMap, sorted[0]) == k then [sorted[0]] else [];
      calc {
        OfRank(orderMap, Insert(orderMap, e, sorted), k);
        OfRank(orderMap, [sorted[0]] + Insert(orderMap, e, tail), k);
        { OfRankAppend(orderMap, [sorted[0]], Insert(orderMap, e, tail), k); OfRankOne(orderMap, sorted[0], k); }
        head + OfRank(orderMap, Insert(orderMap, e, tail), k);
        { ByRankTail(orderMap, sorted); InsertOfRank(orderMap, e, tail, k); }
        head + (OfRank(orderMap, tail, k) + mine);
        { AppendAssoc(head, OfRank(orderMap, tail, k), mine); }
        head + OfRank(orderMap, tail, k) + mine;
        OfRank(orderMap, sorted, k) + mine;
      }
    }
  }

  /** `Array.prototype.sort` is stable: the entries of each rank keep the order they had. */
  lemma {:induction false} OrderedEntriesStable(om: map<string, nat>, entries: seq<Entry>, k: nat)
    ensures OfRank(om, OrderedEntries(om, entries), k) == OfRank(om, entries, k)
  {
    if entries != [] {
      var init, last := entries[..|entries| - 1], entries[|entries| - 1];
      var mine := if Rank(om, last) == k then [last] else [];
      calc {
        OfRank(om, OrderedEntries(om, entries), k);
        OfRank(om, Insert(om, last, OrderedEntries(om, init)), k);
        { OrderedEntriesByRank(om, init); InsertOfRank(om, last, OrderedEntries(om, init), k); }
        OfRank(om, OrderedEntries(om, init), k) + mine;
        { OrderedEntriesStable(om, init, k); }
        OfRank(om, init, k) + mine;
        { OfRankOne(om, last, k); }
        OfRank(om, init, k) + OfRank(om, [last], k);
        { OfRankAppend(om, init, [last], k); assert init + [last] == entries; }
        OfRank(om, entries, k);
      }
    }
  }

  /** A single entry is kept exactly when it has the rank asked for. */
  lemma OfRankOne(orderMap: map<string, nat>, e: Entry, k: nat)
    ensures OfRank(orderMap, [e], k) == if Rank(orderMap, e) == k then [e] else []
  {
    assert OfRank(orderMap, [e], k) == (if Rank(orderMap, e) == k then [e] else []) + OfRank(orderMap, [e][1..], k);
  }

  /** With fewer than 9999 matches, every entry of a listed match comes before every entry
      whose match is not listed. */
  lemma ListedFirst(ordered: seq<CheckMatch>, entries: seq<Entry>, i: nat, j: nat)
    requires |ordered| < 9999
    requires i < |OrderedEntries(OrderMap(ordered), entries)|
    requires j < |OrderedEntries(OrderMap(ordered), entries)|
    requires OrderedEntries(OrderMap(ordered), entries)[i].matchId in OrderMap(ordered)
    requires OrderedEntries(OrderMap(ordered), entries)[j].matchId !in OrderMap(ordered)
    ensures i < j
  {
    var om := OrderMap(ordered);
    var r := OrderedEntries(om, entries);
    OrderedEntriesByRank(om, entries);
    OrderMapKeys(ordered);
    if j <= i {
      ByRankPairs(om, r, j, i);
      assert false;
    }
  }

  // ---------------------------------------------------------------------------
  // loadMatches and submit

  /** The live game as `fetchLiveGame` returns it, `matchNo` 0 when null. */
  datatype Live = Live(mode: string, matchNo: int)

  /** The filter of `loadMatches`: with a live quick game that has a number, quick matches are
      kept only when numbered no later than it; otherwise every match is kept. */
  function LiveFilter(data: seq<CheckMatch>, live: Option<Live>): (r: seq<CheckMatch>)
    ensures !(live.Some? && live.value.mode == "quick" && live.value.matchNo != 0) ==> r == data
    ensures live.Some? && live.value.mode == "quick" && live.value.matchNo != 0 ==>
      |r| <= |data|
      && forall m :: (m in r <==>
                        m in data
                        && (m.mode != "quick" || (m.matchNo != 0 && m.matchNo <= live.value.matchNo)))
  {
    if live.Some? && live.value.mode == "quick" && live.value.matchNo != 0 then Played(data, live.value.matchNo)
    else data
  }

  /** The matches that are not quick, or are quick and numbered at most `liveNo`, in order. */
  function Played(data: seq<CheckMatch>, liveNo: int): (r: seq<CheckMatch>)
    ensures |r| <= |data|
    ensures forall m :: m in r <==> m in data && (m.mode != "quick" || (m.matchNo != 0 && m.matchNo <= liveNo))
  {
    if data == [] then []
    else
      var rest := Played(data[1..], liveNo);
      assert forall m :: m in data <==> m == data[0] || m in data[1..];
      var m := data[0];
      if m.mode != "quick" || (m.matchNo != 0 && m.matchNo <= liveNo) then [m] + rest else rest
  }

  /** The filter keeps the order of the matches. */
  lemma {:induction false} PlayedAppend(a: seq<CheckMatch>, c: seq<CheckMatch>, liveNo: int)
    ensures Played(a + c, liveNo) == Played(a, liveNo) + Played(c, liveNo)
  {
    if a != [] {
      assert (a + c)[0] == a[0] && (a + c)[1..] == a[1..] + c;
      PlayedAppend(a[1..], c, liveNo);
    } else {
      assert a + c == c;
    }
  }

  /** The first match kept is the first one of `data` that passes the test. */
  lemma PlayedFirst(data: seq<CheckMatch>, liveNo: int, i: nat)
    requires i < |data| && (data[i].mode != "quick" || (data[i].matchNo != 0 && data[i].matchNo <= liveNo))
    requires forall j :: 0 <= j < i ==> data[j].mode == "quick" && (data[j].matchNo == 0 || data[j].matchNo > liveNo)
    ensures Played(data, liveNo) != [] && Played(data, liveNo)[0] == data[i]
  {
    assert data == data[..i] + data[i..];
    PlayedAppend(data[..i], data[i..], liveNo);
    assert data[i..][0] == data[i];
  }

  /** `loadMatches` keeps the order of the matches. */
  lemma LiveFilterAppend(a: seq<CheckMatch>, c: seq<CheckMatch>, live: Option<Live>)
    ensures LiveFilter(a + c, live) == LiveFilter(a, live) + LiveFilter(c, live)
  {
    if live.Some? {
      PlayedAppend(a, c, live.value.matchNo);
    }
  }

  /** The alerts of `submit`. */
  datatype Notice = NeedLogin | NeedMatch

  /** The row `submit` upserts into `player_entries`. */
  datatype CheckInRow = CheckInRow(matchId: string, userId: string, playerName: string,
                                   teamSide: string, dateIso: string)

  datatype SubmitOutcome = Refused(notice: Notice) | Upsert(row: CheckInRow)

  /** `submit()`: refused without a logged-in user or without a chosen match; the player name
      is the profile's full name, or else the account's email. */
  function Submit(userId: string, email: string, fullName: string, matchId: string,
                  teamSide: string, dateIso: string): (r: SubmitOutcome)
    ensures userId == "" <==> r == Refused(NeedLogin)
    ensures r.Upsert? <==> userId != "" && matchId != ""
    ensures r.Upsert? ==>
              r.row.matchId == matchId && r.row.userId == userId
              && r.row.playerName == (if fullName != "" then fullName else email)
              && r.row.teamSide == teamSide && r.row.dateIso == dateIso
  {
    if userId == "" then Refused(NeedLogin)
    else if matchId == "" then Refused(NeedMatch)
    else Upsert(CheckInRow(matchId, userId, if fullName != "" then fullName else email, teamSide, dateIso))
  }

  /** The page's list of matches and its chosen match. */
  class CheckInPage {
    var matches: seq<CheckMatch>
    var matchId: string

    constructor ()
      ensures matches == [] && matchId == ""
    {
      matches := [];
      matchId := "";
    }

    /** `loadMatches()` once both answers are in: keeps the filtered list and, when no match is
        chosen yet, chooses its first match. */
    method LoadMatches(data: seq<CheckMatch>, live: Option<Live>)
      modifies this
      ensures matches == LiveFilter(data, live)
      ensures matchId == if old(matchId) == "" && matches != [] then matches[0].id else old(matchId)
    {
      var filtered := LiveFilter(data, live);
      matches := filtered;
      if filtered != [] && matchId == "" {
        matchId := filtered[0].id;
      }
    }
  }
}
