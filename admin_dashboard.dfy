/** The list logic of Client/src/pages/AdminDashboard.jsx: the user search
    and status filter, the status update behind the Suspend and Activate
    buttons, and the settings update. Each builds a new value. */
module AdminDashboard {
  import opened Common

  datatype AdminUser = AdminUser(
    id: int,
    name: string,
    email: string,
    status: string,            // 'Active', 'Suspended' or 'Pending'
    registrationDate: string,
    portfolioValue: int,
    pnl: int)

  /** String.prototype.toLowerCase on the letters A to Z. */
  function LowerChar(c: char): char
  {
    if 'A' <= c <= 'Z' then (c as int - 'A' as int + 'a' as int) as char else c
  }

  function ToLower(s: string): (r: string)
    ensures |r| == |s|
    ensures forall i :: 0 <= i < |s| ==> r[i] == LowerChar(s[i])
  {
    seq(|s|, i requires 0 <= i < |s| => LowerChar(s[i]))
  }

  /** String.prototype.includes: needle occurs somewhere in hay. The empty
      needle is found in every text, a needle longer than the text in none. */
  function Includes(hay: string, needle: string): (r: bool)
    ensures needle == [] ==> r
    ensures r ==> |needle| <= |hay|
    decreases |hay|
  {
    needle <= hay || (hay != [] && Includes(hay[1..], needle))
  }

  /** needle occupies hay from position i on. */
  predicate OccursAt(hay: string, needle: string, i: int)
  {
    0 <= i <= |hay| - |needle| && hay[i..i + |needle|] == needle
  }

  /** What Includes finds is a contiguous occurrence. */
  lemma {:induction false} IncludesHasOccurrence(hay: string, needle: string)
    requires Includes(hay, needle)
    ensures exists i :: OccursAt(hay, needle, i)
    decreases |hay|
  {
    if needle <= hay {
      assert OccursAt(hay, needle, 0);
    } else {
      IncludesHasOccurrence(hay[1..], needle);
      var i :| OccursAt(hay[1..], needle, i);
      assert hay[1..][i..i + |needle|] == hay[i + 1..i + 1 + |needle|];
      assert OccursAt(hay, needle, i + 1);
    }
  }

  /** Every contiguous occurrence is found by Includes. */
  lemma {:induction false} OccurrenceIsIncluded(hay: string, needle: string, i: int)
    requires OccursAt(hay, needle, i)
    ensures Includes(hay, needle)
    decreases |hay|
  {
    if i > 0 {
      assert OccursAt(hay[1..], needle, i - 1);
      OccurrenceIsIncluded(hay[1..], needle, i - 1);
    }
  }

  /** Includes finds exactly the contiguous occurrences. */
  lemma IncludesIsSubstring(hay: string, needle: string)
    ensures Includes(hay, needle) <==> exists i :: OccursAt(hay, needle, i)
  {
    if Includes(hay, needle) {
      IncludesHasOccurrence(hay, needle);
    }
    if i :| OccursAt(hay, needle, i) {
      OccurrenceIsIncluded(hay, needle, i);
    }
  }

  /** The predicate of filteredUsers: the lowercased search text occurs in the
      lowercased name or email, and the status filter is 'All' or equal. */
  predicate Matches(u: AdminUser, search: string, statusFilter: string)
  {
    && (Includes(ToLower(u.name), ToLower(search)) || Includes(ToLower(u.email), ToLower(search)))
    && (statusFilter == "All" || u.status == statusFilter)
  }

  /** filteredUsers: the users that match, in their order. */
  function FilteredUsers(users: seq<AdminUser>, search: string, statusFilter: string): (r: seq<AdminUser>)
    ensures forall u :: u in r <==> u in users && Matches(u, search, statusFilter)
    ensures IsSubsequence(r, users)
    ensures forall u :: multiset(r)[u] == if Matches(u, search, statusFilter) then multiset(users)[u] else 0
  {
    var keep := (u: AdminUser) => Matches(u, search, statusFilter);
    FilterIsSubsequence(users, keep);
    forall u ensures u in Filter(users, keep) <==> u in users && Matches(u, search, statusFilter) {
      FilterMembership(users, keep, u);
    }
    forall u ensures multiset(Filter(users, keep))[u] == if Matches(u, search, statusFilter) then multiset(users)[u] else 0 {
      FilterCount(users, keep, u);
    }
    Filter(users, keep)
  }

  /** With an empty search and the filter 'All', every user is listed. */
  lemma EmptySearchKeepsAll(users: seq<AdminUser>)
    ensures FilteredUsers(users, "", "All") == users
  {
    FilterKeepsAll(users, (u: AdminUser) => Matches(u, "", "All"));
  }

  /** handleUserAction: every user with the given id gets the new status, the
      others are kept as they are. */
  function HandleUserAction(users: seq<AdminUser>, userId: int, action: string): (r: seq<AdminUser>)
    ensures |r| == |users|
    ensures forall i :: 0 <= i < |users| && users[i].id == userId ==> r[i] == users[i].(status := action)
    ensures forall i :: 0 <= i < |users| && users[i].id != userId ==> r[i] == users[i]
  {
    seq(|users|, i requires 0 <= i < |users| =>
      if users[i].id == userId then users[i].(status := action) else users[i])
  }

  /** Setting the same status twice is the same as setting it once. */
  lemma UserActionIdempotent(users: seq<AdminUser>, userId: int, action: string)
    ensures HandleUserAction(HandleUserAction(users, userId, action), userId, action) ==
            HandleUserAction(users, userId, action)
  {
  }

  /** The status change the Actions column offers: Suspend for an Active
      user, Activate for a Suspended one, nothing otherwise. */
  function OfferedAction(status: string): (r: Option<string>)
    ensures r == Some("Suspended") <==> status == "Active"
    ensures r == Some("Active") <==> status == "Suspended"
    ensures r.None? <==> status != "Active" && status != "Suspended"
  {
    if status == "Active" then Some("Suspended")
    else if status == "Suspended" then Some("Active")
    else None
  }

  /** Following the offered action flips a user between Active and Suspended;
      twice brings it back. */
  lemma OfferedActionToggles(users: seq<AdminUser>, i: nat)
    requires i < |users| && OfferedAction(users[i].status).Some?
    ensures var r := HandleUserAction(users, users[i].id, OfferedAction(users[i].status).value);
      && OfferedAction(r[i].status).Some?
      && HandleUserAction(r, r[i].id, OfferedAction(r[i].status).value)[i] == users[i]
  {
  }

  /** Setting values: numbers, flags and the market-hours pair. */
  datatype SettingValue = Number(n: real) | Switch(on: bool) | Hours(open: string, close: string)

  /** handleSettingsChange: a copy of the settings with one key set. */
  function HandleSettingsChange(settings: map<string, SettingValue>, setting: string, value: SettingValue)
    : (r: map<string, SettingValue>)
    ensures r.Keys == settings.Keys + {setting}
    ensures r[setting] == value
    ensures forall k :: k in settings && k != setting ==> r[k] == settings[k]
  {
    settings[setting := value]
  }
}
