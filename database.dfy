/**
 * The durable tier: the users, conversations, story_requests and sms_logs
 * tables as in-memory rows. Row ids come from a serial sequence starting at
 * 1; times are integer milliseconds.
 */
module Database {
  import opened Wrappers
  import opened JsText
  import CS = ConversationStates

  datatype User = User(id: nat, phoneNumber: string, totalRecordings: int)

  datatype ConversationRow = ConversationRow(
    id: nat,
    userId: nat,
    state: CS.State,
    data: CS.Data,
    createdAt: int,
    expiresAt: int)

  datatype Status = Pending | Scheduled | Calling | Processing | Done | Failed

  function StatusName(s: Status): string {
    match s
    case Pending => "pending"
    case Scheduled => "scheduled"
    case Calling => "calling"
    case Processing => "processing"
    case Done => "completed"
    case Failed => "failed"
  }

  datatype StoryRequest = StoryRequest(
    id: nat,
    userId: nat,
    storytellerName: Option<string>,
    storytellerPhone: Option<string>,
    formData: CS.FormData,
    scheduledFor: int,
    status: Status,
    calledAt: Option<int>,
    assistantId: Option<string>,
    callId: Option<string>)

  datatype SmsLog = SmsLog(phoneNumber: string, direction: string, message: string)

  datatype Tables = Tables(
    users: seq<User>,
    conversations: seq<ConversationRow>,
    requests: seq<StoryRequest>,
    logs: seq<SmsLog>)

  /** Conversations live for an hour from their last write. */
  const ConversationLifetime := 60 * 60 * 1000

  // ---------------------------------------------------------------------
  // Users

  /** At most one user row per identity. */
  predicate UniquePhones(users: seq<User>) {
    forall i, j :: 0 <= i < j < |users| ==> users[i].phoneNumber != users[j].phoneNumber
  }

  /** The rows a `.eq('phone_number', phone)` selects, in table order. */
  function UsersWithPhone(users: seq<User>, phone: string): (r: seq<User>)
    ensures forall u :: u in r <==> u in users && u.phoneNumber == phone
    decreases |users|
  {
    if users == [] then []
    else (if users[0].phoneNumber == phone then [users[0]] else []) + UsersWithPhone(users[1..], phone)
  }

  lemma {:induction false} NoneWithPhone(users: seq<User>, phone: string)
    requires forall j :: 0 <= j < |users| ==> users[j].phoneNumber != phone
    ensures UsersWithPhone(users, phone) == []
    decreases |users|
  {
    if users != [] {
      forall j | 0 <= j < |users[1..]| ensures users[1..][j].phoneNumber != phone {
        assert users[1..][j] == users[j + 1];
      }
      NoneWithPhone(users[1..], phone);
    }
  }

  lemma {:induction false} UniqueMatch(users: seq<User>, phone: string, i: nat)
    requires UniquePhones(users) && i < |users| && users[i].phoneNumber == phone
    ensures UsersWithPhone(users, phone) == [users[i]]
    decreases |users|
  {
    if i == 0 {
      forall j | 0 <= j < |users[1..]| ensures users[1..][j].phoneNumber != phone {
        assert users[1..][j] == users[j + 1];
      }
      NoneWithPhone(users[1..], phone);
    } else {
      assert UniquePhones(users[1..]) by {
        forall a, b | 0 <= a < b < |users[1..]| ensures users[1..][a].phoneNumber != users[1..][b].phoneNumber {
          assert users[1..][a] == users[a + 1] && users[1..][b] == users[b + 1];
        }
      }
      assert users[0].phoneNumber != phone;
      UniqueMatch(users[1..], phone, i - 1);
    }
  }

  lemma KnownUserFound(users: seq<User>, phone: string)
    ensures UniquePhones(users) && (exists i :: 0 <= i < |users| && users[i].phoneNumber == phone) ==>
      exists i :: 0 <= i < |users| && UsersWithPhone(users, phone) == [users[i]]
  {
    if UniquePhones(users) && (exists i :: 0 <= i < |users| && users[i].phoneNumber == phone) {
      var i :| 0 <= i < |users| && users[i].phoneNumber == phone;
      UniqueMatch(users, phone, i);
    }
  }

  /** The `.single()` lookup finds the phone's row: exactly one row carries
      it. Only otherwise does `createOrGetUser` issue its insert. */
  predicate FindsUser(users: seq<User>, phone: string) {
    |UsersWithPhone(users, phone)| == 1
  }

  /** `createOrGetUser`: the row when the lookup finds exactly one, otherwise
      a newly inserted user with no recordings. */
  function CreateOrGetUser(users: seq<User>, phone: string): (r: (seq<User>, User))
    ensures r.1.phoneNumber == phone && r.1 in r.0
    ensures r.0 == users || r.0 == users + [User(|users| + 1, phone, 0)]
    ensures r.0 == users <==> FindsUser(users, phone)
    ensures UniquePhones(users) ==> UniquePhones(r.0)
    ensures UniquePhones(users) && (exists i :: 0 <= i < |users| && users[i].phoneNumber == phone) ==>
      r.0 == users && r.1 in users
    ensures (forall i :: 0 <= i < |users| ==> users[i].phoneNumber != phone) ==>
      r == (users + [User(|users| + 1, phone, 0)], User(|users| + 1, phone, 0))
  {
    var found := UsersWithPhone(users, phone);
    KnownUserFound(users, phone);
    if |found| == 1 then (assert found[0] in found; (users, found[0]))
    else
      var u := User(|users| + 1, phone, 0);
      (users + [u], u)
  }

  /** Asking twice for the same identity yields one row, not two. */
  lemma CreateOrGetUserIdempotent(users: seq<User>, phone: string)
    requires UniquePhones(users)
    ensures var (users1, u1) := CreateOrGetUser(users, phone);
      CreateOrGetUser(users1, phone) == (users1, u1)
  {
    var (users1, u1) := CreateOrGetUser(users, phone);
    var i :| 0 <= i < |users1| && users1[i] == u1;
    UniqueMatch(users1, phone, i);
  }

  // ---------------------------------------------------------------------
  // Conversations

  predicate Active(row: ConversationRow, userId: nat, now: int) {
    row.userId == userId && row.expiresAt > now
  }

  /** The index of the unexpired conversation of `userId` created last, the
      later row winning a tie. */
  function LatestActive(rows: seq<ConversationRow>, userId: nat, now: int): (r: Option<nat>)
    ensures r.Some? ==> r.value < |rows| && Active(rows[r.value], userId, now)
    ensures r.Some? ==> forall j :: 0 <= j < |rows| && Active(rows[j], userId, now) ==> rows[j].createdAt <= rows[r.value].createdAt
    ensures r.Some? ==> forall j :: r.value < j < |rows| && Active(rows[j], userId, now) ==> rows[j].createdAt < rows[r.value].createdAt
    ensures r.None? <==> forall j :: 0 <= j < |rows| ==> !Active(rows[j], userId, now)
    decreases |rows|
  {
    if rows == [] then None
    else
      var last := |rows| - 1;
      var prev := LatestActive(rows[..last], userId, now);
      assert forall j :: 0 <= j < last ==> rows[..last][j] == rows[j];
      if Active(rows[last], userId, now) && (prev.None? || rows[prev.value].createdAt <= rows[last].createdAt) then Some(last)
      else prev
  }

  /** `getActiveConversation`: the state of the row does not matter. */
  function GetActiveConversation(rows: seq<ConversationRow>, userId: nat, now: int): (r: Option<ConversationRow>)
    ensures r.Some? ==> r.value in rows && Active(r.value, userId, now)
    ensures r.Some? ==> forall row :: row in rows && Active(row, userId, now) ==> row.createdAt <= r.value.createdAt
    ensures r.None? <==> forall row :: row in rows ==> !Active(row, userId, now)
  {
    var i := LatestActive(rows, userId, now);
    if i.Some? then Some(rows[i.value]) else None
  }

  /** A row that is active, created no earlier than any active row, and
      strictly later than every active row after it, is the one found. */
  lemma LatestActiveUnique(rows: seq<ConversationRow>, userId: nat, now: int, i: nat)
    requires i < |rows| && Active(rows[i], userId, now)
    requires forall j :: 0 <= j < |rows| && Active(rows[j], userId, now) ==> rows[j].createdAt <= rows[i].createdAt
    requires forall j :: i < j < |rows| && Active(rows[j], userId, now) ==> rows[j].createdAt < rows[i].createdAt
    ensures LatestActive(rows, userId, now) == Some(i)
  {
  }

  /** The conversation found stays the one found as long as it has not
      expired: time passing only makes other rows expire. */
  lemma FoundStaysFound(rows: seq<ConversationRow>, userId: nat, now: int, later: int)
    requires LatestActive(rows, userId, now).Some?
    requires now <= later && rows[LatestActive(rows, userId, now).value].expiresAt > later
    ensures LatestActive(rows, userId, later) == LatestActive(rows, userId, now)
  {
    LatestActiveUnique(rows, userId, later, LatestActive(rows, userId, now).value);
  }

  /** Row `i` has id `i + 1`: ids come from a serial sequence and rows are
      never deleted. */
  predicate SerialIds(rows: seq<ConversationRow>) {
    forall i :: 0 <= i < |rows| ==> rows[i].id == i + 1
  }

  /** Rewriting the conversation that was found keeps it the one found for
      the hour its new expiry grants. */
  lemma RewrittenStaysFound(rows: seq<ConversationRow>, userId: nat, state: CS.State, data: CS.Data, now: int, later: int)
    requires SerialIds(rows) && GetActiveConversation(rows, userId, now).Some?
    requires now <= later < now + ConversationLifetime
    ensures var row := GetActiveConversation(rows, userId, now).value;
      var u := UpdateConversation(rows, row.id, state, data, now);
      u.Some? && GetActiveConversation(u.value, userId, later) == Some(row.(state := state, data := data, expiresAt := now + ConversationLifetime))
  {
    var i := LatestActive(rows, userId, now).value;
    var row := rows[i];
    var u := UpdateConversation(rows, row.id, state, data, now);
    assert rows[i].id == row.id;
    var rows' := u.value;
    assert forall j :: 0 <= j < |rows| && j != i ==> rows'[j] == rows[j];
    LatestActiveUnique(rows', userId, now, i);
    FoundStaysFound(rows', userId, now, later);
  }

  /** `createConversation`: a fresh row expiring an hour from now. */
  function CreateConversation(rows: seq<ConversationRow>, userId: nat, state: CS.State, data: CS.Data, now: int): (r: (seq<ConversationRow>, ConversationRow))
    ensures r.0 == rows + [r.1]
    ensures r.1 == ConversationRow(|rows| + 1, userId, state, data, now, now + ConversationLifetime)
  {
    var row := ConversationRow(|rows| + 1, userId, state, data, now, now + ConversationLifetime);
    (rows + [row], row)
  }

  /** `updateConversation`: replace state and data of the row with this id
      and push its expiry an hour ahead; an unknown id is an error (None). */
  function UpdateConversation(rows: seq<ConversationRow>, id: nat, state: CS.State, data: CS.Data, now: int): (r: Option<seq<ConversationRow>>)
    ensures r.None? <==> forall i :: 0 <= i < |rows| ==> rows[i].id != id
    ensures r.Some? ==> |r.value| == |rows| && forall i :: 0 <= i < |rows| ==>
      r.value[i] == (if rows[i].id == id then rows[i].(state := state, data := data, expiresAt := now + ConversationLifetime) else rows[i])
  {
    if forall i :: 0 <= i < |rows| ==> rows[i].id != id then None
    else Some(seq(|rows|, i requires 0 <= i < |rows| =>
      if rows[i].id == id then rows[i].(state := state, data := data, expiresAt := now + ConversationLifetime) else rows[i]))
  }

  // ---------------------------------------------------------------------
  // Story requests

  /** The instant `scheduled_for` records: now for 'now', otherwise the
      parsed scheduled time; None when that is not a valid date. */
  function ScheduledFor(form: CS.FormData, now: int, dates: CS.DateLib): (r: Option<int>)
    ensures form.scheduledTime == Some(CS.Now) ==> r == Some(now)
    ensures form.scheduledTime.Some? && form.scheduledTime.value.At? ==> r == Some(form.scheduledTime.value.ms)
    ensures form.scheduledTime.Some? && form.scheduledTime.value.Verbatim? ==> r == dates.parse(form.scheduledTime.value.text)
    ensures form.scheduledTime.None? ==> r.None?
  {
    if form.scheduledTime == Some(CS.Now) then Some(now) else CS.DateOf(form.scheduledTime, dates)
  }

  /** `createStoryRequest`: the storyteller's name and phone get their own
      columns and the whole form is kept; an invalid date is an error (None). */
  function CreateStoryRequest(requests: seq<StoryRequest>, userId: nat, form: CS.FormData, now: int, dates: CS.DateLib): (r: Option<(seq<StoryRequest>, StoryRequest)>)
    ensures r.None? <==> ScheduledFor(form, now, dates).None?
    ensures r.Some? ==> r.value.0 == requests + [r.value.1]
    ensures r.Some? ==> r.value.1 == StoryRequest(|requests| + 1, userId, form.storyteller.name, form.storyteller.phone,
                                                   form, ScheduledFor(form, now, dates).value, Pending, None, None, None)
  {
    match ScheduledFor(form, now, dates)
    case None => None
    case Some(t) =>
      var req := StoryRequest(|requests| + 1, userId, form.storyteller.name, form.storyteller.phone, form, t, Pending, None, None, None);
      Some((requests + [req], req))
  }

  datatype Patch = MarkCalling(at: int) | MarkProcessing(assistantId: Option<string>, callId: Option<string>) | MarkFailed

  function Patched(r: StoryRequest, p: Patch): StoryRequest {
    match p
    case MarkCalling(at) => r.(status := Calling, calledAt := Some(at))
    case MarkProcessing(a, c) => r.(assistantId := a, callId := c, status := Processing)
    case MarkFailed => r.(status := Failed)
  }

  /** `updateStoryRequest`: apply the patch to the row with this id; an
      unknown id is an error (None). */
  function UpdateStoryRequest(requests: seq<StoryRequest>, id: nat, p: Patch): (r: Option<seq<StoryRequest>>)
    ensures r.None? <==> forall i :: 0 <= i < |requests| ==> requests[i].id != id
    ensures r.Some? ==> |r.value| == |requests| && forall i :: 0 <= i < |requests| ==>
      r.value[i] == (if requests[i].id == id then Patched(requests[i], p) else requests[i])
  {
    if forall i :: 0 <= i < |requests| ==> requests[i].id != id then None
    else Some(seq(|requests|, i requires 0 <= i < |requests| =>
      if requests[i].id == id then Patched(requests[i], p) else requests[i]))
  }

  predicate IsDue(r: StoryRequest, now: int) {
    (r.status == Pending || r.status == Scheduled) && r.scheduledFor <= now
  }

  function DueRequests(requests: seq<StoryRequest>, now: int): (r: seq<StoryRequest>)
    ensures forall x :: multiset(r)[x] == if IsDue(x, now) then multiset(requests)[x] else 0
    decreases |requests|
  {
    if requests == [] then []
    else
      assert requests == [requests[0]] + requests[1..];
      (if IsDue(requests[0], now) then [requests[0]] else []) + DueRequests(requests[1..], now)
  }

  predicate SortedBySchedule(rs: seq<StoryRequest>) {
    forall i, j :: 0 <= i < j < |rs| ==> rs[i].scheduledFor <= rs[j].scheduledFor
  }

  /** Putting an earliest element in front keeps a sequence sorted. */
  lemma SortedCons(a: StoryRequest, t: seq<StoryRequest>)
    requires SortedBySchedule(t)
    requires forall y :: y in t ==> a.scheduledFor <= y.scheduledFor
    ensures SortedBySchedule([a] + t)
  {
    forall i, j | 0 <= i < j < |[a] + t| ensures ([a] + t)[i].scheduledFor <= ([a] + t)[j].scheduledFor {
      if i == 0 {
        assert ([a] + t)[j] == t[j - 1] && t[j - 1] in t;
      } else {
        assert ([a] + t)[i] == t[i - 1] && ([a] + t)[j] == t[j - 1];
      }
    }
  }

  function InsertBySchedule(x: StoryRequest, rs: seq<StoryRequest>): (r: seq<StoryRequest>)
    ensures multiset(r) == multiset(rs) + multiset{x}
    decreases |rs|
  {
    if rs == [] || x.scheduledFor <= rs[0].scheduledFor then [x] + rs
    else
      assert rs == [rs[0]] + rs[1..];
      [rs[0]] + InsertBySchedule(x, rs[1..])
  }

  lemma SortedTail(rs: seq<StoryRequest>)
    requires rs != [] && SortedBySchedule(rs)
    ensures SortedBySchedule(rs[1..])
    ensures forall y :: y in rs ==> rs[0].scheduledFor <= y.scheduledFor
  {
    forall i, j | 0 <= i < j < |rs[1..]| ensures rs[1..][i].scheduledFor <= rs[1..][j].scheduledFor {
      assert rs[1..][i] == rs[i + 1] && rs[1..][j] == rs[j + 1];
    }
    forall y | y in rs ensures rs[0].scheduledFor <= y.scheduledFor {
      var k :| 0 <= k < |rs| && rs[k] == y;
      assert k == 0 || rs[0].scheduledFor <= rs[k].scheduledFor;
    }
  }

  lemma {:induction false} InsertSorted(x: StoryRequest, rs: seq<StoryRequest>)
    requires SortedBySchedule(rs)
    ensures SortedBySchedule(InsertBySchedule(x, rs))
    decreases |rs|
  {
    if rs == [] {
      SortedCons(x, rs);
    } else if x.scheduledFor <= rs[0].scheduledFor {
      SortedTail(rs);
      SortedCons(x, rs);
    } else {
      SortedTail(rs);
      var t := InsertBySchedule(x, rs[1..]);
      InsertSorted(x, rs[1..]);
      forall y | y in t ensures rs[0].scheduledFor <= y.scheduledFor {
        assert y in multiset(t);
        assert y == x || y in multiset(rs[1..]);
      }
      SortedCons(rs[0], t);
    }
  }

  function SortBySchedule(rs: seq<StoryRequest>): (r: seq<StoryRequest>)
    ensures SortedBySchedule(r)
    ensures multiset(r) == multiset(rs)
    decreases |rs|
  {
    if rs == [] then []
    else
      assert rs == [rs[0]] + rs[1..];
      var t := SortBySchedule(rs[1..]);
      InsertSorted(rs[0], t);
      InsertBySchedule(rs[0], t)
  }

  /** `getPendingStoryRequests`: exactly the pending or scheduled requests
      that are due, each as often as it is stored, by ascending
      `scheduled_for`. */
  function PendingStoryRequests(requests: seq<StoryRequest>, now: int): (r: seq<StoryRequest>)
    ensures SortedBySchedule(r)
    ensures forall x :: multiset(r)[x] == if IsDue(x, now) then multiset(requests)[x] else 0
    ensures forall x :: x in r <==> x in requests && IsDue(x, now)
  {
    SortBySchedule(DueRequests(requests, now))
  }

  // ---------------------------------------------------------------------
  // The tables as a mutable store

  class DB {
    var users: seq<User>
    var conversations: seq<ConversationRow>
    var requests: seq<StoryRequest>
    var logs: seq<SmsLog>

    function Snapshot(): Tables
      reads this
    {
      Tables(users, conversations, requests, logs)
    }

    constructor (t: Tables)
      ensures Snapshot() == t
    {
      users, conversations, requests, logs := t.users, t.conversations, t.requests, t.logs;
    }

    /** `logSMS`: a failed insert is reported and swallowed, never thrown. */
    method LogSMS(phone: string, direction: string, message: string, fails: bool)
      modifies this
      ensures Snapshot() == if fails then old(Snapshot()) else old(Snapshot()).(logs := old(logs) + [SmsLog(phone, direction, message)])
    {
      if !fails {
        logs := logs + [SmsLog(phone, direction, message)];
      }
    }

    /** `createOrGetUser`, with `fails` the insert throwing: it throws only when
        the lookup does not find the phone's row, since a found row is
        returned before the insert. The lookup's own error is dropped by the
        code and is not modelled. */
    method GetOrCreateUser(phone: string, fails: bool) returns (r: Option<User>)
      modifies this
      ensures fails && !FindsUser(old(users), phone) ==> r.None? && Snapshot() == old(Snapshot())
      ensures !(fails && !FindsUser(old(users), phone)) ==> (r == Some(CreateOrGetUser(old(users), phone).1) &&
        Snapshot() == old(Snapshot()).(users := CreateOrGetUser(old(users), phone).0))
    {
      if fails && !FindsUser(users, phone) {
        return None;
      }
      var (us, u) := CreateOrGetUser(users, phone);
      users := us;
      r := Some(u);
    }

    method ActiveConversation(userId: nat, now: int, fails: bool) returns (r: Option<Option<ConversationRow>>)
      ensures r == if fails then None else Some(GetActiveConversation(conversations, userId, now))
    {
      if fails {
        return None;
      }
      r := Some(GetActiveConversation(conversations, userId, now));
    }

    method NewConversation(userId: nat, state: CS.State, data: CS.Data, now: int, fails: bool) returns (r: Option<ConversationRow>)
      modifies this
      ensures fails ==> r.None? && Snapshot() == old(Snapshot())
      ensures !fails ==> (r == Some(CreateConversation(old(conversations), userId, state, data, now).1) &&
        Snapshot() == old(Snapshot()).(conversations := CreateConversation(old(conversations), userId, state, data, now).0))
    {
      if fails {
        return None;
      }
      var row := ConversationRow(|conversations| + 1, userId, state, data, now, now + ConversationLifetime);
      conversations := conversations + [row];
      r := Some(row);
    }

    /** Returns whether the update went through. */
    method SetConversation(id: nat, state: CS.State, data: CS.Data, now: int, fails: bool) returns (ok: bool)
      modifies this
      ensures var u := UpdateConversation(old(conversations), id, state, data, now);
        ok == (!fails && u.Some?) &&
        Snapshot() == if ok then old(Snapshot()).(conversations := u.value) else old(Snapshot())
    {
      if fails {
        return false;
      }
      var u := UpdateConversation(conversations, id, state, data, now);
      if u.None? {
        return false;
      }
      conversations := u.value;
      ok := true;
    }

    method NewStoryRequest(userId: nat, form: CS.FormData, now: int, dates: CS.DateLib, fails: bool) returns (r: Option<StoryRequest>)
      modifies this
      ensures var c := CreateStoryRequest(old(requests), userId, form, now, dates);
        r == (if fails || c.None? then None else Some(c.value.1)) &&
        Snapshot() == if r.Some? then old(Snapshot()).(requests := c.value.0) else old(Snapshot())
    {
      if fails {
        return None;
      }
      var c := CreateStoryRequest(requests, userId, form, now, dates);
      if c.None? {
        return None;
      }
      requests := c.value.0;
      r := Some(c.value.1);
    }

    method PatchStoryRequest(id: nat, p: Patch, fails: bool) returns (ok: bool)
      modifies this
      ensures var u := UpdateStoryRequest(old(requests), id, p);
        ok == (!fails && u.Some?) &&
        Snapshot() == if ok then old(Snapshot()).(requests := u.value) else old(Snapshot())
    {
      if fails {
        return false;
      }
      var u := UpdateStoryRequest(requests, id, p);
      if u.None? {
        return false;
      }
      requests := u.value;
      ok := true;
    }
  }
}
