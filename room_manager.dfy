/** The server's room bookkeeping over its three tables (rooms, room
    memberships, users): creating and joining rooms, listing a user's rooms,
    crediting a finished quiz to a member, and ranking a room's members.
    Each table is a sequence of rows in table order; the ids and invite codes
    the server draws at random are inputs, assumed not yet in use. */
module RoomManager {
  import opened Wrappers
  import opened Text

  datatype Room = Room(id: string, name: string, inviteCode: string, createdBy: string, createdAt: string)

  /** A membership row. The score is a JavaScript number, so a fractional
      increase is kept as it is credited. */
  datatype Member = Member(id: string, roomId: string, userId: string, score: real, streak: int,
                           quizzesCompleted: int, joinedAt: string)

  datatype User = User(id: string, username: string)

  /** A member as a room listing or the leaderboard shows it. */
  datatype MemberView = MemberView(userId: string, username: string, score: real, streak: int,
                                   quizzesCompleted: int)

  datatype RoomView = RoomView(id: string, name: string, inviteCode: string, createdBy: string,
                               members: seq<MemberView>, createdAt: string)

  /** What `updateMemberScore` reports. */
  datatype ScoreUpdate = ScoreUpdate(score: real, streak: int, quizzesCompleted: int)

  /** A leaderboard line: the member and its place, counting from 1. */
  datatype Standing = Standing(member: MemberView, rank: nat)

  /** The first position whose element satisfies `p`, as a `select` that
      destructures its first row. */
  function FirstIndex<T>(s: seq<T>, p: T -> bool): (r: Option<nat>)
    ensures r.None? <==> forall k :: 0 <= k < |s| ==> !p(s[k])
    ensures r.Some? ==> r.value < |s| && p(s[r.value]) && forall k :: 0 <= k < r.value ==> !p(s[k])
  {
    if s == [] then None
    else if p(s[0]) then Some(0)
    else
      match FirstIndex(s[1..], p)
      case None =>
        assert forall k :: 1 <= k < |s| ==> s[k] == s[1..][k - 1];
        None
      case Some(i) =>
        assert forall k :: 1 <= k <= i + 1 ==> s[k] == s[1..][k - 1];
        Some(i + 1)
  }

  function FindRoom(rooms: seq<Room>, roomId: string): Option<nat> {
    FirstIndex(rooms, (r: Room) => r.id == roomId)
  }

  function FindRoomByCode(rooms: seq<Room>, code: string): Option<nat> {
    FirstIndex(rooms, (r: Room) => r.inviteCode == code)
  }

  function FindMember(members: seq<Member>, roomId: string, userId: string): Option<nat> {
    FirstIndex(members, (m: Member) => m.roomId == roomId && m.userId == userId)
  }

  function FindUser(users: seq<User>, userId: string): Option<nat> {
    FirstIndex(users, (u: User) => u.id == userId)
  }

  /** The line a membership row gives, under its user's name. */
  function Line(m: Member, username: string): MemberView {
    MemberView(m.userId, username, m.score, m.streak, m.quizzesCompleted)
  }

  predicate IsMember(members: seq<Member>, roomId: string, userId: string) {
    exists k :: 0 <= k < |members| && members[k].roomId == roomId && members[k].userId == userId
  }

  /** The inner join of a room's memberships with the users table: one line
      per membership of `roomId` whose user exists, in table order, carrying
      that membership's counters. */
  function RoomMembers(members: seq<Member>, users: seq<User>, roomId: string): (r: seq<MemberView>)
    ensures |r| <= |members|
    ensures forall k :: 0 <= k < |r| ==> IsMember(members, roomId, r[k].userId)
  {
    if members == [] then []
    else
      var rest := RoomMembers(members[1..], users, roomId);
      assert forall k :: 0 <= k < |rest| ==> IsMember(members, roomId, rest[k].userId) by {
        forall k | 0 <= k < |rest|
          ensures IsMember(members, roomId, rest[k].userId)
        {
          var j :| 0 <= j < |members[1..]| && members[1..][j].roomId == roomId
                   && members[1..][j].userId == rest[k].userId;
          assert members[j + 1] == members[1..][j];
        }
      }
      var m := members[0];
      if m.roomId == roomId then
        match FindUser(users, m.userId)
        case None => rest
        case Some(j) => [Line(m, users[j].username)] + rest
      else rest
  }

  /** The join distributes over the membership table: together with its
      effect on one row, this pins `RoomMembers` down as the order-keeping
      inner join. */
  lemma {:induction false} RoomMembersAppend(a: seq<Member>, b: seq<Member>, users: seq<User>,
                                             roomId: string)
    ensures RoomMembers(a + b, users, roomId) == RoomMembers(a, users, roomId) + RoomMembers(b, users, roomId)
  {
    if a == [] {
      assert a + b == b;
    } else {
      assert (a + b)[0] == a[0];
      assert (a + b)[1..] == a[1..] + b;
      RoomMembersAppend(a[1..], b, users, roomId);
    }
  }

  /** One membership row gives one line exactly when it belongs to the room
      and its user exists; the line carries that user's name and the row's
      score, streak and quiz count. */
  lemma RoomMembersOne(m: Member, users: seq<User>, roomId: string)
    ensures var r := RoomMembers([m], users, roomId);
            && |r| <= 1
            && (r != [] <==> m.roomId == roomId && exists j :: 0 <= j < |users| && users[j].id == m.userId)
            && (r != [] ==> r == [Line(m, users[FindUser(users, m.userId).value].username)])
  {
    assert [m][1..] == [];
    var p := (u: User) => u.id == m.userId;
    if FindUser(users, m.userId).None? {
      assert forall j :: 0 <= j < |users| ==> !p(users[j]);
    } else {
      assert p(users[FindUser(users, m.userId).value]);
    }
  }

  /** `getRoomWithMembers`: the room with its member list, or `None` when no
      room has that id. */
  function RoomWithMembers(rooms: seq<Room>, members: seq<Member>, users: seq<User>,
                           roomId: string): (r: Option<RoomView>)
    ensures r.None? <==> forall k :: 0 <= k < |rooms| ==> rooms[k].id != roomId
    ensures r.Some? ==> r.value.id == roomId
    ensures r.Some? ==> exists i :: && 0 <= i < |rooms| && rooms[i].id == roomId
                                    && (forall k :: 0 <= k < i ==> rooms[k].id != roomId)
                                    && r.value == RoomView(roomId, rooms[i].name, rooms[i].inviteCode,
                                                           rooms[i].createdBy,
                                                           RoomMembers(members, users, roomId),
                                                           rooms[i].createdAt)
  {
    match FindRoom(rooms, roomId)
    case None => None
    case Some(i) =>
      var room := rooms[i];
      Some(RoomView(room.id, room.name, room.inviteCode, room.createdBy,
                    RoomMembers(members, users, roomId), room.createdAt))
  }

  // ---- Joining ----

  /** The membership table after `joinRoom(inviteCode, userId)`, or "Room not
      found" when no room has the upper-cased code. A user already in the
      room gets no second row; anyone else gets one new row with zero
      counters. */
  function JoinMembers(rooms: seq<Room>, members: seq<Member>, inviteCode: string, userId: string,
                       memberId: string, now: string): (r: Result<seq<Member>, string>)
    ensures r.Err? <==> forall k :: 0 <= k < |rooms| ==> rooms[k].inviteCode != ToUpperAscii(inviteCode)
    ensures r.Err? ==> r.error == "Room not found"
    ensures r.Ok? ==> IsMember(r.value, rooms[FindRoomByCode(rooms, ToUpperAscii(inviteCode)).value].id, userId)
    ensures r.Ok? ==> |members| <= |r.value| <= |members| + 1 && r.value[..|members|] == members
    ensures r.Ok? ==>
              var roomId := rooms[FindRoomByCode(rooms, ToUpperAscii(inviteCode)).value].id;
              && (IsMember(members, roomId, userId) ==> r.value == members)
              && (!IsMember(members, roomId, userId) ==>
                    r.value == members + [Member(memberId, roomId, userId, 0.0, 0, 0, now)])
  {
    match FindRoomByCode(rooms, ToUpperAscii(inviteCode))
    case None => Err("Room not found")
    case Some(i) =>
      var roomId := rooms[i].id;
      if IsMember(members, roomId, userId) then Ok(members)
      else
        var added := members + [Member(memberId, roomId, userId, 0.0, 0, 0, now)];
        assert added[|members|].roomId == roomId && added[|members|].userId == userId;
        Ok(added)
  }

  /** Joining is idempotent: joining the same room again, whatever the new
      row's id and time, adds nothing. */
  lemma JoinTwice(rooms: seq<Room>, members: seq<Member>, inviteCode: string, userId: string,
                  id1: string, now1: string, id2: string, now2: string)
    requires JoinMembers(rooms, members, inviteCode, userId, id1, now1).Ok?
    ensures var once := JoinMembers(rooms, members, inviteCode, userId, id1, now1).value;
            JoinMembers(rooms, once, inviteCode, userId, id2, now2) == Ok(once)
  {
  }

  /** Invite codes are matched after upper-casing, so a code typed in lower
      case finds the same room. */
  lemma JoinIgnoresCase(rooms: seq<Room>, members: seq<Member>, inviteCode: string, userId: string,
                        memberId: string, now: string)
    ensures JoinMembers(rooms, members, ToUpperAscii(inviteCode), userId, memberId, now)
            == JoinMembers(rooms, members, inviteCode, userId, memberId, now)
  {
    ToUpperAsciiIdempotent(inviteCode);
  }

  // ---- Scores ----

  /** A membership row after one completed quiz worth `scoreIncrease`. */
  function Credited(m: Member, scoreIncrease: real): (c: Member)
    ensures c.id == m.id && c.roomId == m.roomId && c.userId == m.userId && c.joinedAt == m.joinedAt
    ensures c.score - m.score == scoreIncrease && c.streak == m.streak + 1
    ensures c.quizzesCompleted == m.quizzesCompleted + 1
  {
    m.(score := m.score + scoreIncrease, streak := m.streak + 1,
       quizzesCompleted := m.quizzesCompleted + 1)
  }

  /** `updateMemberScore(roomId, userId, scoreIncrease)`: `None` and the table
      unchanged when the user is not in the room; otherwise the first
      membership row of the user in the room is credited, no other row
      changes, and its new counters are returned. */
  function UpdateScore(members: seq<Member>, roomId: string, userId: string, scoreIncrease: real)
    : (r: (Option<ScoreUpdate>, seq<Member>))
    ensures r.0.None? <==> !IsMember(members, roomId, userId)
    ensures r.0.None? ==> r.1 == members
    ensures |r.1| == |members|
    ensures r.0.Some? ==>
              && FindMember(members, roomId, userId).Some?
              && var i := FindMember(members, roomId, userId).value;
              && members[i].roomId == roomId && members[i].userId == userId
              && r.1 == members[i := Credited(members[i], scoreIncrease)]
              && r.0.value == ScoreUpdate(r.1[i].score, r.1[i].streak, r.1[i].quizzesCompleted)
  {
    var p := (m: Member) => m.roomId == roomId && m.userId == userId;
    match FindMember(members, roomId, userId)
    case None =>
      assert forall k :: 0 <= k < |members| ==> !p(members[k]);
      (None, members)
    case Some(i) =>
      assert p(members[i]);
      var table := members[i := Credited(members[i], scoreIncrease)];
      (Some(ScoreUpdate(table[i].score, table[i].streak, table[i].quizzesCompleted)), table)
  }

  /** The sum of all scores in the membership table. */
  function TotalScore(members: seq<Member>): real {
    if members == [] then 0.0 else members[0].score + TotalScore(members[1..])
  }

  lemma {:induction false} TotalScoreUpdate(members: seq<Member>, i: nat, m: Member)
    requires i < |members|
    ensures TotalScore(members[i := m]) == TotalScore(members) - members[i].score + m.score
    decreases |members|
  {
    if i > 0 {
      assert members[i := m][1..] == members[1..][i - 1 := m];
      TotalScoreUpdate(members[1..], i - 1, m);
    } else {
      assert members[i := m][1..] == members[1..];
    }
  }

  /** A credited quiz raises the total of all scores by exactly the increase. */
  lemma UpdateScoreAddsToTotal(members: seq<Member>, roomId: string, userId: string, scoreIncrease: real)
    ensures var r := UpdateScore(members, roomId, userId, scoreIncrease);
            TotalScore(r.1) == TotalScore(members) + (if r.0.Some? then scoreIncrease else 0.0)
  {
    var r := UpdateScore(members, roomId, userId, scoreIncrease);
    if r.0.Some? {
      var i := FindMember(members, roomId, userId).value;
      TotalScoreUpdate(members, i, r.1[i]);
    }
  }

  // ---- Leaderboard ----

  predicate SortedDesc(s: seq<MemberView>) {
    forall i, j :: 0 <= i < j < |s| ==> s[i].score >= s[j].score
  }

  /** A member with at least every listed score can head a sorted list. */
  lemma SortedCons(h: MemberView, t: seq<MemberView>)
    requires SortedDesc(t)
    requires forall k :: 0 <= k < |t| ==> h.score >= t[k].score
    ensures SortedDesc([h] + t)
  {
    var r := [h] + t;
    forall i, j | 0 <= i < j < |r|
      ensures r[i].score >= r[j].score
    {
      assert r[j] == t[j - 1];
      if i > 0 {
        assert r[i] == t[i - 1];
      }
    }
  }

  /** Puts `x` into a list sorted highest score first, ahead of the members
      it ties with. */
  function InsertDesc(x: MemberView, s: seq<MemberView>): (r: seq<MemberView>)
    ensures |r| == |s| + 1
    ensures multiset(r) == multiset(s) + multiset{x}
  {
    if s == [] || x.score >= s[0].score then [x] + s
    else
      assert s == [s[0]] + s[1..];
      [s[0]] + InsertDesc(x, s[1..])
  }

  /** Inserting never raises the highest score. */
  lemma {:induction false} InsertDescBounded(x: MemberView, s: seq<MemberView>, bound: real)
    requires x.score <= bound
    requires forall k :: 0 <= k < |s| ==> s[k].score <= bound
    ensures forall k :: 0 <= k < |s| + 1 ==> InsertDesc(x, s)[k].score <= bound
  {
    if s != [] && x.score < s[0].score {
      InsertDescBounded(x, s[1..], bound);
    }
  }

  /** Inserting into a sorted list keeps it sorted. */
  lemma {:induction false} InsertDescSorted(x: MemberView, s: seq<MemberView>)
    requires SortedDesc(s)
    ensures SortedDesc(InsertDesc(x, s))
  {
    if s == [] || x.score >= s[0].score {
      SortedCons(x, s);
    } else {
      var tail := s[1..];
      InsertDescSorted(x, tail);
      InsertDescBounded(x, tail, s[0].score);
      SortedCons(s[0], InsertDesc(x, tail));
    }
  }

  /** `members.sort((a, b) => b.score - a.score)`: the same members,
      highest score first (a stable sort keeps ties in their listed order). */
  function SortByScoreDesc(s: seq<MemberView>): (r: seq<MemberView>)
    ensures SortedDesc(r)
    ensures multiset(r) == multiset(s)
    ensures |r| == |s|
  {
    if s == [] then []
    else
      assert s == [s[0]] + s[1..];
      var sorted := SortByScoreDesc(s[1..]);
      InsertDescSorted(s[0], sorted);
      InsertDesc(s[0], sorted)
  }

  /** The ranked list: the sorted members with ranks 1, 2, … in order. */
  function Rank(sorted: seq<MemberView>): (r: seq<Standing>)
    ensures |r| == |sorted|
    ensures forall k :: 0 <= k < |r| ==> r[k].rank == k + 1 && r[k].member == sorted[k]
  {
    seq(|sorted|, k requires 0 <= k < |sorted| => Standing(sorted[k], k + 1))
  }

  function Members(standings: seq<Standing>): (r: seq<MemberView>)
    ensures |r| == |standings|
    ensures forall k :: 0 <= k < |r| ==> r[k] == standings[k].member
  {
    seq(|standings|, k requires 0 <= k < |standings| => standings[k].member)
  }

  /** `getLeaderboard(roomId)`, given the joined member lines. */
  function Leaderboard(joined: seq<MemberView>): seq<Standing> {
    Rank(SortByScoreDesc(joined))
  }

  /** The leaderboard lists exactly the room's members, highest score first,
      ranked 1..n in that order: a higher rank never has a lower score. */
  lemma LeaderboardRanked(joined: seq<MemberView>)
    ensures var board := Leaderboard(joined);
            && multiset(Members(board)) == multiset(joined)
            && (forall k :: 0 <= k < |board| ==> board[k].rank == k + 1)
            && (forall i, j :: 0 <= i < j < |board| ==> board[i].member.score >= board[j].member.score)
  {
    var sorted := SortByScoreDesc(joined);
    assert Members(Rank(sorted)) == sorted;
  }

  /** The three tables. The users table is only read here. */
  class RoomDb {
    var rooms: seq<Room>
    var members: seq<Member>
    var users: seq<User>

    constructor (rooms: seq<Room>, members: seq<Member>, users: seq<User>)
      ensures this.rooms == rooms && this.members == members && this.users == users
    {
      this.rooms := rooms;
      this.members := members;
      this.users := users;
    }

    function GetRoomWithMembers(roomId: string): (r: Option<RoomView>)
      reads this
      ensures r == RoomWithMembers(rooms, members, users, roomId)
    {
      RoomWithMembers(rooms, members, users, roomId)
    }

    /** `createRoom(name, userId)`: one new room whose invite code is the
        upper-cased random code, created by the user, and one membership of
        the creator with zero score, streak and quizzes; the result is the
        new room with its members. */
    method CreateRoom(name: string, userId: string, roomId: string, rawCode: string,
                      memberId: string, now: string) returns (r: Option<RoomView>)
      requires forall k :: 0 <= k < |rooms| ==> rooms[k].id != roomId
      requires forall k :: 0 <= k < |rooms| ==> rooms[k].inviteCode != ToUpperAscii(rawCode)
      modifies this
      ensures rooms == old(rooms) + [Room(roomId, name, ToUpperAscii(rawCode), userId, now)]
      ensures members == old(members) + [Member(memberId, roomId, userId, 0.0, 0, 0, now)]
      ensures users == old(users)
      ensures IsMember(members, roomId, userId)
      ensures r.Some? && r.value.id == roomId && r.value.inviteCode == ToUpperAscii(rawCode)
      ensures r == RoomWithMembers(rooms, members, users, roomId)
    {
      rooms := rooms + [Room(roomId, name, ToUpperAscii(rawCode), userId, now)];
      members := members + [Member(memberId, roomId, userId, 0.0, 0, 0, now)];
      assert members[|members| - 1].roomId == roomId;
      assert rooms[|rooms| - 1].id == roomId;
      r := RoomWithMembers(rooms, members, users, roomId);
    }

    /** `joinRoom(inviteCode, userId)`: "Room not found" with nothing
        changed, or the membership table `JoinMembers` gives and the joined
        room with its members. */
    method JoinRoom(inviteCode: string, userId: string, memberId: string, now: string)
      returns (r: Result<RoomView, string>)
      modifies this
      ensures rooms == old(rooms) && users == old(users)
      ensures match JoinMembers(old(rooms), old(members), inviteCode, userId, memberId, now)
              case Err(e) => r == Err(e) && members == old(members)
              case Ok(table) =>
                members == table
                && var roomId := rooms[FindRoomByCode(rooms, ToUpperAscii(inviteCode)).value].id;
                r.Ok? && Some(r.value) == RoomWithMembers(rooms, members, users, roomId)
    {
      var i := FindRoomByCode(rooms, ToUpperAscii(inviteCode));
      if i.None? {
        return Err("Room not found");
      }
      var roomId := rooms[i.value].id;
      if !IsMember(members, roomId, userId) {
        members := members + [Member(memberId, roomId, userId, 0.0, 0, 0, now)];
      }
      var view := RoomWithMembers(rooms, members, users, roomId);
      return Ok(view.value);
    }

    /** `getUserRooms(userId)`: for each of the user's memberships in table
        order, the room with its members, skipping rooms that no longer
        exist; so one room per membership at most, and exactly one when all
        of them exist. */
    method GetUserRooms(userId: string) returns (result: seq<RoomView>)
      ensures |result| <= |Memberships(members, userId)|
      ensures forall k :: 0 <= k < |result| ==>
                IsMember(members, result[k].id, userId)
                && Some(result[k]) == RoomWithMembers(rooms, members, users, result[k].id)
      ensures (forall m :: m in Memberships(members, userId) ==> FindRoom(rooms, m.roomId).Some?) ==>
                |result| == |Memberships(members, userId)|
      ensures result == RoomsOf(rooms, members, users, Memberships(members, userId))
    {
      var memberships := Memberships(members, userId);
      result := [];
      var i := 0;
      while i < |memberships|
        invariant 0 <= i <= |memberships|
        invariant result == RoomsOf(rooms, members, users, memberships[..i])
      {
        assert memberships[..i + 1][..i] == memberships[..i];
        var room := RoomWithMembers(rooms, members, users, memberships[i].roomId);
        if room.Some? {
          result := result + [room.value];
        }
        i := i + 1;
      }
      assert memberships[..i] == memberships;
      RoomsOfListsMemberships(rooms, members, users, memberships, userId);
      if forall m :: m in memberships ==> FindRoom(rooms, m.roomId).Some? {
        RoomsOfAllExist(rooms, members, users, memberships);
      }
    }

    /** `updateMemberScore`, applied to the membership table. */
    method UpdateMemberScore(roomId: string, userId: string, scoreIncrease: real)
      returns (r: Option<ScoreUpdate>)
      modifies this
      ensures rooms == old(rooms) && users == old(users)
      ensures (r, members) == UpdateScore(old(members), roomId, userId, scoreIncrease)
    {
      var i := FindMember(members, roomId, userId);
      if i.None? {
        return None;
      }
      var updated := Credited(members[i.value], scoreIncrease);
      members := members[i.value := updated];
      r := Some(ScoreUpdate(updated.score, updated.streak, updated.quizzesCompleted));
    }

    function GetLeaderboard(roomId: string): (board: seq<Standing>)
      reads this
      ensures multiset(Members(board)) == multiset(RoomMembers(members, users, roomId))
      ensures forall k :: 0 <= k < |board| ==> board[k].rank == k + 1
      ensures forall i, j :: 0 <= i < j < |board| ==> board[i].member.score >= board[j].member.score
    {
      LeaderboardRanked(RoomMembers(members, users, roomId));
      Leaderboard(RoomMembers(members, users, roomId))
    }
  }

  /** The user's membership rows, in table order. */
  function Memberships(members: seq<Member>, userId: string): (r: seq<Member>)
    ensures |r| <= |members|
    ensures forall k :: 0 <= k < |r| ==> r[k].userId == userId && IsMember(members, r[k].roomId, userId)
    ensures forall k :: 0 <= k < |members| && members[k].userId == userId ==> members[k] in r
  {
    if members == [] then []
    else
      var rest := Memberships(members[1..], userId);
      assert forall k :: 0 <= k < |rest| ==> IsMember(members, rest[k].roomId, userId) by {
        forall k | 0 <= k < |rest|
          ensures IsMember(members, rest[k].roomId, userId)
        {
          var j :| 0 <= j < |members[1..]| && members[1..][j].roomId == rest[k].roomId
                   && members[1..][j].userId == userId;
          assert members[j + 1] == members[1..][j];
        }
      }
      assert forall k :: 1 <= k < |members| ==> members[k] == members[1..][k - 1];
      if members[0].userId == userId then
        assert members[0].roomId == members[0].roomId;
        [members[0]] + rest
      else rest
  }

  /** Selecting distributes over the table: with `MembershipsOne`, this pins
      `Memberships` down as the order-keeping filter on the user. */
  lemma {:induction false} MembershipsAppend(a: seq<Member>, b: seq<Member>, userId: string)
    ensures Memberships(a + b, userId) == Memberships(a, userId) + Memberships(b, userId)
  {
    if a == [] {
      assert a + b == b;
    } else {
      assert (a + b)[0] == a[0];
      assert (a + b)[1..] == a[1..] + b;
      MembershipsAppend(a[1..], b, userId);
    }
  }

  lemma MembershipsOne(m: Member, userId: string)
    ensures Memberships([m], userId) == if m.userId == userId then [m] else []
  {
    assert [m][1..] == [];
  }

  /** The rooms a list of memberships lists, in order: each membership's room
      with its members, skipping memberships whose room no longer exists. */
  function RoomsOf(rooms: seq<Room>, members: seq<Member>, users: seq<User>, ms: seq<Member>)
    : seq<RoomView>
    decreases |ms|
  {
    if ms == [] then []
    else
      var before := RoomsOf(rooms, members, users, ms[..|ms| - 1]);
      match RoomWithMembers(rooms, members, users, ms[|ms| - 1].roomId)
      case None => before
      case Some(v) => before + [v]
  }

  /** Listing the rooms of some of a user's memberships gives at most one
      room per membership, each a room the user is a member of and exactly
      as `getRoomWithMembers` shows it. */
  lemma {:induction false} RoomsOfListsMemberships(rooms: seq<Room>, members: seq<Member>,
                                                   users: seq<User>, ms: seq<Member>, userId: string)
    requires forall k :: 0 <= k < |ms| ==> IsMember(members, ms[k].roomId, userId)
    ensures var r := RoomsOf(rooms, members, users, ms);
            && |r| <= |ms|
            && (forall k :: 0 <= k < |r| ==>
                  IsMember(members, r[k].id, userId)
                  && Some(r[k]) == RoomWithMembers(rooms, members, users, r[k].id))
    decreases |ms|
  {
    if ms != [] {
      var init := ms[..|ms| - 1];
      assert forall k :: 0 <= k < |init| ==> init[k] == ms[k];
      RoomsOfListsMemberships(rooms, members, users, init, userId);
    }
  }

  /** When the rooms of all the memberships exist, each gives one room. */
  lemma {:induction false} RoomsOfAllExist(rooms: seq<Room>, members: seq<Member>,
                                           users: seq<User>, ms: seq<Member>)
    requires forall m :: m in ms ==> FindRoom(rooms, m.roomId).Some?
    ensures |RoomsOf(rooms, members, users, ms)| == |ms|
    decreases |ms|
  {
    if ms != [] {
      var init := ms[..|ms| - 1];
      assert forall m :: m in init ==> m in ms;
      RoomsOfAllExist(rooms, members, users, init);
      assert ms[|ms| - 1] in ms;
    }
  }
}
