/** The room registry of the server (server/index.js): the map from room code
    to room, and the connection handlers that change it: create-room, join-room,
    start-game, cards-arranged, the disconnect clean-up and the periodic expiry
    sweep. The clock and the random draws are parameters; what the handlers
    send comes back as a sequence of `Outbound` values. */
module Registry {
  import opened Common
  import opened ServerGame
  import opened Events
  import RoomCodes

  /** A player in a room: the socket id and the chosen name. */
  datatype Participant = Participant(id: string, name: string)

  /** One room. The game state is an object shared with the handlers that
      update it; start-game replaces the reference. Times are milliseconds. */
  datatype Room = Room(
    host: Participant,
    guest: Option<Participant>,
    game: GameState,
    createdAt: int,
    lastActivity: int)

  /** How many fresh codes create-room tries before it gives up. */
  const MaxAttempts := 5
  const TwoHours := 2 * 60 * 60 * 1000
  const ThirtyMinutes := 30 * 60 * 1000

  /** The role the server gives a socket in a room: host exactly when it is the
      host's socket, guest otherwise, even for a socket that never joined. */
  function RoleOf(room: Room, socketId: string): (r: Role)
    ensures r == Host <==> room.host.id == socketId
  {
    if room.host.id == socketId then Host else Guest
  }

  /** The first of the five candidate codes, from the k-th on, that is not
      taken, if any. */
  function FreeCode(taken: set<string>, draws: seq<seq<int>>, k: nat): Option<string>
    requires k <= MaxAttempts < |draws|
    requires forall j :: 0 <= j < |draws| ==> RoomCodes.ValidDraw(draws[j])
    decreases MaxAttempts - k
  {
    if k == MaxAttempts then None
    else
      var code := RoomCodes.CodeOf(draws[k]);
      if code !in taken then Some(code) else FreeCode(taken, draws, k + 1)
  }

  /** Creation fails exactly when all five candidates are taken; a code it
      picks is free and well-formed. */
  lemma {:induction false} FreeCodeFree(taken: set<string>, draws: seq<seq<int>>, k: nat)
    requires k <= MaxAttempts < |draws|
    requires forall j :: 0 <= j < |draws| ==> RoomCodes.ValidDraw(draws[j])
    ensures FreeCode(taken, draws, k).None? <==> forall j :: k <= j < MaxAttempts ==> RoomCodes.CodeOf(draws[j]) in taken
    ensures FreeCode(taken, draws, k).Some? ==>
      FreeCode(taken, draws, k).value !in taken && RoomCodes.WellFormed(FreeCode(taken, draws, k).value)
    decreases MaxAttempts - k
  {
    if k < MaxAttempts {
      RoomCodes.CodeOfWellFormed(draws[k]);
      FreeCodeFree(taken, draws, k + 1);
    }
  }

  /** The code picked is the first free candidate: when candidate j is free and
      all before it are taken, candidate j is the one. */
  lemma {:induction false} FreeCodeFirst(taken: set<string>, draws: seq<seq<int>>, k: nat, j: nat)
    requires k <= j < MaxAttempts < |draws|
    requires forall i :: 0 <= i < |draws| ==> RoomCodes.ValidDraw(draws[i])
    requires RoomCodes.CodeOf(draws[j]) !in taken
    requires forall i :: k <= i < j ==> RoomCodes.CodeOf(draws[i]) in taken
    ensures FreeCode(taken, draws, k) == Some(RoomCodes.CodeOf(draws[j]))
    decreases j - k
  {
    if k < j {
      FreeCodeFirst(taken, draws, k + 1, j);
    }
  }

  /** `validateRoomState`: the refusal a join meets, if any. */
  function JoinRefusal(rooms: map<string, Room>, code: string, playerName: string): (e: Option<string>)
    ensures e == Some("Room not found") <==> code !in rooms
    ensures e == Some("Room is full") <==> code in rooms && rooms[code].guest.Some?
    ensures e == Some("Name already taken in this room") <==>
      code in rooms && rooms[code].guest.None? && Lower(rooms[code].host.name) == Lower(playerName)
    ensures e.None? <==>
      code in rooms && rooms[code].guest.None? && Lower(rooms[code].host.name) != Lower(playerName)
  {
    if code !in rooms then Some("Room not found")
    else if rooms[code].guest.Some? then Some("Room is full")
    else if Lower(rooms[code].host.name) == Lower(playerName) then Some("Name already taken in this room")
    else None
  }

  /** A room the sweep removes: created more than two hours ago, or idle for
      more than thirty minutes. */
  predicate Stale(room: Room, now: int)
  {
    now - room.createdAt > TwoHours || now - room.lastActivity > ThirtyMinutes
  }

  /** The rooms a sweep at time `now` keeps. */
  function Survivors(rooms: map<string, Room>, now: int): (r: map<string, Room>)
    ensures forall c :: c in r <==> c in rooms && !Stale(rooms[c], now)
    ensures forall c :: c in r ==> r[c] == rooms[c]
  {
    map c | c in rooms && !Stale(rooms[c], now) :: rooms[c]
  }

  /** What the sweep sends for one room it removes: room-expired to the host and,
      when there is one, to the guest. */
  function ExpiryNotice(room: Room): seq<Outbound>
  {
    [Emit(ToSocket(room.host.id), RoomExpired)]
      + (if room.guest.Some? then [Emit(ToSocket(room.guest.value.id), RoomExpired)] else [])
  }

  /** One visit of the sweep: a stale room is deleted and its players are to
      be told; anything else is left alone. */
  function ExpireStep(rooms: map<string, Room>, code: string, now: int): (map<string, Room>, seq<Outbound>)
  {
    if code in rooms && Stale(rooms[code], now) then (rooms - {code}, ExpiryNotice(rooms[code]))
    else (rooms, [])
  }

  /** The table and everything sent once the sweep has visited the first `n`
      codes of `order`. */
  function SweepSteps(rooms: map<string, Room>, order: seq<string>, n: nat, now: int): (map<string, Room>, seq<Outbound>)
    requires n <= |order|
  {
    if n == 0 then (rooms, [])
    else
      var before := SweepSteps(rooms, order, n - 1, now);
      var step := ExpireStep(before.0, order[n - 1], now);
      (step.0, before.1 + step.1)
  }

  /** The codes in `order` are pairwise different. */
  predicate Distinct(order: seq<string>)
  {
    forall i, j :: 0 <= i < j < |order| ==> order[i] != order[j]
  }

  /** The sweep only deletes: what is left is unchanged; a visited room is left
      exactly when it is not stale; an unvisited room is still there. */
  lemma {:induction false} SweepStepsRooms(rooms: map<string, Room>, order: seq<string>, n: nat, now: int)
    requires n <= |order| && Distinct(order)
    ensures var left := SweepSteps(rooms, order, n, now).0;
      && (forall c :: c in left ==> c in rooms && left[c] == rooms[c])
      && (forall k :: 0 <= k < n && order[k] in rooms ==> (order[k] in left <==> !Stale(rooms[order[k]], now)))
      && (forall k :: n <= k < |order| && order[k] in rooms ==> order[k] in left)
  {
    if n > 0 {
      SweepStepsRooms(rooms, order, n - 1, now);
    }
  }

  /** A sweep over every code of the table, each once, keeps exactly the rooms
      that are not stale. */
  lemma SweepKeepsLiveRooms(rooms: map<string, Room>, order: seq<string>, now: int)
    requires (forall c :: c in rooms <==> c in order) && Distinct(order)
    ensures SweepSteps(rooms, order, |order|, now).0 == Survivors(rooms, now)
  {
    var left := SweepSteps(rooms, order, |order|, now).0;
    SweepStepsRooms(rooms, order, |order|, now);
    forall c | c in rooms ensures c in left <==> !Stale(rooms[c], now) {
      var k :| 0 <= k < |order| && order[k] == c;
    }
  }

  /** The sweep tells room-expired, and nothing else, to the host and the guest
      of every stale room it visits, at most two notices per room, and sends
      nothing when no visited room is stale. */
  lemma {:induction false} SweepStepsNotices(rooms: map<string, Room>, order: seq<string>, n: nat, now: int)
    requires n <= |order| && Distinct(order)
    requires forall i :: 0 <= i < |order| ==> order[i] in rooms
    ensures var r := SweepSteps(rooms, order, n, now).1;
      && |r| <= 2 * n
      && (forall k :: 0 <= k < |r| ==> r[k].payload == RoomExpired)
      && (forall i :: 0 <= i < n && Stale(rooms[order[i]], now) ==>
            Emit(ToSocket(rooms[order[i]].host.id), RoomExpired) in r)
      && (forall i :: 0 <= i < n && Stale(rooms[order[i]], now) && rooms[order[i]].guest.Some? ==>
            Emit(ToSocket(rooms[order[i]].guest.value.id), RoomExpired) in r)
      && ((forall i :: 0 <= i < n ==> !Stale(rooms[order[i]], now)) ==> r == [])
  {
    if n > 0 {
      SweepStepsNotices(rooms, order, n - 1, now);
      SweepStepsRooms(rooms, order, n - 1, now);
      var before := SweepSteps(rooms, order, n - 1, now);
      var code := order[n - 1];
      var r := SweepSteps(rooms, order, n, now).1;
      assert code in before.0 && before.0[code] == rooms[code];
      var last := rooms[code];
      if Stale(last, now) {
        assert r == before.1 + ExpiryNotice(last);
        assert ExpiryNotice(last)[0] == Emit(ToSocket(last.host.id), RoomExpired);
        assert last.guest.Some? ==> ExpiryNotice(last)[1] == Emit(ToSocket(last.guest.value.id), RoomExpired);
      } else {
        assert r == before.1;
      }
    }
  }

  /** A later sweep keeps no room an earlier one would have removed. */
  lemma {:induction false} SweepMonotone(rooms: map<string, Room>, earlier: int, later: int)
    requires earlier <= later
    ensures Survivors(rooms, later).Keys <= Survivors(rooms, earlier).Keys
    ensures Survivors(Survivors(rooms, earlier), later) == Survivors(rooms, later)
  {
    var a := Survivors(Survivors(rooms, earlier), later);
    var b := Survivors(rooms, later);
    assert forall c :: c in b ==> c in Survivors(rooms, earlier);
    assert a.Keys == b.Keys;
  }

  /** The room table, `rooms` in the server. */
  class Rooms {
    var rooms: map<string, Room>

    /** No two rooms share a game state object. */
    predicate Valid()
      reads this
    {
      forall c, d :: c in rooms && d in rooms && c != d ==> rooms[c].game != rooms[d].game
    }

    constructor ()
      ensures rooms == map[] && Valid()
    {
      rooms := map[];
    }

    /** The game objects a handler for `code` may update. */
    function GameOf(code: string): set<GameState>
      reads this
    {
      if code in rooms then {rooms[code].game} else {}
    }

    /** `create-room`: a blank name is refused; otherwise up to five random codes
        are drawn until one is free and the new room is stored under it, with the
        caller as host and a fresh game; five taken codes in a row fail the
        creation. `joined` is the code the connection now belongs to. */
    method CreateRoom(socketId: string, playerName: string, draws: seq<seq<int>>, now: int)
      returns (events: seq<Outbound>, joined: Option<string>)
      requires Valid()
      requires MaxAttempts < |draws| && forall j :: 0 <= j < |draws| ==> RoomCodes.ValidDraw(draws[j])
      modifies this
      ensures Valid()
      ensures IsBlank(playerName) ==>
        rooms == old(rooms) && joined == None && events == [Emit(ToSocket(socketId), Error("Invalid player name"))]
      ensures !IsBlank(playerName) && FreeCode(old(rooms).Keys, draws, 0).None? ==>
        rooms == old(rooms) && joined == None && events == [Emit(ToSocket(socketId), Error("Failed to create room"))]
      ensures !IsBlank(playerName) && FreeCode(old(rooms).Keys, draws, 0).Some? ==>
        var code := FreeCode(old(rooms).Keys, draws, 0).value;
        && code !in old(rooms) && code in rooms && joined == Some(code)
        && rooms == old(rooms)[code := rooms[code]]
        && rooms[code].host == Participant(socketId, playerName) && rooms[code].guest == None
        && fresh(rooms[code].game) && rooms[code].game.Value() == InitialGame()
        && rooms[code].createdAt == now && rooms[code].lastActivity == now
        && events == [Emit(ToSocket(socketId), RoomCreated(code, true, playerName))]
    {
      if IsBlank(playerName) {
        return [Emit(ToSocket(socketId), Error("Invalid player name"))], None;
      }
      var code := "";
      var attempts := 0;
      while true
        invariant 0 <= attempts <= MaxAttempts
        invariant FreeCode(rooms.Keys, draws, attempts) == FreeCode(rooms.Keys, draws, 0)
        invariant rooms == old(rooms)
        decreases MaxAttempts - attempts
      {
        code := RoomCodes.GenerateRoomCode(draws[attempts]);
        attempts := attempts + 1;
        if attempts > MaxAttempts {
          return [Emit(ToSocket(socketId), Error("Failed to create room"))], None;
        }
        if code !in rooms {
          break;
        }
      }
      var game := new GameState();
      rooms := rooms[code := Room(Participant(socketId, playerName), None, game, now, now)];
      events := [Emit(ToSocket(socketId), RoomCreated(code, true, playerName))];
      joined := Some(code);
    }

    /** `join-room`: the code is upper-cased; the join is refused when the name or
        the code is blank, the room does not exist, it already has a guest, or
        the name equals the host's up to case. Otherwise the caller becomes the
        guest and the host is told. */
    method JoinRoom(socketId: string, roomCode: string, playerName: string, now: int)
      returns (events: seq<Outbound>, joined: Option<string>)
      requires Valid()
      modifies this
      ensures Valid()
      ensures IsBlank(playerName) || IsBlank(roomCode) ==>
        rooms == old(rooms) && joined == None
        && events == [Emit(ToSocket(socketId), Error("Invalid player name or room code"))]
      ensures !IsBlank(playerName) && !IsBlank(roomCode) && JoinRefusal(old(rooms), Upper(roomCode), playerName).Some? ==>
        rooms == old(rooms) && joined == None
        && events == [Emit(ToSocket(socketId), Error(JoinRefusal(old(rooms), Upper(roomCode), playerName).value))]
      ensures !IsBlank(playerName) && !IsBlank(roomCode) && JoinRefusal(old(rooms), Upper(roomCode), playerName).None? ==>
        var code := Upper(roomCode);
        var room := old(rooms)[code];
        && joined == Some(code)
        && rooms == old(rooms)[code := room.(guest := Some(Participant(socketId, playerName)), lastActivity := now)]
        && events == [Emit(ToSocket(socketId), RoomJoined(code, false, room.host.name, playerName)),
                      Emit(ToSocket(room.host.id), PlayerJoined(playerName, false))]
    {
      if IsBlank(playerName) || IsBlank(roomCode) {
        return [Emit(ToSocket(socketId), Error("Invalid player name or room code"))], None;
      }
      var code := Upper(roomCode);
      if code !in rooms {
        return [Emit(ToSocket(socketId), Error("Room not found"))], None;
      }
      if rooms[code].guest != None {
        return [Emit(ToSocket(socketId), Error("Room is full"))], None;
      }
      if Lower(rooms[code].host.name) == Lower(playerName) {
        return [Emit(ToSocket(socketId), Error("Name already taken in this room"))], None;
      }
      var room := rooms[code];
      room := room.(guest := Some(Participant(socketId, playerName)));
      room := room.(lastActivity := now);
      rooms := rooms[code := room];
      joined := Some(code);
      events := [Emit(ToSocket(socketId), RoomJoined(code, false, room.host.name, playerName)),
                 Emit(ToSocket(room.host.id), PlayerJoined(playerName, false))];
    }

    /** `cleanupDisconnectedPlayer`: a departing host closes the room and the
        guest is told; a departing guest frees the seat and the host is told; any
        other socket changes nothing. */
    method Disconnect(socketId: string, currentRoom: Option<string>) returns (events: seq<Outbound>)
      requires Valid()
      modifies this
      ensures Valid()
      ensures currentRoom.None? || currentRoom.value !in old(rooms) ==> rooms == old(rooms) && events == []
      ensures currentRoom.Some? && currentRoom.value in old(rooms) ==>
        var code := currentRoom.value;
        var room := old(rooms)[code];
        && (room.host.id == socketId ==>
              && rooms == old(rooms) - {code}
              && events == (if room.guest.Some? then [Emit(ToSocket(room.guest.value.id), HostDisconnected)] else []))
        && (room.host.id != socketId && room.guest.Some? && room.guest.value.id == socketId ==>
              && rooms == old(rooms)[code := room.(guest := None)]
              && events == [Emit(ToSocket(room.host.id), GuestDisconnected)])
        && (room.host.id != socketId && (room.guest.None? || room.guest.value.id != socketId) ==>
              rooms == old(rooms) && events == [])
    {
      events := [];
      if currentRoom.None? || currentRoom.value !in rooms {
        return;
      }
      var code := currentRoom.value;
      var room := rooms[code];
      if room.host.id == socketId {
        if room.guest.Some? {
          events := [Emit(ToSocket(room.guest.value.id), HostDisconnected)];
        }
        rooms := rooms - {code};
      } else if room.guest.Some? && room.guest.value.id == socketId {
        room := room.(guest := None);
        rooms := rooms[code := room];
        events := [Emit(ToSocket(room.host.id), GuestDisconnected)];
      }
    }

    /** `start-game`: only the host may start; the room gets a new game state in
        its initial form and everybody in the room receives it. The last-activity
        time is not updated. */
    method StartGame(socketId: string, code: string) returns (events: seq<Outbound>)
      requires Valid()
      modifies this
      ensures Valid()
      ensures code !in old(rooms) || old(rooms)[code].host.id != socketId ==> rooms == old(rooms) && events == []
      ensures code in old(rooms) && old(rooms)[code].host.id == socketId ==>
        && code in rooms && fresh(rooms[code].game) && rooms[code].game.Value() == InitialGame()
        && rooms == old(rooms)[code := old(rooms)[code].(game := rooms[code].game)]
        && events == [Emit(ToRoom(code), GameStart(InitialGame()))]
    {
      if code !in rooms || rooms[code].host.id != socketId {
        return [];
      }
      var room := rooms[code];
      var game := new GameState();
      room := room.(game := game);
      events := [Emit(ToRoom(code), GameStart(game.Value()))];
      rooms := rooms[code := room];
    }

    /** `cards-arranged`: the host's or the guest's flag is set and the other
        player is told; once both flags are set everybody in the room hears so.
        A socket that is neither host nor guest is ignored. */
    method CardsArranged(socketId: string, code: string, arranged: bool) returns (events: seq<Outbound>)
      requires Valid()
      modifies GameOf(code)
      ensures forall c :: c in rooms && c != code ==> rooms[c].game.Value() == old(rooms[c].game.Value())
      ensures code !in rooms || (rooms[code].host.id != socketId &&
                                 (rooms[code].guest.None? || rooms[code].guest.value.id != socketId)) ==>
        events == [] && forall g :: g in GameOf(code) ==> g.Value() == old(g.Value())
      ensures code in rooms && rooms[code].host.id == socketId ==>
        var room := rooms[code];
        var g := room.game.Value();
        && g == SetCardsArranged(old(room.game.Value()), Host, arranged)
        && events == (if room.guest.Some? then [Emit(ToSocket(room.guest.value.id), CardsArrangedNotice(arranged))] else [])
                      + (if g.host.cardsArranged && g.guest.cardsArranged then [Emit(ToRoom(code), BothPlayersArranged)] else [])
      ensures code in rooms && rooms[code].host.id != socketId && rooms[code].guest.Some? && rooms[code].guest.value.id == socketId ==>
        var room := rooms[code];
        var g := room.game.Value();
        && g == SetCardsArranged(old(room.game.Value()), Guest, arranged)
        && events == [Emit(ToSocket(room.host.id), CardsArrangedNotice(arranged))]
                      + (if g.host.cardsArranged && g.guest.cardsArranged then [Emit(ToRoom(code), BothPlayersArranged)] else [])
    {
      events := [];
      if code !in rooms {
        return;
      }
      var room := rooms[code];
      var isHost := room.host.id == socketId;
      var isGuest := room.guest.Some? && room.guest.value.id == socketId;
      if !isHost && !isGuest {
        return;
      }
      if isHost {
        room.game.SetCardsArrangedFor(Host, arranged);
        if room.guest.Some? {
          events := [Emit(ToSocket(room.guest.value.id), CardsArrangedNotice(arranged))];
        }
      } else {
        room.game.SetCardsArrangedFor(Guest, arranged);
        events := [Emit(ToSocket(room.host.id), CardsArrangedNotice(arranged))];
      }
      if room.game.host.cardsArranged && room.game.guest.cardsArranged {
        events := events + [Emit(ToRoom(code), BothPlayersArranged)];
      }
    }

    /** One visit of the sweep. */
    method ExpireIfStale(code: string, now: int) returns (notices: seq<Outbound>)
      requires Valid()
      modifies this
      ensures Valid()
      ensures (rooms, notices) == ExpireStep(old(rooms), code, now)
    {
      notices := [];
      if code in rooms {
        var room := rooms[code];
        if Stale(room, now) {
          notices := ExpiryNotice(room);
          rooms := rooms - {code};
        }
      }
    }

    /** The body of the periodic sweep: visits the rooms in the table's own order
        (`order`, each code once) and deletes every stale room after telling its
        players. */
    method Sweep(now: int, order: seq<string>) returns (events: seq<Outbound>)
      requires Valid()
      requires (forall c :: c in rooms <==> c in order) && Distinct(order)
      modifies this
      ensures Valid()
      ensures (rooms, events) == SweepSteps(old(rooms), order, |order|, now)
      ensures rooms == Survivors(old(rooms), now)
    {
      events := [];
      for i := 0 to |order|
        invariant Valid()
        invariant (rooms, events) == SweepSteps(old(rooms), order, i, now)
      {
        var notices := ExpireIfStale(order[i], now);
        events := events + notices;
      }
      SweepKeepsLiveRooms(old(rooms), order, now);
    }
  }
}
