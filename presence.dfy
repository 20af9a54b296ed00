/**
 * The online-user registry of the socket.io gateway (server/server.js).
 * `userSocketMap` maps a user id to the id of that user's latest socket; the
 * connection handler writes it, the disconnect handler deletes from it, and
 * each of them then emits the map's key set as `getOnlineUsers` to every
 * client. Node runs each handler to completion, so the handlers are a
 * sequential stream of events.
 */
module Presence {
  import opened Wrappers
  import opened Js

  type UserId = string
  type SocketId = string

  /** The property key that `userSocketMap[userId]` touches: a missing query
      parameter is `undefined`, which JavaScript turns into the key "undefined". */
  function Key(userId: Option<UserId>): UserId
  {
    match userId
    case None => "undefined"
    case Some(u) => u
  }

  /** `if (userId) userSocketMap[userId] = socket.id` */
  function AfterConnect(m: map<UserId, SocketId>, userId: Option<UserId>, sid: SocketId): (r: map<UserId, SocketId>)
    ensures Truthy(userId) ==> userId.value in r && r[userId.value] == sid
    ensures !Truthy(userId) ==> r == m
    ensures r.Keys == if Truthy(userId) then m.Keys + {userId.value} else m.Keys
    ensures forall k :: k in m && !(Truthy(userId) && k == userId.value) ==> r[k] == m[k]
  {
    if Truthy(userId) then m[userId.value := sid] else m
  }

  /** `delete userSocketMap[userId]`, whatever socket id is stored there. */
  function AfterDisconnect(m: map<UserId, SocketId>, userId: Option<UserId>): (r: map<UserId, SocketId>)
    ensures Key(userId) !in r
    ensures r.Keys == m.Keys - {Key(userId)}
    ensures forall k :: k in r ==> r[k] == m[k]
  {
    m - {Key(userId)}
  }

  /** One handler run. A disconnect carries the `userId` its connection was
      opened with (the closure's captured variable) and the id of the socket
      that closed; the handler uses only the former. */
  datatype Event =
    | Connected(userId: Option<UserId>, sid: SocketId)
    | Disconnected(userId: Option<UserId>, sid: SocketId)

  function Apply(m: map<UserId, SocketId>, e: Event): map<UserId, SocketId>
  {
    match e
    case Connected(u, s) => AfterConnect(m, u, s)
    case Disconnected(u, _) => AfterDisconnect(m, u)
  }

  /** The registry after a stream of events, starting from the empty object. */
  function History(evs: seq<Event>): map<UserId, SocketId>
    decreases |evs|
  {
    if evs == [] then map[] else Apply(History(evs[..|evs| - 1]), evs[|evs| - 1])
  }

  /** The event writes an entry for `k`. */
  predicate Registers(e: Event, k: UserId)
  {
    e.Connected? && Truthy(e.userId) && e.userId.value == k
  }

  /** The event deletes the entry for `k`. */
  predicate Removes(e: Event, k: UserId)
  {
    e.Disconnected? && Key(e.userId) == k
  }

  /** Reference definition of "online": some connection registered `k` and no
      disconnect for `k` came after it. */
  ghost predicate Online(evs: seq<Event>, k: UserId)
  {
    exists i :: 0 <= i < |evs| && Registers(evs[i], k) && forall j :: i < j < |evs| ==> !Removes(evs[j], k)
  }

  /** Event `i` is the last one that touched `k`, and it registered `k`. */
  ghost predicate LatestRegistration(evs: seq<Event>, k: UserId, i: int)
  {
    0 <= i < |evs| && Registers(evs[i], k) &&
    forall j :: i < j < |evs| ==> !Registers(evs[j], k) && !Removes(evs[j], k)
  }

  /** The registry holds exactly the users that are online by the reference
      definition. */
  lemma {:induction false} HistoryIsOnline(evs: seq<Event>, k: UserId)
    ensures k in History(evs) <==> Online(evs, k)
    decreases |evs|
  {
    if evs != [] {
      var n := |evs| - 1;
      var p, e := evs[..n], evs[n];
      assert forall j :: 0 <= j < n ==> p[j] == evs[j];
      HistoryIsOnline(p, k);
      if Registers(e, k) {
        assert k in History(evs);
        assert Registers(evs[n], k);
      } else if Removes(e, k) {
        assert k !in History(evs);
        assert Removes(evs[n], k);
      } else {
        assert k in History(evs) <==> k in History(p);
        if Online(p, k) {
          var i :| 0 <= i < |p| && Registers(p[i], k) && forall j :: i < j < |p| ==> !Removes(p[j], k);
          assert Registers(evs[i], k);
        }
        if Online(evs, k) {
          var i :| 0 <= i < |evs| && Registers(evs[i], k) && forall j :: i < j < |evs| ==> !Removes(evs[j], k);
          assert i < n;
          assert Registers(p[i], k);
          assert forall j :: i < j < |p| ==> !Removes(p[j], k);
        }
      }
    }
  }

  /** Last connection wins: an online user's entry holds the socket id of the
      latest connection that registered them. */
  lemma {:induction false} HistoryHandle(evs: seq<Event>, k: UserId)
    requires k in History(evs)
    ensures exists i :: LatestRegistration(evs, k, i) && History(evs)[k] == evs[i].sid
    decreases |evs|
  {
    var n := |evs| - 1;
    var p, e := evs[..n], evs[n];
    assert forall j :: 0 <= j < n ==> p[j] == evs[j];
    if Registers(e, k) {
      assert LatestRegistration(evs, k, n);
    } else {
      assert !Removes(e, k);
      assert k in History(p);
      HistoryHandle(p, k);
      var i :| LatestRegistration(p, k, i) && History(p)[k] == p[i].sid;
      assert LatestRegistration(evs, k, i);
    }
  }

  /** Connecting a user twice leaves one entry, holding the newer socket id. */
  lemma ReconnectOverwrites(m: map<UserId, SocketId>, u: UserId, s1: SocketId, s2: SocketId)
    requires u != ""
    ensures AfterConnect(AfterConnect(m, Some(u), s1), Some(u), s2) == AfterConnect(m, Some(u), s2)
    ensures AfterConnect(AfterConnect(m, Some(u), s1), Some(u), s2)[u] == s2
  {
  }

  /** Disconnecting a user that is not in the registry changes nothing. */
  lemma DisconnectAbsentIsNoOp(m: map<UserId, SocketId>, userId: Option<UserId>)
    requires Key(userId) !in m
    ensures AfterDisconnect(m, userId) == m
  {
  }

  /** Socket `s` has connected and has not closed since. */
  ghost predicate Live(evs: seq<Event>, s: SocketId)
  {
    exists i :: 0 <= i < |evs| && evs[i].Connected? && evs[i].sid == s &&
      forall j :: i < j < |evs| ==> !(evs[j].Disconnected? && evs[j].sid == s)
  }

  /** The closing handler of a superseded socket still deletes the user: after
      connect(u, s1), connect(u, s2) and the disconnect of s1, socket s2 is
      live but `u` is offline. */
  lemma StaleDisconnectDropsLiveSocket(u: UserId, s1: SocketId, s2: SocketId)
    requires u != "" && s1 != s2
    ensures History([Connected(Some(u), s1), Connected(Some(u), s2)])[u] == s2
    ensures Live([Connected(Some(u), s1), Connected(Some(u), s2), Disconnected(Some(u), s1)], s2)
    ensures u !in History([Connected(Some(u), s1), Connected(Some(u), s2), Disconnected(Some(u), s1)])
  {
    var evs := [Connected(Some(u), s1), Connected(Some(u), s2), Disconnected(Some(u), s1)];
    assert evs[1].Connected? && evs[1].sid == s2;
    assert forall j :: 1 < j < |evs| ==> !(evs[j].Disconnected? && evs[j].sid == s2);
  }

  /** The streams socket.io produces: socket ids are never reused, and each
      disconnect closes an earlier connection and carries that connection's
      `userId`. */
  ghost predicate WellFormed(evs: seq<Event>)
  {
    (forall i, j :: 0 <= i < j < |evs| && evs[i].Connected? && evs[j].Connected? ==> evs[i].sid != evs[j].sid) &&
    (forall j :: 0 <= j < |evs| && evs[j].Disconnected? ==>
       exists c :: 0 <= c < j && evs[c] == Connected(evs[j].userId, evs[j].sid))
  }

  /** On such streams every socket id the registry holds belongs to a live
      socket: the registry can lose a live socket but never keeps a closed one. */
  lemma {:induction false} StoredSocketsAreLive(evs: seq<Event>, k: UserId)
    requires WellFormed(evs) && k in History(evs)
    ensures Live(evs, History(evs)[k])
  {
    HistoryHandle(evs, k);
    var i :| LatestRegistration(evs, k, i) && History(evs)[k] == evs[i].sid;
    var s := evs[i].sid;
    forall j | i < j < |evs| ensures !(evs[j].Disconnected? && evs[j].sid == s) {
      if evs[j].Disconnected? {
        var c :| 0 <= c < j && evs[c] == Connected(evs[j].userId, evs[j].sid);
        var e := evs[j];
        assert !Removes(e, k);
        assert c != i ==> evs[c].sid != evs[i].sid;
      }
    }
  }

  /** A connection without a `userId` never registers, but its disconnect
      deletes the key "undefined", which a client that sent the literal
      string "undefined" may own. */
  lemma AnonymousDisconnectDropsUndefinedKey(s1: SocketId, s2: SocketId)
    ensures History([Connected(Some("undefined"), s1), Connected(None, s2)]).Keys == {"undefined"}
    ensures History([Connected(Some("undefined"), s1), Connected(None, s2), Disconnected(None, s2)]) == map[]
  {
    var evs := [Connected(Some("undefined"), s1), Connected(None, s2), Disconnected(None, s2)];
    assert Truthy(Some("undefined"));
    assert History([Connected(Some("undefined"), s1)]) == map["undefined" := s1];
    assert evs[..2] == [Connected(Some("undefined"), s1), Connected(None, s2)];
    assert evs[..2][..1] == [Connected(Some("undefined"), s1)];
    assert [Connected(Some("undefined"), s1)][..0] == [];
  }

  /** The process-wide `userSocketMap` together with the log of
      `getOnlineUsers` payloads it has emitted (`Object.keys` order carries no
      meaning, so each payload is a set). */
  class Registry {
    var sockets: map<UserId, SocketId>
    var broadcasts: seq<set<UserId>>
    ghost var events: seq<Event>

    /** The map is the replay of the handled events, and broadcast `i` is the
        key set right after event `i`. */
    ghost predicate Valid()
      reads this
    {
      sockets == History(events) &&
      |broadcasts| == |events| &&
      forall i :: 0 <= i < |events| ==> broadcasts[i] == History(events[..i + 1]).Keys
    }

    /** `export const userSocketMap = {}` */
    constructor ()
      ensures Valid()
      ensures sockets == map[] && broadcasts == [] && events == []
    {
      sockets := map[];
      broadcasts := [];
      events := [];
    }

    /** The `connection` handler. */
    method Connect(userId: Option<UserId>, sid: SocketId)
      requires Valid()
      modifies this
      ensures Valid()
      ensures events == old(events) + [Connected(userId, sid)]
      ensures sockets == AfterConnect(old(sockets), userId, sid)
      ensures broadcasts == old(broadcasts) + [sockets.Keys]
    {
      if Truthy(userId) {
        sockets := sockets[userId.value := sid];
      }
      broadcasts := broadcasts + [sockets.Keys];
      events := events + [Connected(userId, sid)];
      assert events[..|events| - 1] == old(events);
      assert events[..|events|] == events;
      forall i | 0 <= i < |old(events)| ensures broadcasts[i] == History(events[..i + 1]).Keys {
        assert events[..i + 1] == old(events)[..i + 1];
      }
    }

    /** The `disconnect` handler of socket `sid`, opened with `userId`. */
    method Disconnect(userId: Option<UserId>, sid: SocketId)
      requires Valid()
      modifies this
      ensures Valid()
      ensures events == old(events) + [Disconnected(userId, sid)]
      ensures sockets == AfterDisconnect(old(sockets), userId)
      ensures broadcasts == old(broadcasts) + [sockets.Keys]
    {
      sockets := sockets - {Key(userId)};
      broadcasts := broadcasts + [sockets.Keys];
      events := events + [Disconnected(userId, sid)];
      assert events[..|events| - 1] == old(events);
      assert events[..|events|] == events;
      forall i | 0 <= i < |old(events)| ensures broadcasts[i] == History(events[..i + 1]).Keys {
        assert events[..i + 1] == old(events)[..i + 1];
      }
    }
  }

  /** Every payload the registry has emitted is exactly the set of users that
      were online, by the reference definition, at that point of the stream. */
  lemma BroadcastsAreOnlineSets(r: Registry, i: nat, k: UserId)
    requires r.Valid() && i < |r.broadcasts|
    ensures k in r.broadcasts[i] <==> Online(r.events[..i + 1], k)
  {
    HistoryIsOnline(r.events[..i + 1], k);
  }

  /** Two users come online, the first leaves: every client sees
      {u1}, then {u1, u2}, then {u2}. */
  method ThreeEventScenario()
  {
    var r := new Registry();
    r.Connect(Some("u1"), "a");
    assert r.sockets == map["u1" := "a"];
    r.Connect(Some("u2"), "b");
    assert r.sockets == map["u1" := "a", "u2" := "b"];
    r.Disconnect(Some("u1"), "a");
    assert r.sockets == map["u2" := "b"];
    assert r.broadcasts[0] == {"u1"};
    assert r.broadcasts[1] == {"u1", "u2"};
    assert r.broadcasts[2] == {"u2"};
    assert |r.broadcasts| == 3;
  }

  /** A connection without `userId` is accepted, broadcast to, and never listed. */
  method AnonymousScenario()
  {
    var r := new Registry();
    r.Connect(None, "a");
    assert r.sockets == map[];
    r.Connect(Some("u1"), "b");
    assert r.sockets == map["u1" := "b"];
    assert r.broadcasts[0] == {};
    assert r.broadcasts[1] == {"u1"};
    assert |r.broadcasts| == 2;
  }
}
