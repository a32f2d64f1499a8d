/** The subscriber registry `ConnectionManager` and the websocket endpoint
    that feeds it (Software/tss/tss_api.py). Connections are opaque
    handles; whether a send to one fails is an input. */
module Registry {
  import opened Json
  import opened Categories

  /** A websocket connection, compared by identity. */
  datatype Conn = Conn(id: nat)

  /** `{category.value: set() for category in TelemetryCategory}`. */
  function FreshRegistry(): (r: map<string, set<Conn>>)
    ensures r.Keys == CategoryKeys()
    ensures forall k :: k in r ==> r[k] == {}
  {
    map k | k in CategoryKeys() :: {}
  }

  lemma FreshRegistryShape()
    ensures |FreshRegistry()| == CategoryCount
    ensures forall c :: Key(c) in FreshRegistry() && FreshRegistry()[Key(c)] == {}
    ensures forall k :: k in FreshRegistry() ==> FromKey(k).Some?
  {
    CategoryKeysCount();
    assert FreshRegistry().Keys == CategoryKeys();
    forall c ensures Key(c) in CategoryKeys() {
      AllCategoriesComplete(c);
    }
    forall k | k in FreshRegistry() ensures FromKey(k).Some? {
      CategoryKeysExact(k);
    }
  }

  /** The registry after `connect(ws, key)`. */
  function Connected(reg: map<string, set<Conn>>, ws: Conn, key: string): map<string, set<Conn>>
  {
    if key in reg then reg[key := reg[key] + {ws}] else reg
  }

  /** The registry after `disconnect(ws, key)`. */
  function Disconnected(reg: map<string, set<Conn>>, ws: Conn, key: string): map<string, set<Conn>>
  {
    if key in reg then reg[key := reg[key] - {ws}] else reg
  }

  /** The registry after broadcasting on `key` when the sends to
      `failing` raise: those connections are dropped from that key. */
  function Pruned(reg: map<string, set<Conn>>, key: string, failing: set<Conn>): map<string, set<Conn>>
  {
    if key in reg then reg[key := reg[key] - failing] else reg
  }

  /** The connections a broadcast on `key` reaches. */
  function Recipients(reg: map<string, set<Conn>>, key: string, failing: set<Conn>): set<Conn>
  {
    if key in reg then reg[key] - failing else {}
  }

  /** connect adds to the named category only; an unknown key changes nothing. */
  lemma ConnectEffect(reg: map<string, set<Conn>>, ws: Conn, key: string)
    ensures Connected(reg, ws, key).Keys == reg.Keys
    ensures key in reg ==> Connected(reg, ws, key)[key] == reg[key] + {ws}
    ensures forall k :: k in reg && k != key ==> Connected(reg, ws, key)[k] == reg[k]
    ensures key !in reg ==> Connected(reg, ws, key) == reg
  {
  }

  /** disconnect removes from the named category only, and is a no-op
      for an unknown key or an absent connection. */
  lemma DisconnectEffect(reg: map<string, set<Conn>>, ws: Conn, key: string)
    ensures Disconnected(reg, ws, key).Keys == reg.Keys
    ensures key in reg ==> Disconnected(reg, ws, key)[key] == reg[key] - {ws}
    ensures forall k :: k in reg && k != key ==> Disconnected(reg, ws, key)[k] == reg[k]
    ensures (key !in reg || ws !in reg[key]) ==> Disconnected(reg, ws, key) == reg
  {
    if key in reg && ws !in reg[key] {
      assert reg[key] - {ws} == reg[key];
      assert reg[key := reg[key]] == reg;
    }
  }

  lemma DisconnectIdempotent(reg: map<string, set<Conn>>, ws: Conn, key: string)
    ensures Disconnected(Disconnected(reg, ws, key), ws, key) == Disconnected(reg, ws, key)
  {
    if key in reg {
      assert reg[key] - {ws} - {ws} == reg[key] - {ws};
    }
  }

  /** disconnect undoes a connect of a connection that was not subscribed. */
  lemma DisconnectUndoesConnect(reg: map<string, set<Conn>>, ws: Conn, key: string)
    requires key in reg ==> ws !in reg[key]
    ensures Disconnected(Connected(reg, ws, key), ws, key) == reg
  {
    if key in reg {
      assert reg[key] + {ws} - {ws} == reg[key];
    }
  }

  /** After a broadcast exactly the failed connections are gone from that
      category, the others remain, and other categories are untouched. */
  lemma BroadcastEffect(reg: map<string, set<Conn>>, key: string, failing: set<Conn>)
    ensures Pruned(reg, key, failing).Keys == reg.Keys
    ensures key in reg ==> forall ws :: ws in reg[key] ==>
              (ws in Pruned(reg, key, failing)[key] <==> ws !in failing)
    ensures key in reg ==> Pruned(reg, key, failing)[key] <= reg[key]
    ensures key in reg ==> Recipients(reg, key, failing) == Pruned(reg, key, failing)[key]
    ensures forall k :: k in reg && k != key ==> Pruned(reg, key, failing)[k] == reg[k]
  {
  }

  /** Broadcasting to a category nobody follows sends nothing and changes nothing. */
  lemma BroadcastEmpty(reg: map<string, set<Conn>>, key: string, failing: set<Conn>)
    requires key in reg ==> reg[key] == {}
    ensures Pruned(reg, key, failing) == reg
    ensures Recipients(reg, key, failing) == {}
  {
    if key in reg {
      assert reg[key] - failing == reg[key];
      assert reg[key := reg[key]] == reg;
    }
  }

  /** `list(s)`: the elements of s in some order, each once. */
  method ListOf(s: set<Conn>) returns (r: seq<Conn>)
    ensures forall x :: x in r <==> x in s
    ensures |r| == |s|
    ensures forall i, j :: 0 <= i < j < |r| ==> r[i] != r[j]
  {
    r := [];
    var rest := s;
    while rest != {}
      invariant rest <= s
      invariant forall x :: x in r <==> x in s && x !in rest
      invariant forall i, j :: 0 <= i < j < |r| ==> r[i] != r[j]
      invariant |r| + |rest| == |s|
      decreases rest
    {
      var x :| x in rest;
      r := r + [x];
      rest := rest - {x};
    }
  }

  /** One broadcast_category call: the category, the message sent and
      who received it. */
  datatype Delivery = Delivery(category: Category, message: Json, recipients: set<Conn>)

  class ConnectionManager {
    /** Subscribers per category key. */
    var activeConnections: map<string, set<Conn>>

    ghost predicate Valid()
      reads this
    {
      activeConnections.Keys == CategoryKeys()
    }

    constructor ()
      ensures Valid() && activeConnections == FreshRegistry()
    {
      activeConnections := FreshRegistry();
    }

    /** connect(ws, key), after the websocket has been accepted. */
    method Connect(ws: Conn, key: string)
      modifies this
      ensures activeConnections == Connected(old(activeConnections), ws, key)
      ensures old(Valid()) ==> Valid()
    {
      if key in activeConnections {
        activeConnections := activeConnections[key := activeConnections[key] + {ws}];
      }
    }

    /** disconnect(ws, key): `discard`, so never an error. */
    method Disconnect(ws: Conn, key: string)
      modifies this
      ensures activeConnections == Disconnected(old(activeConnections), ws, key)
      ensures old(Valid()) ==> Valid()
    {
      if key in activeConnections {
        activeConnections := activeConnections[key := activeConnections[key] - {ws}];
      }
    }

    /** broadcast_category(category, message): one send per connection of
        the snapshot taken at entry (`attempted`, in snapshot order); a
        failed send closes (best effort) and disconnects that connection
        and does not stop the others. `sent` records the message and the
        connections it reached. */
    method BroadcastCategory(category: Category, message: Json, failing: set<Conn>)
      returns (attempted: seq<Conn>, sent: Delivery)
      modifies this
      ensures activeConnections == Pruned(old(activeConnections), Key(category), failing)
      ensures sent == Delivery(category, message, Recipients(old(activeConnections), Key(category), failing))
      ensures Key(category) in old(activeConnections) ==>
                (forall ws :: ws in attempted <==> ws in old(activeConnections)[Key(category)])
      ensures Key(category) !in old(activeConnections) ==> attempted == []
      ensures forall i, j :: 0 <= i < j < |attempted| ==> attempted[i] != attempted[j]
      ensures old(Valid()) ==> Valid()
    {
      var key := Key(category);
      var delivered: set<Conn> := {};
      attempted := [];
      if key in activeConnections {
        var snapshot := ListOf(activeConnections[key]);
        assert (set x | x in snapshot) == activeConnections[key];
        attempted, delivered := SendEach(key, snapshot, failing);
        assert old(activeConnections)[key] - (failing * old(activeConnections)[key])
            == old(activeConnections)[key] - failing;
      }
      sent := Delivery(category, message, delivered);
    }

    /** The loop of broadcast_category over a snapshot of one key's set:
        each failed send disconnects that connection from the live set. */
    method SendEach(key: string, snapshot: seq<Conn>, failing: set<Conn>)
      returns (attempted: seq<Conn>, delivered: set<Conn>)
      requires key in activeConnections
      modifies this
      ensures attempted == snapshot
      ensures activeConnections ==
                old(activeConnections)[key := old(activeConnections)[key] - (failing * set x | x in snapshot)]
      ensures delivered == (set x | x in snapshot) - failing
    {
      attempted, delivered := [], {};
      ghost var before := activeConnections;
      ghost var seen: set<Conn> := {};
      assert before[key] - (failing * seen) == before[key];
      assert before[key := before[key]] == before;
      for i := 0 to |snapshot|
        invariant attempted == snapshot[..i]
        invariant seen == set x | x in attempted
        invariant activeConnections == before[key := before[key] - (failing * seen)]
        invariant delivered == seen - failing
      {
        var ws := snapshot[i];
        assert snapshot[..i + 1] == attempted + [ws];
        attempted := attempted + [ws];
        if ws in failing {
          // send_json raised: close() is attempted and its failure ignored
          assert before[key] - (failing * seen) - {ws} == before[key] - (failing * (seen + {ws}));
          Disconnect(ws, key);
        } else {
          assert failing * seen == failing * (seen + {ws});
          delivered := delivered + {ws};
        }
        seen := seen + {ws};
      }
      assert attempted == snapshot;
    }
  }

  /** How the endpoint answered a new websocket. */
  datatype EndpointOutcome =
    | Rejected(code: int, reason: string)
    | Subscribed(key: string)

  /** Close code for an unknown category (unsupported data). */
  const UnsupportedData: int := 1003

  /** websocket_endpoint up to the receive loop: the path segment is
      URL-decoded, an unknown category is closed with 1003, a known one
      is connected. The later WebSocketDisconnect is `Disconnect`. */
  method WebsocketEndpoint(manager: ConnectionManager, ws: Conn, pathSegment: string,
                           unquote: string -> string)
    returns (outcome: EndpointOutcome)
    requires manager.Valid()
    modifies manager
    ensures manager.Valid()
    ensures outcome.Rejected? <==> FromKey(unquote(pathSegment)).None?
    ensures outcome.Rejected? ==>
              outcome == Rejected(UnsupportedData, "Category: " + unquote(pathSegment) + " does not exist.") &&
              manager.activeConnections == old(manager.activeConnections)
    ensures outcome.Subscribed? ==>
              outcome.key == unquote(pathSegment) &&
              manager.activeConnections == Connected(old(manager.activeConnections), ws, outcome.key)
  {
    var category := unquote(pathSegment);
    CategoryKeysExact(category);
    if category !in manager.activeConnections {
      return Rejected(UnsupportedData, "Category: " + category + " does not exist.");
    }
    manager.Connect(ws, category);
    outcome := Subscribed(category);
  }
}
