/** The instance lifecycle of the Node server: the in-memory registry
    `activeClients` (instance id to session entry), the durable list of
    instance records kept in `data/instances.json`, and the handlers that
    change them: creating an instance, registering its session client, the
    QR lookup, and the four session events `qr`, `authenticated`, `ready` and
    `disconnected`. */
module Instances {
  import opened Wrappers

  const WebhookPrefix := "https://www.koddahub.com.br/webhook/whatsapp/"
  const SessionsDir := "./sessions/"

  datatype Status = Initializing | WaitingQr | Authenticated | Connected | Disconnected

  /** The status strings the server stores and reports. */
  function StatusName(s: Status): (name: string)
    ensures name != ""
  {
    match s
    case Initializing => "initializing"
    case WaitingQr => "waiting_qr"
    case Authenticated => "authenticated"
    case Connected => "connected"
    case Disconnected => "disconnected"
  }

  /** A record of the durable store. `connectedAt` is absent until the first `ready`. */
  datatype InstanceRecord = InstanceRecord(
    id: string, name: string, number: string, status: Status,
    createdAt: string, connectedAt: Option<string>, webhookUrl: string)

  /** The session client: an opaque handle, known by the client id and the
      session directory it was created with. */
  datatype Handle = Handle(clientId: string, dataPath: string)

  function SessionHandle(id: string): Handle
  {
    Handle(id, SessionsDir + id)
  }

  /** A registry entry `{client, status, qr}`; `client` and `qr` are absent
      in an entry that was spread from no entry at all. */
  datatype SessionEntry = SessionEntry(client: Option<Handle>, status: Status, qr: Option<string>)

  /** The session events the server listens to; a `qr` event carries the
      rendered image, a `ready` event the time it was handled. */
  datatype SessionEvent = QrEvent(image: string) | AuthenticatedEvent | ReadyEvent(at: string) | DisconnectedEvent

  function WebhookUrl(id: string): string
  {
    WebhookPrefix + id
  }

  /** The webhook URL names its instance: the id can be read back after the prefix. */
  lemma WebhookUrlNamesInstance(id: string, other: string)
    ensures WebhookUrl(id)[..|WebhookPrefix|] == WebhookPrefix
    ensures WebhookUrl(id)[|WebhookPrefix|..] == id
    ensures WebhookUrl(id) == WebhookUrl(other) ==> id == other
  {
  }

  /** JavaScript truthiness of a request field: present and not empty. */
  predicate Truthy(field: Option<string>)
  {
    field.Some? && field.value != ""
  }

  /** The record `POST /api/instances` appends. */
  function NewRecord(id: string, name: string, number: string, createdAt: string): (r: InstanceRecord)
    ensures r.id == id && r.name == name && r.number == number && r.createdAt == createdAt
    ensures RecordValid(r) && r.status == Initializing
  {
    InstanceRecord(id, name, number, Initializing, createdAt, None, WebhookUrl(id))
  }

  /** The registry after `startWhatsAppClient` stores its fresh client: the
      entry of `id` holds the client made for it, initializing, without a QR,
      whatever it held before, and no other entry changes. */
  function Registered(clients: map<string, SessionEntry>, id: string): (after: map<string, SessionEntry>)
    ensures after.Keys == clients.Keys + {id}
    ensures forall x :: x in clients && x != id ==> after[x] == clients[x]
    ensures after[id].client == Some(SessionHandle(id)) && after[id].status == Initializing
    ensures after[id].qr == None && EntryValid(id, after[id])
  {
    clients[id := SessionEntry(Some(SessionHandle(id)), Initializing, None)]
  }

  /** `{...activeClients.get(id)}`: the current entry, or, when there is none,
      one with neither client nor QR (its status is always overwritten). */
  function Prior(clients: map<string, SessionEntry>, id: string): SessionEntry
  {
    if id in clients then clients[id] else SessionEntry(None, Initializing, None)
  }

  /** What each event handler writes over the spread entry: the client is
      always kept; `qr` sets the image, `authenticated` and `ready` clear it and
      `disconnected` leaves it; each event sets its own status. */
  function Applied(e: SessionEntry, ev: SessionEvent): (r: SessionEntry)
    ensures r.client == e.client
    ensures ev.QrEvent? ==> r.status == WaitingQr && r.qr == Some(ev.image)
    ensures ev.AuthenticatedEvent? ==> r.status == Authenticated && r.qr == None
    ensures ev.ReadyEvent? ==> r.status == Connected && r.qr == None
    ensures ev.DisconnectedEvent? ==> r.status == Disconnected && r.qr == e.qr
  {
    match ev
    case QrEvent(image) => e.(qr := Some(image), status := WaitingQr)
    case AuthenticatedEvent => e.(status := Authenticated, qr := None)
    case ReadyEvent(_) => e.(status := Connected, qr := None)
    case DisconnectedEvent => e.(status := Disconnected)
  }

  /** The registry after an event for `id`: only the entry of `id` changes,
      and its client handle is kept. */
  function AfterEvent(clients: map<string, SessionEntry>, id: string, ev: SessionEvent): (after: map<string, SessionEntry>)
    ensures after.Keys == clients.Keys + {id}
    ensures forall x :: x in clients && x != id ==> after[x] == clients[x]
    ensures after[id].client == if id in clients then clients[id].client else None
  {
    clients[id := Applied(Prior(clients, id), ev)]
  }

  /** `data.instances.findIndex(i => i.id === id)`. */
  function FindIndex(rs: seq<InstanceRecord>, id: string): (i: int)
    ensures -1 <= i < |rs|
    ensures 0 <= i ==> rs[i].id == id
    ensures forall j :: 0 <= j < |rs| && (i == -1 || j < i) ==> rs[j].id != id
  {
    if |rs| == 0 then -1
    else if rs[0].id == id then 0
    else
      var k := FindIndex(rs[1..], id);
      if k == -1 then -1 else k + 1
  }

  /** The events whose handlers rewrite the store. */
  predicate Persists(ev: SessionEvent)
  {
    ev.ReadyEvent? || ev.DisconnectedEvent?
  }

  /** The fields the `ready` and `disconnected` handlers assign on the found record. */
  function Stamped(r: InstanceRecord, ev: SessionEvent): (s: InstanceRecord)
    ensures s.(status := r.status, connectedAt := r.connectedAt) == r
    ensures ev.ReadyEvent? ==> s.status == Connected && s.connectedAt == Some(ev.at)
    ensures ev.DisconnectedEvent? ==> s.status == Disconnected && s.connectedAt == r.connectedAt
    ensures !Persists(ev) ==> s == r
  {
    match ev
    case ReadyEvent(at) => r.(status := Connected, connectedAt := Some(at))
    case DisconnectedEvent => r.(status := Disconnected)
    case _ => r
  }

  /** Whether the handler for `ev` calls `saveInstances`. */
  predicate Saves(rs: seq<InstanceRecord>, id: string, ev: SessionEvent)
  {
    Persists(ev) && FindIndex(rs, id) != -1
  }

  /** The store after an event for `id`: at most the first record with that id
      changes, and every id stays where it was. */
  function StoreAfter(rs: seq<InstanceRecord>, id: string, ev: SessionEvent): (after: seq<InstanceRecord>)
    ensures |after| == |rs|
    ensures forall j :: 0 <= j < |rs| ==> after[j].id == rs[j].id
    ensures forall j :: 0 <= j < |rs| && j != FindIndex(rs, id) ==> after[j] == rs[j]
    ensures !Saves(rs, id, ev) ==> after == rs
  {
    var i := FindIndex(rs, id);
    if Persists(ev) && i != -1 then rs[i := Stamped(rs[i], ev)] else rs
  }

  /** No two records share an id. */
  predicate UniqueIds(rs: seq<InstanceRecord>)
  {
    forall i, j :: 0 <= i < j < |rs| ==> rs[i].id != rs[j].id
  }

  /** What every record written by this server satisfies: its webhook URL is
      derived from its id, only initializing, connected and disconnected are
      ever stored, and `connectedAt` is set once it has been connected. */
  predicate RecordValid(r: InstanceRecord)
  {
    && r.webhookUrl == WebhookUrl(r.id)
    && r.status in {Initializing, Connected, Disconnected}
    && (r.status == Initializing ==> r.connectedAt == None)
    && (r.status == Connected ==> r.connectedAt.Some?)
  }

  predicate StoreValid(rs: seq<InstanceRecord>)
  {
    UniqueIds(rs) && forall j :: 0 <= j < |rs| ==> RecordValid(rs[j])
  }

  /** What every registry entry satisfies: a QR is held only while waiting
      for a scan or after a disconnection that followed one, and a client,
      when present, is the one created for that id. */
  predicate EntryValid(id: string, e: SessionEntry)
  {
    && (e.qr.Some? ==> e.status == WaitingQr || e.status == Disconnected)
    && (e.client.Some? ==> e.client.value == SessionHandle(id))
  }

  predicate RegistryValid(clients: map<string, SessionEntry>)
  {
    forall id :: id in clients ==> EntryValid(id, clients[id])
  }

  /** Appending a record with a fresh id leaves earlier lookups alone and
      makes the new id found at the end. */
  lemma FindIndexAppend(rs: seq<InstanceRecord>, r: InstanceRecord, id: string)
    requires forall j :: 0 <= j < |rs| ==> rs[j].id != r.id
    ensures FindIndex(rs + [r], r.id) == |rs|
    ensures id != r.id ==> FindIndex(rs + [r], id) == FindIndex(rs, id)
  {
    var rs' := rs + [r];
    assert rs'[|rs|] == r;
    if id != r.id {
      var i, i' := FindIndex(rs, id), FindIndex(rs', id);
      assert forall j :: 0 <= j < |rs| ==> rs'[j] == rs[j];
      if i' == -1 {
        assert i == -1;
      } else {
        assert i' < |rs|;
      }
    }
  }

  /** Creating an instance keeps the store invariant. */
  lemma AppendValid(rs: seq<InstanceRecord>, id: string, name: string, number: string, createdAt: string)
    requires StoreValid(rs)
    requires forall j :: 0 <= j < |rs| ==> rs[j].id != id
    ensures StoreValid(rs + [NewRecord(id, name, number, createdAt)])
  {
  }

  /** Every store event keeps the store invariant. */
  lemma StoreAfterValid(rs: seq<InstanceRecord>, id: string, ev: SessionEvent)
    requires StoreValid(rs)
    ensures StoreValid(StoreAfter(rs, id, ev))
  {
  }

  /** Registering a fresh client keeps every entry well formed. */
  lemma RegisteredValid(clients: map<string, SessionEntry>, id: string)
    requires RegistryValid(clients)
    ensures RegistryValid(Registered(clients, id))
  {
  }

  /** Every session event keeps every entry well formed. */
  lemma AfterEventValid(clients: map<string, SessionEntry>, id: string, ev: SessionEvent)
    requires RegistryValid(clients)
    ensures RegistryValid(AfterEvent(clients, id, ev))
  {
  }

  /** Handling the same event twice leaves the registry as handling it once. */
  lemma EventIdempotent(clients: map<string, SessionEntry>, id: string, ev: SessionEvent)
    ensures AfterEvent(AfterEvent(clients, id, ev), id, ev) == AfterEvent(clients, id, ev)
  {
  }

  /** Handling the same event twice leaves the store as handling it once. */
  lemma StoreEventIdempotent(rs: seq<InstanceRecord>, id: string, ev: SessionEvent)
    ensures StoreAfter(StoreAfter(rs, id, ev), id, ev) == StoreAfter(rs, id, ev)
  {
  }

  /** `ready` overwrites `connectedAt` each time it fires: after two of them,
      the connection time is that of the second. */
  lemma ReadyOverwritesConnectedAt(rs: seq<InstanceRecord>, id: string, first: string, second: string, k: nat)
    requires k < |rs| && rs[k].id == id && UniqueIds(rs)
    ensures StoreAfter(StoreAfter(rs, id, ReadyEvent(first)), id, ReadyEvent(second))[k].connectedAt == Some(second)
  {
  }

  /** The lifecycle is re-entrant: a `ready` after a `disconnected` brings the
      instance back to connected, in the registry and in its stored record. */
  lemma Reconnects(clients: map<string, SessionEntry>, rs: seq<InstanceRecord>, id: string, at: string, k: nat)
    requires k < |rs| && rs[k].id == id && UniqueIds(rs)
    ensures AfterEvent(AfterEvent(clients, id, DisconnectedEvent), id, ReadyEvent(at))[id].status == Connected
    ensures var after := StoreAfter(StoreAfter(rs, id, DisconnectedEvent), id, ReadyEvent(at));
      after[k].status == Connected && after[k].connectedAt == Some(at)
  {
  }

  /** `disconnected` changes only the status: a QR rendered before it is
      still in the entry afterwards, next to the status "disconnected". */
  lemma DisconnectKeepsQr(clients: map<string, SessionEntry>, id: string, image: string)
    ensures var after := AfterEvent(AfterEvent(clients, id, QrEvent(image)), id, DisconnectedEvent);
      after[id].qr == Some(image) && after[id].status == Disconnected
  {
  }

  /** A `qr` write that lands after `authenticated` or `ready` puts the entry
      back to waiting for a scan, with the image, and keeps its client. */
  lemma LateQrOverwrites(clients: map<string, SessionEntry>, id: string, ev: SessionEvent, image: string)
    requires ev.AuthenticatedEvent? || ev.ReadyEvent?
    ensures var after := AfterEvent(AfterEvent(clients, id, ev), id, QrEvent(image));
      && after[id].status == WaitingQr && after[id].qr == Some(image)
      && after[id].client == (if id in clients then clients[id].client else None)
  {
  }

  /** The whole happy path for a fresh id: create, scan the QR, authenticate,
      become ready. The registry then holds the original client, no QR and
      "connected"; the store holds the new record, now connected at `at`,
      after the untouched old ones. */
  lemma HappyPath(clients: map<string, SessionEntry>, rs: seq<InstanceRecord>,
                  id: string, name: string, number: string, createdAt: string, image: string, at: string)
    requires forall j :: 0 <= j < |rs| ==> rs[j].id != id
    ensures var m := AfterEvent(AfterEvent(AfterEvent(Registered(clients, id), id, QrEvent(image)),
                                           id, AuthenticatedEvent), id, ReadyEvent(at));
      m[id] == SessionEntry(Some(SessionHandle(id)), Connected, None)
    ensures var r := NewRecord(id, name, number, createdAt);
      var s := StoreAfter(StoreAfter(StoreAfter(rs + [r], id, QrEvent(image)), id, AuthenticatedEvent), id, ReadyEvent(at));
      s == rs + [r.(status := Connected, connectedAt := Some(at))]
  {
  }

  /** The answer of `GET /api/instances/:id/qr`. */
  datatype QrResponse = QrFound(qr: Option<string>, status: string) | QrNotFound

  /** The answer of `POST /api/instances`. */
  datatype CreateResponse = Created(instance: InstanceRecord) | MissingFields

  /** The registry, the store and the number of times the store file was written. */
  class InstanceManager {
    var clients: map<string, SessionEntry>
    var instances: seq<InstanceRecord>
    var saves: nat

    ghost predicate Valid()
      reads this
    {
      StoreValid(instances) && RegistryValid(clients)
    }

    /** A fresh process: an empty registry next to whatever the store file holds. */
    constructor (stored: seq<InstanceRecord>)
      requires StoreValid(stored)
      ensures Valid()
      ensures clients == map[] && instances == stored && saves == 0
    {
      clients := map[];
      instances := stored;
      saves := 0;
    }

    /** `GET /api/instances`: every stored record, in order. */
    method ListInstances() returns (rs: seq<InstanceRecord>)
      ensures rs == instances
    {
      rs := instances;
    }

    /** `POST /api/instances`. Fails, changing nothing, unless both fields are
      present and not empty; otherwise appends the new record, writes the store
      once and registers the session client. `id` and `createdAt` stand for
      the generated id and the clock; the id is new to the store. */
    method CreateInstance(name: Option<string>, number: Option<string>, id: string, createdAt: string)
      returns (r: CreateResponse)
      requires Valid()
      requires forall j :: 0 <= j < |instances| ==> instances[j].id != id
      modifies this
      ensures Valid()
      ensures r.Created? <==> Truthy(name) && Truthy(number)
      ensures r.MissingFields? ==>
        clients == old(clients) && instances == old(instances) && saves == old(saves)
      ensures r.Created? ==>
        && r.instance == NewRecord(id, name.value, number.value, createdAt)
        && r.instance.status == Initializing
        && r.instance.webhookUrl == WebhookPrefix + id
        && instances == old(instances) + [r.instance]
        && saves == old(saves) + 1
        && clients == Registered(old(clients), id)
    {
      if !Truthy(name) || !Truthy(number) {
        return MissingFields;
      }
      var record := NewRecord(id, name.value, number.value, createdAt);
      AppendValid(instances, id, name.value, number.value, createdAt);
      instances := instances + [record];
      saves := saves + 1;
      StartWhatsAppClient(id, number.value);
      r := Created(record);
    }

    /** `startWhatsAppClient`: stores a new client for `id` with status
      initializing and no QR, before the session starts. The number is not used. */
    method StartWhatsAppClient(id: string, number: string)
      requires Valid()
      modifies this`clients
      ensures Valid()
      ensures clients == Registered(old(clients), id)
      ensures clients[id].status == Initializing && clients[id].qr == None
    {
      RegisteredValid(clients, id);
      clients := clients[id := SessionEntry(Some(SessionHandle(id)), Initializing, None)];
    }

    /** `GET /api/instances/:id/qr`: not found exactly when the registry has no
      entry; otherwise the entry's QR (`null` when unset or empty) and its
      status name. */
    method GetQr(id: string) returns (r: QrResponse)
      requires Valid()
      ensures r.QrNotFound? <==> id !in clients
      ensures r.QrFound? ==> r.status == StatusName(clients[id].status)
      ensures r.QrFound? && clients[id].qr.Some? && clients[id].qr.value != "" ==> r.qr == clients[id].qr
      ensures r.QrFound? && r.qr.Some? ==> r.qr == clients[id].qr && r.qr.value != ""
      ensures r.QrFound? && clients[id].qr == None ==> r.qr == None
      ensures r.QrFound? && r.qr.Some? ==> r.status == "waiting_qr" || r.status == "disconnected"
    {
      if id !in clients {
        return QrNotFound;
      }
      var entry := clients[id];
      assert EntryValid(id, entry);
      var qr := if entry.qr.Some? && entry.qr.value != "" then entry.qr else None;
      var status := StatusName(entry.status);
      r := QrFound(qr, if status != "" then status else StatusName(Initializing));
    }

    /** The `qr` handler: renders the code and keeps it, waiting for a scan. */
    method OnQr(id: string, code: string, render: string -> string)
      requires Valid()
      modifies this`clients
      ensures Valid()
      ensures clients == AfterEvent(old(clients), id, QrEvent(render(code)))
      ensures clients[id].qr == Some(render(code)) && clients[id].status == WaitingQr
    {
      var qrImage := render(code);
      AfterEventValid(clients, id, QrEvent(qrImage));
      var e := Prior(clients, id);
      clients := clients[id := e.(qr := Some(qrImage), status := WaitingQr)];
    }

    /** The `authenticated` handler: drops the QR; the store is not written. */
    method OnAuthenticated(id: string)
      requires Valid()
      modifies this`clients
      ensures Valid()
      ensures clients == AfterEvent(old(clients), id, AuthenticatedEvent)
      ensures clients[id].qr == None && clients[id].status == Authenticated
    {
      AfterEventValid(clients, id, AuthenticatedEvent);
      var e := Prior(clients, id);
      clients := clients[id := e.(status := Authenticated, qr := None)];
    }

    /** The `ready` handler: connected in the registry, and, when the store has
      a record for `id`, connected at `at` there too, written once. */
    method OnReady(id: string, at: string)
      requires Valid()
      modifies this
      ensures Valid()
      ensures clients == AfterEvent(old(clients), id, ReadyEvent(at))
      ensures instances == StoreAfter(old(instances), id, ReadyEvent(at))
      ensures saves == old(saves) + if Saves(old(instances), id, ReadyEvent(at)) then 1 else 0
    {
      AfterEventValid(clients, id, ReadyEvent(at));
      StoreAfterValid(instances, id, ReadyEvent(at));
      var e := Prior(clients, id);
      clients := clients[id := e.(status := Connected, qr := None)];
      var index := FindIndex(instances, id);
      if index != -1 {
        instances := instances[index := instances[index].(status := Connected, connectedAt := Some(at))];
        saves := saves + 1;
      }
    }

    /** The `disconnected` handler: only the status changes, in the registry
      and, when there is a record for `id`, in the store. */
    method OnDisconnected(id: string)
      requires Valid()
      modifies this
      ensures Valid()
      ensures clients == AfterEvent(old(clients), id, DisconnectedEvent)
      ensures instances == StoreAfter(old(instances), id, DisconnectedEvent)
      ensures saves == old(saves) + if Saves(old(instances), id, DisconnectedEvent) then 1 else 0
    {
      AfterEventValid(clients, id, DisconnectedEvent);
      StoreAfterValid(instances, id, DisconnectedEvent);
      var e := Prior(clients, id);
      clients := clients[id := e.(status := Disconnected)];
      var index := FindIndex(instances, id);
      if index != -1 {
        instances := instances[index := instances[index].(status := Disconnected)];
        saves := saves + 1;
      }
    }
  }
}
