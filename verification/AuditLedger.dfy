/**
  The tool-call audit ledger: an append-only table with a unique index on
  (tool, idempotency key). `record_event` is two statements, insert-or-lose and then
  select-and-compare, which concurrent clients interleave freely.
  A row's id is its position in the table.
 */
module AuditLedger {
  import opened Wrappers
  import opened Governance
  import Json

  type Payload = map<string, Json.Json>

  datatype AuditEvent = AuditEvent(
    traceId: string,
    roomId: string,
    toolName: string,
    actionType: string,
    risk: RiskLevel,
    gate: GateDecision,
    operatorDecision: Option<string>,
    idempotencyKey: Option<string>,
    request: Payload,
    result: Payload)

  datatype Row = Row(fact: AuditEvent, key: Option<string>)

  /** How the effective key reads: absent, a text, or a payload value no text column holds. */
  datatype KeyReading = NoKey | TextKey(key: string) | ForeignKey

  datatype RecordResult = Recorded(id: nat) | Conflict | Unresolved | WriteFailed

  /** The event's own key if it has a non-empty one, otherwise what the request payload carries. */
  function EffectiveKey(event: AuditEvent): (reading: KeyReading)
    ensures event.idempotencyKey.Some? && |event.idempotencyKey.value| > 0 ==>
      reading == TextKey(event.idempotencyKey.value)
    ensures event.idempotencyKey in [None, Some("")] && "idempotency_key" in event.request ==>
      forall text | event.request["idempotency_key"] == Json.Text(text) :: reading == TextKey(text)
    ensures reading.NoKey? <==>
      && event.idempotencyKey in [None, Some("")]
      && ("idempotency_key" in event.request ==> event.request["idempotency_key"] == Json.Null)
  {
    if event.idempotencyKey.Some? && event.idempotencyKey.value != "" then TextKey(event.idempotencyKey.value)
    else if "idempotency_key" !in event.request then NoKey
    else match event.request["idempotency_key"]
      case Null => NoKey
      case Text(text) => TextKey(text)
      case _ => ForeignKey
  }

  predicate HasKey(row: Row, tool: string, key: string) {
    row.fact.toolName == tool && row.key == Some(key)
  }

  /** The row the unique index holds for (tool, key). */
  function Find(rows: seq<Row>, tool: string, key: string): (found: Option<nat>)
    ensures found.Some? ==> found.value < |rows| && HasKey(rows[found.value], tool, key)
    ensures found.None? ==> forall i | 0 <= i < |rows| :: !HasKey(rows[i], tool, key)
  {
    if rows == [] then None
    else
      var n := |rows| - 1;
      match Find(rows[..n], tool, key)
      case Some(i) => Some(i)
      case None => if HasKey(rows[n], tool, key) then Some(n) else None
  }

  predicate SameScalars(a: AuditEvent, b: AuditEvent) {
    && a.traceId == b.traceId && a.roomId == b.roomId && a.toolName == b.toolName
    && a.actionType == b.actionType && a.risk == b.risk && a.gate == b.gate
    && a.operatorDecision == b.operatorDecision
  }

  predicate SamePayload(stored: Payload, replayed: Payload) {
    Json.SemanticallyEqual(Json.Object(stored), Json.Object(replayed))
  }

  /** Two events tell the same business fact. */
  predicate SameFact(a: AuditEvent, b: AuditEvent) {
    SameScalars(a, b) && SamePayload(a.request, b.request) && SamePayload(a.result, b.result)
  }

  /** The replay test: a stored row under this key tells the event's own fact. */
  predicate EventMatchesStoredFact(event: AuditEvent, stored: Row, key: string) {
    && SameScalars(event, stored.fact) && stored.key == Some(key)
    && SamePayload(stored.fact.request, event.request)
    && SamePayload(stored.fact.result, event.result)
  }

  predicate UniqueKeys(rows: seq<Row>) {
    forall i, j | 0 <= i < j < |rows| ::
      rows[i].key.Some? && rows[i].key == rows[j].key ==> rows[i].fact.toolName != rows[j].fact.toolName
  }

  /** `record_event` by a client that runs alone. */
  function RecordAlone(rows: seq<Row>, event: AuditEvent): (seq<Row>, RecordResult) {
    match EffectiveKey(event)
    case ForeignKey => (rows, WriteFailed)
    case NoKey => (rows + [Row(event, None)], Recorded(|rows|))
    case TextKey(key) =>
      match Find(rows, event.toolName, key)
      case None => (rows + [Row(event, Some(key))], Recorded(|rows|))
      case Some(i) => (rows, if EventMatchesStoredFact(event, rows[i], key) then Recorded(i) else Conflict)
  }

  /** The stored rows already answer this call: making it again changes nothing. */
  predicate Settled(rows: seq<Row>, event: AuditEvent, answer: RecordResult) {
    RecordAlone(rows, event) == (rows, answer)
  }

  /** Field by field, the payloads up to how their numbers are written. */
  predicate OneFact(a: AuditEvent, b: AuditEvent) {
    && a.traceId == b.traceId && a.roomId == b.roomId
    && a.toolName == b.toolName && a.actionType == b.actionType
    && a.risk == b.risk && a.gate == b.gate
    && a.operatorDecision == b.operatorDecision
    && Json.Normalise(Json.Object(a.request)) == Json.Normalise(Json.Object(b.request))
    && Json.Normalise(Json.Object(a.result)) == Json.Normalise(Json.Object(b.result))
  }

  lemma SameFactIsOneFact(a: AuditEvent, b: AuditEvent)
    ensures SameFact(a, b) <==> OneFact(a, b)
  {
    Json.EqualityIsNormalisedEquality(Json.Object(a.request), Json.Object(b.request));
    Json.EqualityIsNormalisedEquality(Json.Object(a.result), Json.Object(b.result));
  }

  class ToolCallAuditStore {
    var rows: seq<Row>

    ghost predicate Valid()
      reads this
    {
      UniqueKeys(rows)
    }

    constructor ()
      ensures Valid() && rows == []
    {
      rows := [];
    }

    method Insert(row: Row) returns (id: nat)
      requires Valid()
      requires row.key.Some? ==> Find(rows, row.fact.toolName, row.key.value).None?
      modifies this
      ensures Valid() && rows == old(rows) + [row] && id == |old(rows)|
    {
      id := |rows|;
      rows := rows + [row];
    }

    // Insert or lose: an occupied key is no error, it returns no id.
    method InsertOnConflictDoNothing(row: Row) returns (inserted: Option<nat>)
      requires Valid() && row.key.Some?
      modifies this
      ensures Valid()
      ensures Find(old(rows), row.fact.toolName, row.key.value).None? ==>
        rows == old(rows) + [row] && inserted == Some(|old(rows)|)
      ensures Find(old(rows), row.fact.toolName, row.key.value).Some? ==> rows == old(rows) && inserted == None
    {
      inserted := None;
      if Find(rows, row.fact.toolName, row.key.value).None? {
        var id := Insert(row);
        inserted := Some(id);
      }
    }

    method RecordEvent(event: AuditEvent) returns (answer: RecordResult)
      requires Valid()
      modifies this
      ensures Valid() && (rows, answer) == RecordAlone(old(rows), event)
      ensures answer != Unresolved
      ensures EffectiveKey(event).TextKey? ==> Settled(rows, event, answer)
    {
      ghost var before := rows;
      match EffectiveKey(event) {
        case ForeignKey => answer := WriteFailed;
        case NoKey =>
          var id := Insert(Row(event, None));
          answer := Recorded(id);
        case TextKey(key) =>
          var inserted := InsertOnConflictDoNothing(Row(event, Some(key)));
          if inserted.Some? {
            answer := Recorded(inserted.value);
          } else {
            var existing := Find(rows, event.toolName, key);
            if existing.None? {
              answer := Unresolved;
            } else if EventMatchesStoredFact(event, rows[existing.value], key) {
              answer := Recorded(existing.value);
            } else {
              answer := Conflict;
            }
          }
          RecordingSettles(before, event);
      }
    }
  }

  // ---------------------------------------------------------------- sequential facts

  lemma FactsReflexive(e: AuditEvent)
    ensures SameFact(e, e)
  {
    Json.EqualityIsAnEquivalence(Json.Object(e.request), Json.Object(e.request), Json.Object(e.request));
    Json.EqualityIsAnEquivalence(Json.Object(e.result), Json.Object(e.result), Json.Object(e.result));
  }

  lemma RecordingKeepsUniqueKeys(rows: seq<Row>, event: AuditEvent)
    requires UniqueKeys(rows)
    ensures UniqueKeys(RecordAlone(rows, event).0)
    ensures rows <= RecordAlone(rows, event).0
  {
  }

  /** A keyed call is settled by its own execution. */
  lemma RecordingSettles(rows: seq<Row>, event: AuditEvent)
    requires EffectiveKey(event).TextKey?
    ensures var (after, answer) := RecordAlone(rows, event); Settled(after, event, answer)
  {
    var key := EffectiveKey(event).key;
    if Find(rows, event.toolName, key).None? {
      var after := rows + [Row(event, Some(key))];
      assert after[..|rows|] == rows;
      FactsReflexive(event);
    }
  }

  lemma FirstRecordingAppends(rows: seq<Row>, event: AuditEvent)
    requires EffectiveKey(event).TextKey?
    ensures Find(rows, event.toolName, EffectiveKey(event).key).None? ==> |RecordAlone(rows, event).0| == |rows| + 1
  {
  }

  /** Nothing appended later unsettles a keyed call. */
  lemma SettledIsStable(rows: seq<Row>, row: Row, event: AuditEvent, answer: RecordResult)
    requires EffectiveKey(event).TextKey? && Settled(rows, event, answer)
    ensures Settled(rows + [row], event, answer)
  {
    var key := EffectiveKey(event).key;
    FirstRecordingAppends(rows, event);
    assert (rows + [row])[..|rows|] == rows;
  }

  /** On an occupied key a call writes nothing, and conflicts exactly when it differs from the stored row. */
  lemma OccupiedKeyAnswers(rows: seq<Row>, event: AuditEvent, i: nat)
    requires UniqueKeys(rows) && EffectiveKey(event).TextKey?
    requires i < |rows| && HasKey(rows[i], event.toolName, EffectiveKey(event).key)
    ensures RecordAlone(rows, event) == (rows, if OneFact(event, rows[i].fact) then Recorded(i) else Conflict)
  {
    SameFactIsOneFact(event, rows[i].fact);
    PayloadsCommute(event.request, rows[i].fact.request);
    PayloadsCommute(event.result, rows[i].fact.result);
    hide SamePayload, OneFact;
  }

  lemma PayloadsCommute(a: Payload, b: Payload)
    ensures SamePayload(a, b) == SamePayload(b, a)
  {
    Json.EqualityIsAnEquivalence(Json.Object(a), Json.Object(b), Json.Object(a));
    Json.EqualityIsAnEquivalence(Json.Object(b), Json.Object(a), Json.Object(b));
  }

  /** A settled success is stored: its row tells the event's fact. */
  lemma SettledIsStored(rows: seq<Row>, event: AuditEvent, id: nat)
    requires EffectiveKey(event).TextKey? && Settled(rows, event, Recorded(id))
    ensures id < |rows| && HasKey(rows[id], event.toolName, EffectiveKey(event).key) && OneFact(event, rows[id].fact)
  {
    FirstRecordingAppends(rows, event);
    SameFactIsOneFact(event, rows[id].fact);
    PayloadsCommute(event.request, rows[id].fact.request);
    PayloadsCommute(event.result, rows[id].fact.result);
    hide SamePayload, OneFact;
  }

  /** Two settled successes under one (tool, key) name one row and tell one fact. */
  lemma SettledTwice(rows: seq<Row>, e1: AuditEvent, e2: AuditEvent, id1: nat, id2: nat)
    requires EffectiveKey(e1).TextKey? && EffectiveKey(e1) == EffectiveKey(e2) && e1.toolName == e2.toolName
    requires Settled(rows, e1, Recorded(id1)) && Settled(rows, e2, Recorded(id2))
    ensures id1 == id2 && OneFact(e1, e2) && SameFact(e1, e2)
  {
    FirstRecordingAppends(rows, e1);
    SettledIsStored(rows, e1, id1);
    SettledIsStored(rows, e2, id2);
    SameFactIsOneFact(e1, e2);
  }

  // ---------------------------------------------------------------- concurrent clients

  datatype Client =
    | Ready(event: AuditEvent)
    | Lost(event: AuditEvent, key: string)
    | Done(event: AuditEvent, answer: RecordResult)
    | Crashed(event: AuditEvent)

  /** `inserted` remembers, per client, the row its insert statement created. */
  datatype World = World(rows: seq<Row>, clients: map<nat, Client>, inserted: map<nat, nat>)

  datatype Action = Arrive(c: nat, event: AuditEvent) | RunInsert(c: nat) | RunSelect(c: nat) | Crash(c: nat)

  /** One statement of one client; an action that is not enabled leaves the world alone. */
  function Next(w: World, a: Action): World {
    match a
    case Arrive(c, event) =>
      if c in w.clients then w else w.(clients := w.clients[c := Ready(event)])
    case RunInsert(c) =>
      if c !in w.clients || !w.clients[c].Ready? then w else InsertStatement(w, c, w.clients[c].event)
    case RunSelect(c) =>
      if c !in w.clients || !w.clients[c].Lost? then w
      else
        var Lost(event, key) := w.clients[c];
        w.(clients := w.clients[c := Done(event, SelectAnswer(w.rows, event, key))])
    case Crash(c) =>
      if c !in w.clients then w else w.(clients := w.clients[c := Crashed(w.clients[c].event)])
  }

  function InsertStatement(w: World, c: nat, event: AuditEvent): World {
    match EffectiveKey(event)
    case ForeignKey => w.(clients := w.clients[c := Done(event, WriteFailed)])
    case NoKey => Inserted(w, c, event, None)
    case TextKey(key) =>
      if Find(w.rows, event.toolName, key).None? then Inserted(w, c, event, Some(key))
      else w.(clients := w.clients[c := Lost(event, key)])
  }

  function Inserted(w: World, c: nat, event: AuditEvent, key: Option<string>): World {
    World(
      w.rows + [Row(event, key)],
      w.clients[c := Done(event, Recorded(|w.rows|))],
      w.inserted[c := |w.rows|])
  }

  function SelectAnswer(rows: seq<Row>, event: AuditEvent, key: string): RecordResult {
    match Find(rows, event.toolName, key)
    case None => Unresolved
    case Some(i) => if EventMatchesStoredFact(event, rows[i], key) then Recorded(i) else Conflict
  }

  function Run(w: World, actions: seq<Action>): World {
    if actions == [] then w else Next(Run(w, actions[..|actions| - 1]), actions[|actions| - 1])
  }

  ghost predicate ClientSound(w: World, c: nat)
    requires c in w.clients
  {
    match w.clients[c]
    case Ready(_) => c !in w.inserted
    case Lost(event, key) =>
      c !in w.inserted && EffectiveKey(event) == TextKey(key) && Find(w.rows, event.toolName, key).Some?
    case Done(event, answer) =>
      && (EffectiveKey(event).TextKey? ==> Settled(w.rows, event, answer) && answer != Unresolved)
      && (EffectiveKey(event).NoKey? ==> answer.Recorded? && c in w.inserted)
      && (EffectiveKey(event).ForeignKey? ==> answer == WriteFailed)
      && (c in w.inserted ==> answer == Recorded(w.inserted[c]))
    case Crashed(_) => true
  }

  /** `start` is the table before the first client arrived. */
  ghost predicate Sound(start: seq<Row>, w: World) {
    && UniqueKeys(w.rows)
    && start <= w.rows
    && |w.rows| == |start| + |w.inserted|
    && (forall c | c in w.inserted :: c in w.clients && |start| <= w.inserted[c] < |w.rows|)
    && (forall c, d | c in w.inserted && d in w.inserted && c != d :: w.inserted[c] != w.inserted[d])
    && (forall c | c in w.clients :: ClientSound(w, c))
  }

  /** Appending a row leaves the other clients sound. */
  lemma OtherClientStaysSound(w: World, c: nat, event: AuditEvent, key: Option<string>, d: nat)
    requires d in w.clients && d != c && ClientSound(w, d)
    ensures ClientSound(Inserted(w, c, event, key), d)
  {
    var row := Row(event, key);
    match w.clients[d]
    case Lost(e, k) => assert (w.rows + [row])[..|w.rows|] == w.rows;
    case Done(e, answer) =>
      if EffectiveKey(e).TextKey? { SettledIsStable(w.rows, row, e, answer); }
    case _ =>
  }

  predicate MayInsert(rows: seq<Row>, event: AuditEvent, key: Option<string>) {
    match key
    case None => EffectiveKey(event).NoKey?
    case Some(k) => EffectiveKey(event) == TextKey(k) && Find(rows, event.toolName, k).None?
  }

  lemma InsertingClientIsSound(w: World, c: nat, event: AuditEvent, key: Option<string>)
    requires MayInsert(w.rows, event, key)
    ensures ClientSound(Inserted(w, c, event, key), c)
  {
    if key.Some? {
      RecordingSettles(w.rows, event);
    }
  }

  lemma InsertedKeepsSound(start: seq<Row>, w: World, c: nat, key: Option<string>)
    requires Sound(start, w) && c in w.clients && w.clients[c].Ready?
    requires MayInsert(w.rows, w.clients[c].event, key)
    ensures Sound(start, Inserted(w, c, w.clients[c].event, key))
  {
    var event := w.clients[c].event;
    var after := Inserted(w, c, event, key);
    assert ClientSound(w, c);
    forall d | d in after.clients ensures ClientSound(after, d) {
      if d == c {
        InsertingClientIsSound(w, c, event, key);
      } else {
        OtherClientStaysSound(w, c, event, key, d);
      }
    }
    assert UniqueKeys(after.rows);
  }

  /** A step that only moves one client on. */
  lemma ClientStepKeepsSound(start: seq<Row>, w: World, c: nat, client: Client)
    requires Sound(start, w)
    requires ClientSound(w.(clients := w.clients[c := client]), c)
    ensures Sound(start, w.(clients := w.clients[c := client]))
  {
    var after := w.(clients := w.clients[c := client]);
    forall d | d in after.clients ensures ClientSound(after, d) {
      assert d != c ==> ClientSound(w, d);
    }
  }

  lemma RunInsertKeepsSound(start: seq<Row>, w: World, c: nat)
    requires Sound(start, w) && c in w.clients && w.clients[c].Ready?
    ensures Sound(start, Next(w, RunInsert(c)))
  {
    var event := w.clients[c].event;
    assert ClientSound(w, c);
    match EffectiveKey(event)
    case NoKey => InsertedKeepsSound(start, w, c, None);
    case ForeignKey => ClientStepKeepsSound(start, w, c, Done(event, WriteFailed));
    case TextKey(k) =>
      if Find(w.rows, event.toolName, k).None? {
        InsertedKeepsSound(start, w, c, Some(k));
      } else {
        ClientStepKeepsSound(start, w, c, Lost(event, k));
      }
  }

  lemma NextKeepsSound(start: seq<Row>, w: World, a: Action)
    requires Sound(start, w)
    ensures Sound(start, Next(w, a))
  {
    match a
    case Arrive(c, event) =>
      if c !in w.clients { ClientStepKeepsSound(start, w, c, Ready(event)); }
    case RunInsert(c) =>
      if c in w.clients && w.clients[c].Ready? { RunInsertKeepsSound(start, w, c); }
    case RunSelect(c) =>
      if c in w.clients && w.clients[c].Lost? {
        assert ClientSound(w, c);
        var event, key := w.clients[c].event, w.clients[c].key;
        ClientStepKeepsSound(start, w, c, Done(event, SelectAnswer(w.rows, event, key)));
      }
    case Crash(c) =>
      if c in w.clients { ClientStepKeepsSound(start, w, c, Crashed(w.clients[c].event)); }
  }

  /** Every interleaving, of any length, with any arrivals and crashes. */
  lemma {:induction false} EveryInterleavingIsSound(start: seq<Row>, actions: seq<Action>)
    requires UniqueKeys(start)
    ensures Sound(start, Run(World(start, map[], map[]), actions))
  {
    if actions != [] {
      var w := Run(World(start, map[], map[]), actions[..|actions| - 1]);
      EveryInterleavingIsSound(start, actions[..|actions| - 1]);
      NextKeepsSound(start, w, actions[|actions| - 1]);
    }
  }

  /** All clients that succeed under one (tool, key) hold the same id and told the same fact. */
  lemma ConcurrentSuccessesAgree(start: seq<Row>, actions: seq<Action>, c: nat, d: nat)
    requires UniqueKeys(start)
    requires var w := Run(World(start, map[], map[]), actions);
      && c in w.clients && d in w.clients
      && w.clients[c].Done? && w.clients[d].Done?
      && w.clients[c].answer.Recorded? && w.clients[d].answer.Recorded?
      && w.clients[c].event.toolName == w.clients[d].event.toolName
      && EffectiveKey(w.clients[c].event).TextKey?
      && EffectiveKey(w.clients[c].event) == EffectiveKey(w.clients[d].event)
    ensures var w := Run(World(start, map[], map[]), actions);
      w.clients[c].answer == w.clients[d].answer && OneFact(w.clients[c].event, w.clients[d].event)
  {
    var w := Run(World(start, map[], map[]), actions);
    EveryInterleavingIsSound(start, actions);
    assert ClientSound(w, c) && ClientSound(w, d);
    SettledTwice(w.rows, w.clients[c].event, w.clients[d].event, w.clients[c].answer.id, w.clients[d].answer.id);
  }

  /** A client that ends in conflict created no row, and no client ends unresolved. */
  lemma ConflictsWriteNothing(start: seq<Row>, actions: seq<Action>, c: nat)
    requires UniqueKeys(start)
    requires var w := Run(World(start, map[], map[]), actions); c in w.clients && w.clients[c].Done?
    ensures var w := Run(World(start, map[], map[]), actions);
      && w.clients[c].answer != Unresolved
      && (w.clients[c].answer == Conflict ==>
        && c !in w.inserted && EffectiveKey(w.clients[c].event).TextKey?
        && exists i | 0 <= i < |w.rows| ::
             && HasKey(w.rows[i], w.clients[c].event.toolName, EffectiveKey(w.clients[c].event).key)
             && !OneFact(w.clients[c].event, w.rows[i].fact))
  {
    var w := Run(World(start, map[], map[]), actions);
    EveryInterleavingIsSound(start, actions);
    assert ClientSound(w, c);
    if w.clients[c].answer == Conflict {
      ConflictIsADifference(w.rows, w.clients[c].event);
    }
  }

  lemma ConflictIsADifference(rows: seq<Row>, event: AuditEvent)
    requires UniqueKeys(rows) && EffectiveKey(event).TextKey? && Settled(rows, event, Conflict)
    ensures exists i | 0 <= i < |rows| ::
      HasKey(rows[i], event.toolName, EffectiveKey(event).key) && !OneFact(event, rows[i].fact)
  {
    var i := Find(rows, event.toolName, EffectiveKey(event).key).value;
    OccupiedKeyAnswers(rows, event, i);
  }
}
