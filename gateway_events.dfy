/** The event-waiter table of GatewayService: a caller registers for an
    event kind and waits; the message consumer delivers decoded events.
    The asyncio tasks are modelled as the order in which the four steps
    (register, deliver, finish woken, finish timed out) are taken. */
module GatewayEvents {
  import opened Common

  const TeamCreated: string := "team_created"
  const TeamJoined: string := "team_joined"

  /** A decoded bus message: its `event_type` and its `data`. */
  datatype Message = Message(eventType: string, data: Dict)

  /** TeamData(**data).__dict__: the two team fields, or a refusal when
      either is missing or of the wrong JSON type. Other keys are dropped. */
  function ProjectTeam(data: Dict): (r: Option<Dict>)
    ensures r.Some? <==> "team_id" in data && data["team_id"].Int? && "team_name" in data && data["team_name"].Str?
    ensures r.Some? ==> r.value.Keys == {"team_id", "team_name"}
    ensures r.Some? ==> forall k :: k in r.value ==> r.value[k] == data[k]
  {
    if "team_id" in data && data["team_id"].Int? && "team_name" in data && data["team_name"].Str?
    then Some(map["team_id" := data["team_id"], "team_name" := data["team_name"]])
    else None
  }

  /** Projecting an already projected team changes nothing. */
  lemma ProjectTeamIdempotent(data: Dict)
    requires ProjectTeam(data).Some?
    ensures ProjectTeam(ProjectTeam(data).value) == ProjectTeam(data)
  {
  }

  /** The value handle_message stores and returns: the team projection for
      the two team kinds, the raw data for every other kind. */
  function HandledResult(m: Message): (r: Outcome<Dict>)
    ensures (m.eventType == TeamCreated || m.eventType == TeamJoined) ==>
              (r.Ok? <==> ProjectTeam(m.data).Some?) && (r.Ok? ==> r.value == ProjectTeam(m.data).value)
    ensures (m.eventType == TeamCreated || m.eventType == TeamJoined) && r.Fail? ==> r.failure == ValidationError
    ensures m.eventType != TeamCreated && m.eventType != TeamJoined ==> r == Ok(m.data)
  {
    if m.eventType == TeamCreated || m.eventType == TeamJoined then
      match ProjectTeam(m.data)
      case Some(d) => Ok(d)
      case None => Fail(ValidationError)
    else
      Ok(m.data)
  }

  /** The two process-wide tables, seen abstractly: the kinds that have a
      waiter entry in message_condition, and message_store. */
  datatype Tables = Tables(waiting: set<string>, store: map<string, Dict>)

  /** What a delivery returns and the tables after it. */
  datatype Delivery = Delivery(result: Outcome<Dict>, after: Tables)

  /** What a finished wait returns and the tables after it. */
  datatype Wake = Wake(payload: Option<Dict>, after: Tables)

  /** Registering: an entry for the kind exists afterwards, whether it was
      created now or was already there; the store is untouched. */
  function Register(t: Tables, kind: string): (t': Tables)
    ensures kind in t'.waiting
    ensures t'.waiting - {kind} == t.waiting - {kind}
    ensures kind in t.waiting ==> t' == t
    ensures t'.store == t.store
  {
    Tables(t.waiting + {kind}, t.store)
  }

  /** handle_message: a refused team projection raises before either table
      is touched; otherwise, with an entry for the kind, the result replaces
      whatever was stored under the kind, and without one nothing changes. */
  function Deliver(t: Tables, m: Message): (d: Delivery)
    ensures d.result == HandledResult(m)
    ensures d.after.waiting == t.waiting
    ensures d.result.Ok? && m.eventType in t.waiting ==>
              d.after.store == t.store[m.eventType := d.result.value]
    ensures d.result.Fail? || m.eventType !in t.waiting ==> d.after == t
    ensures forall k :: k != m.eventType ==>
              (k in d.after.store <==> k in t.store) && (k in t.store ==> d.after.store[k] == t.store[k])
  {
    match HandledResult(m)
    case Fail(f) => Delivery(Fail(f), t)
    case Ok(result) =>
      if m.eventType in t.waiting
      then Delivery(Ok(result), Tables(t.waiting, t.store[m.eventType := result]))
      else Delivery(Ok(result), t)
  }

  /** The end of a wait that was woken: pop the stored payload (None when
      there is none), then remove the kind's entry if it is still there. */
  function FinishWoken(t: Tables, kind: string): (w: Wake)
    ensures w.payload == (if kind in t.store then Some(t.store[kind]) else None)
    ensures w.after.waiting == t.waiting - {kind}
    ensures w.after.store == t.store - {kind}
  {
    Wake(if kind in t.store then Some(t.store[kind]) else None,
         Tables(t.waiting - {kind}, t.store - {kind}))
  }

  /** The end of a wait that timed out: return None and remove the kind's
      entry if it is still there; the store is not touched. */
  function FinishTimeout(t: Tables, kind: string): (w: Wake)
    ensures w.payload == None
    ensures w.after.waiting == t.waiting - {kind}
    ensures w.after.store == t.store
  {
    Wake(None, Tables(t.waiting - {kind}, t.store))
  }

  /** Register, one delivery, and the woken wait returns exactly what was
      delivered; afterwards neither table holds the kind, so a second
      delivery without a new registration is dropped. */
  lemma DeliveredOnce(t: Tables, m: Message, m2: Message)
    requires HandledResult(m).Ok?
    requires m2.eventType == m.eventType
    ensures var t1 := Register(t, m.eventType);
            var d := Deliver(t1, m);
            var w := FinishWoken(d.after, m.eventType);
            && d.result == HandledResult(m)
            && w.payload == Some(HandledResult(m).value)
            && m.eventType !in w.after.waiting && m.eventType !in w.after.store
            && Deliver(w.after, m2).after == w.after
  {
  }

  /** A wait that times out leaves no entry behind, so a late delivery for
      the kind is dropped and does not reach any later registrant. */
  lemma LateDeliveryDropped(t: Tables, kind: string, late: Message)
    requires late.eventType == kind
    ensures var w := FinishTimeout(Register(t, kind), kind);
            && w.payload == None
            && kind !in w.after.waiting
            && w.after.store == t.store
            && Deliver(w.after, late).after == w.after
  {
  }

  /** Two callers waiting on one kind share the entry; one delivery wakes
      both, the first to finish takes the payload and the second gets None. */
  lemma SecondWaiterGetsNothing(t: Tables, m: Message)
    requires HandledResult(m).Ok?
    ensures var k := m.eventType;
            var t2 := Register(Register(t, k), k);
            var d := Deliver(t2, m);
            var w1 := FinishWoken(d.after, k);
            var w2 := FinishWoken(w1.after, k);
            && t2 == Register(t, k)
            && w1.payload == Some(HandledResult(m).value)
            && w2.payload == None
            && w2.after == w1.after
  {
  }

  /** Two callers A and B share an entry and one delivery wakes both. A
      finishes first, then a third caller C registers and gets an entry of
      its own; B's finish then deletes C's entry, because the deletion goes
      by kind, so the delivery meant for C is dropped and C times out with
      nothing. */
  lemma LateFinishDropsNewEntry(t: Tables, m: Message, m2: Message)
    requires HandledResult(m).Ok? && HandledResult(m2).Ok?
    requires m2.eventType == m.eventType
    ensures var k := m.eventType;
            var d := Deliver(Register(Register(t, k), k), m);
            var a := FinishWoken(d.after, k);
            var withC := Register(a.after, k);
            var b := FinishWoken(withC, k);
            var late := Deliver(b.after, m2);
            && a.payload == Some(HandledResult(m).value)
            && k !in a.after.waiting && k in withC.waiting
            && b.payload == None
            && k !in b.after.waiting
            && late.after == b.after
            && FinishTimeout(late.after, k).payload == None
  {
  }

  /** A payload delivered just before its waiter times out stays in the
      store: the timeout path never pops it. A later registrant woken by a
      fresh delivery receives the fresh payload, not the stale one. */
  lemma StalePayloadOverwritten(t: Tables, m: Message, m2: Message)
    requires HandledResult(m).Ok? && HandledResult(m2).Ok?
    requires m2.eventType == m.eventType
    ensures var k := m.eventType;
            var stale := FinishTimeout(Deliver(Register(t, k), m).after, k);
            var w := FinishWoken(Deliver(Register(stale.after, k), m2).after, k);
            && stale.payload == None
            && k in stale.after.store && stale.after.store[k] == HandledResult(m).value
            && w.payload == Some(HandledResult(m2).value)
  {
  }

  /** An asyncio.Condition; only its identity matters here. */
  class Condition {
    constructor ()
    {
    }
  }

  /** The class-level dicts message_store and message_condition of
      GatewayService, shared by every caller in the process. */
  class EventTables {
    var messageStore: map<string, Dict>
    var messageCondition: map<string, Condition>

    /** The abstract view the step functions above are stated on. */
    function View(): (v: Tables)
      reads this
    {
      Tables(messageCondition.Keys, messageStore)
    }

    constructor ()
      ensures messageStore == map[] && messageCondition == map[]
    {
      messageStore := map[];
      messageCondition := map[];
    }

    /** The start of wait_for_event: create a Condition for the kind only
      if none exists, and wait on the kind's Condition, new or shared. */
    method RegisterWaiter(eventType: string) returns (condition: Condition)
      modifies this
      ensures View() == Register(old(View()), eventType)
      ensures old(eventType in messageCondition) ==>
                condition == old(messageCondition[eventType]) && messageCondition == old(messageCondition)
      ensures old(eventType !in messageCondition) ==>
                fresh(condition) && messageCondition == old(messageCondition)[eventType := condition]
      ensures messageStore == old(messageStore)
    {
      if eventType !in messageCondition {
        var c := new Condition();
        messageCondition := messageCondition[eventType := c];
      }
      condition := messageCondition[eventType];
    }

    /** handle_message. */
    method HandleMessage(message: Message) returns (result: Outcome<Dict>)
      modifies this
      ensures Delivery(result, View()) == Deliver(old(View()), message)
      ensures messageCondition == old(messageCondition)
    {
      var eventType := message.eventType;
      var data := message.data;
      if eventType == TeamCreated || eventType == TeamJoined {
        var team := ProjectTeam(data);
        if team.None? {
          return Fail(ValidationError);
        }
        result := Ok(team.value);
      } else {
        result := Ok(data);
      }
      if eventType in messageCondition {
        messageStore := messageStore[eventType := result.value];
      }
    }

    /** The end of wait_for_event after the Condition was notified. */
    method FinishWokenWait(eventType: string) returns (payload: Option<Dict>)
      modifies this
      ensures Wake(payload, View()) == FinishWoken(old(View()), eventType)
      ensures messageCondition == old(messageCondition) - {eventType}
    {
      if eventType in messageStore {
        payload := Some(messageStore[eventType]);
        messageStore := messageStore - {eventType};
      } else {
        payload := None;
      }
      if eventType in messageCondition {
        messageCondition := messageCondition - {eventType};
      }
    }

    /** The end of wait_for_event after asyncio.wait_for timed out. */
    method FinishTimedOutWait(eventType: string) returns (payload: Option<Dict>)
      modifies this
      ensures Wake(payload, View()) == FinishTimeout(old(View()), eventType)
      ensures messageCondition == old(messageCondition) - {eventType}
    {
      payload := None;
      if eventType in messageCondition {
        messageCondition := messageCondition - {eventType};
      }
    }
  }
}
