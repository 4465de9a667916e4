/**
  Statistics messages over whole runs: they follow the status entries, they count each refund once,
  and the live messages agree with what a migration of the final document would send.
*/
module StatisticsRuns {
  import opened ActionPayloads
  import opened DoubleConverter
  import opened HistoryRuns
  import opened Runs
  import opened Transactions
  import opened Worlds
  import opened Wrappers

  /** A tally over the outbox: number of add, paid or internal refund messages, or the amounts added or subtracted. */
  datatype Tally = Adds | Paids | Added | Subtracted | Internals

  function Weight(k: Tally, e: Event, uuid: string): real {
    match e
    case AddEvent(id, added) =>
      if id != uuid then 0.0 else if k == Adds then 1.0 else if k == Added then added.GetOr(0.0) else 0.0
    case PaidEvent(id, _) => if id == uuid && k == Paids then 1.0 else 0.0
    case SubtractEvent(id, refunded) => if id == uuid && k == Subtracted then refunded.GetOr(0.0) else 0.0
    case InternalRefundEvent(id) => if id == uuid && k == Internals then 1.0 else 0.0
  }

  function Total(k: Tally, events: seq<Event>, uuid: string): real {
    if events == [] then 0.0
    else Total(k, events[..|events| - 1], uuid) + Weight(k, events[|events| - 1], uuid)
  }

  lemma {:induction false} TotalAppend(k: Tally, a: seq<Event>, b: seq<Event>, uuid: string)
    ensures Total(k, a + b, uuid) == Total(k, a, uuid) + Total(k, b, uuid)
  {
    if b == [] {
      assert a + b == a;
    } else {
      TotalAppend(k, a, b[..|b| - 1], uuid);
      assert (a + b)[..|a + b| - 1] == a + b[..|b| - 1];
    }
  }

  lemma TotalOne(k: Tally, e: Event, uuid: string)
    ensures Total(k, [e], uuid) == Weight(k, e, uuid)
  {
    assert [e][..0] == [];
  }

  /** The document was there before and its status changed to s. */
  predicate Enters(before: World, after: World, uuid: string, s: Status) {
    && uuid in before.store && uuid in after.store
    && before.store[uuid].status != s && after.store[uuid].status == s
  }

  /** An update event of the document that announces status s, which it did not have. */
  predicate MovesInto(w: World, step: Step, uuid: string, s: Status) {
    step.UpdateStep? && step.c.uuid == uuid && uuid in w.store && w.store[uuid].status != s && step.c.status == s
  }

  /** Such an event is one after which the document has status s, and did not before. */
  lemma MovesAreEntries(w: World, step: Step, uuid: string, s: Status)
    requires WellKeyed(w.store)
    ensures MovesInto(w, step, uuid, s) <==> step.UpdateStep? && Enters(w, Next(w, step), uuid, s)
  {
    if step.UpdateStep? {
      UpdateEnters(w, step.c, uuid, s);
    }
  }

  /** Step by step, whether an update event moved the document into status s. */
  function Moves(w: World, steps: seq<Step>, uuid: string, s: Status): seq<bool> {
    if steps == [] then []
    else Moves(w, steps[..|steps| - 1], uuid, s) + [MovesInto(Run(w, steps[..|steps| - 1]), steps[|steps| - 1], uuid, s)]
  }

  function Count(marks: seq<bool>): nat {
    if marks == [] then 0 else Count(marks[..|marks| - 1]) + if marks[|marks| - 1] then 1 else 0
  }

  lemma CountPush(marks: seq<bool>, mark: bool)
    ensures Count(marks + [mark]) == Count(marks) + if mark then 1 else 0
  {
    assert (marks + [mark])[..|marks|] == marks;
  }

  /** How often update events move the document into status s in a run. */
  function Entries(w: World, steps: seq<Step>, uuid: string, s: Status): nat {
    Count(Moves(w, steps, uuid, s))
  }

  /** The messages a step appends to the outbox. */
  function Sent(w: World, s: Step): seq<Event> {
    match s
    case UpdateStep(c) => UpdateEvents(w, c)
    case MigrateStep(c) =>
      var w' := OnMigrate(w, c);
      if c.uuid in w'.store then MigratedEvents(w'.store[c.uuid]) else []
    case ActionStep(u, fields, action, skip, rpc) =>
      if u in w.store && ActionRuns(w, w.store[u], fields, action, skip, rpc) then
        SubtractEvents(OnRpcResult(w, w.store[u], rpc).store, w.store[u].uuid, MessageOf(w, s))
      else []
    case _ => []
  }

  lemma SentIsAppended(w: World, s: Step)
    requires WellKeyed(w.store)
    ensures Next(w, s).outbox == w.outbox + Sent(w, s)
  {
    assert w.outbox + [] == w.outbox;
    match s
    case UpdateStep(c) => UpdateSends(w, c);
    case MigrateStep(c) => MigrationSends(w, c);
    case ActionStep(_, _, _, _, _) => ActionIsSent(w, s);
    case BusCompletedStep(u, _) => if u in w.store { BusStep(w, s, u); }
    case BusHistoryStep(u, _) => if u in w.store { BusStep(w, s, u); }
    case RefreshStep(u, _) => if u in w.store { RefreshWrites(w, s, u); }
    case _ =>
  }

  lemma ActionIsSent(w: World, s: Step)
    requires WellKeyed(w.store) && s.ActionStep?
    ensures Next(w, s).outbox == w.outbox + Sent(w, s)
  {
    assert w.outbox + [] == w.outbox;
    if s.uuid in w.store {
      var t := w.store[s.uuid];
      RpcKeepsHistory(w, t, s.rpc, s.uuid);
      if ActionRuns(w, t, s.fields, s.action, s.skipValidation, s.rpc) {
        CompletedWrites(OnRpcResult(w, t, s.rpc), s.uuid, MessageOf(w, s), s.uuid);
      }
    }
  }

  lemma UpdateSends(w: World, c: Checkout)
    requires WellKeyed(w.store)
    ensures OnUpdate(w, c).outbox == w.outbox + UpdateEvents(w, c)
  {
    if c.uuid in w.store {
      UpdateOfStored(w, c);
    } else {
      UpdateOfMissing(w, c);
    }
  }

  lemma MigrationSends(w: World, c: Checkout)
    ensures OnMigrate(w, c).outbox == w.outbox + Sent(w, MigrateStep(c))
  {
    assert w.outbox + [] == w.outbox;
  }

  lemma UpdateOfStored(w: World, c: Checkout)
    requires WellKeyed(w.store) && c.uuid in w.store
    ensures var t := Apply(w.store[c.uuid], SetFields(WithoutIdentifiers(FromCheckout(c))));
            && t.uuid == c.uuid && t.history == w.store[c.uuid].history
            && t.status == c.status && t.amount == c.amount
            && OnUpdate(w, c) == World(w.store[c.uuid := t], w.index[c.uuid := Pack(t)], w.outbox + UpdateEvents(w, c))
  {
    var sent := w.(outbox := w.outbox + UpdateEvents(w, c));
    assert OnUpdate(w, c) == UpdateByUuid(sent, c.uuid, FromCheckout(c));
  }

  lemma UpdateOfMissing(w: World, c: Checkout)
    requires c.uuid !in w.store
    ensures OnUpdate(w, c).outbox == w.outbox
    ensures forall u | u in w.store :: u in OnUpdate(w, c).store && OnUpdate(w, c).store[u] == w.store[u]
  {
    assert w.outbox + [] == w.outbox;
  }

  lemma UpdateWrites(w: World, c: Checkout, uuid: string)
    requires WellKeyed(w.store) && uuid in w.store
    ensures var w' := OnUpdate(w, c);
            && uuid in w'.store
            && w'.store[uuid].history == w.store[uuid].history
            && w'.store[uuid].status == (if uuid == c.uuid then c.status else w.store[uuid].status)
            && w'.store[uuid].amount == (if uuid == c.uuid then c.amount else w.store[uuid].amount)
  {
    if c.uuid in w.store {
      UpdateOfStored(w, c);
    } else {
      UpdateOfMissing(w, c);
    }
  }

  lemma UpdateEnters(w: World, c: Checkout, uuid: string, s: Status)
    requires WellKeyed(w.store)
    ensures Enters(w, OnUpdate(w, c), uuid, s)
            <==> uuid == c.uuid && uuid in w.store && w.store[uuid].status != s && c.status == s
  {
    if uuid in w.store {
      UpdateWrites(w, c, uuid);
    }
  }

  /** The messages of an update event, tallied: one add for an entry into ACCEPTED, one paid for one into PAID. */
  lemma UpdateTally(w: World, c: Checkout, uuid: string)
    requires WellKeyed(w.store)
    ensures var w' := OnUpdate(w, c); var sent := UpdateEvents(w, c);
            && Total(Adds, sent, uuid) == (if Enters(w, w', uuid, Accepted) then 1.0 else 0.0)
            && Total(Paids, sent, uuid) == (if Enters(w, w', uuid, Paid) then 1.0 else 0.0)
            && Total(Added, sent, uuid) == (if Enters(w, w', uuid, Accepted) then c.amount else 0.0)
            && Total(Subtracted, sent, uuid) == 0.0
  {
    UpdateEnters(w, c, uuid, Accepted);
    UpdateEnters(w, c, uuid, Paid);
    EventsTally(w, c, uuid);
  }

  lemma EventsTally(w: World, c: Checkout, uuid: string)
    ensures var sent := UpdateEvents(w, c);
            var entered := uuid == c.uuid && uuid in w.store && w.store[uuid].status != c.status;
            && Total(Adds, sent, uuid) == (if entered && c.status == Accepted then 1.0 else 0.0)
            && Total(Paids, sent, uuid) == (if entered && c.status == Paid then 1.0 else 0.0)
            && Total(Added, sent, uuid) == (if entered && c.status == Accepted then c.amount else 0.0)
            && Total(Subtracted, sent, uuid) == 0.0
  {
    var sent := UpdateEvents(w, c);
    if sent != [] {
      var e := AnnouncedBy(w, c);
      TotalOne(Adds, e, uuid);
      TotalOne(Paids, e, uuid);
      TotalOne(Added, e, uuid);
      TotalOne(Subtracted, e, uuid);
    }
  }

  /** An update event sends at most one message, and which one depends on its status alone. */
  function AnnouncedBy(w: World, c: Checkout): (e: Event)
    requires UpdateEvents(w, c) != []
    ensures UpdateEvents(w, c) == [e]
    ensures c.uuid in w.store && (c.status == Accepted || c.status == Paid ==> w.store[c.uuid].status != c.status)
    ensures e == if c.status == Accepted then AddEvent(c.uuid, Some(c.amount))
                 else if c.status == Paid then PaidEvent(c.uuid, c.amount)
                 else InternalRefundEvent(c.uuid)
  {
    UpdateEvents(w, c)[0]
  }

  /** No other step but a migration sends add or paid messages. */
  lemma OtherTally(w: World, s: Step, uuid: string)
    requires WellKeyed(w.store) && !s.UpdateStep? && !s.MigrateStep?
    ensures Total(Adds, Sent(w, s), uuid) == Total(Paids, Sent(w, s), uuid) == Total(Added, Sent(w, s), uuid) == 0.0
  {
    if Sent(w, s) != [] {
      assert Sent(w, s) == [Sent(w, s)[0]];
      forall k: Tally ensures Total(k, Sent(w, s), uuid) == Weight(k, Sent(w, s)[0], uuid) {
        TotalOne(k, Sent(w, s)[0], uuid);
      }
    }
  }

  /** A migration announces this document once, and no other. */
  predicate Announces(w: World, s: Step, uuid: string) {
    && s.MigrateStep? && s.c.uuid == uuid
    && var w' := OnMigrate(w, s.c); uuid in w'.store && w'.store[uuid].status in {Accepted, Paid, Refunded}
  }

  /** How often migrations announced the document. */
  function Announcements(w: World, steps: seq<Step>, uuid: string): nat {
    if steps == [] then 0
    else
      var before, last := Run(w, steps[..|steps| - 1]), steps[|steps| - 1];
      Announcements(w, steps[..|steps| - 1], uuid) + if Announces(before, last, uuid) then 1 else 0
  }

  lemma MigrationTally(w: World, c: Checkout, uuid: string)
    requires WellKeyed(w.store)
    ensures Total(Adds, Sent(w, MigrateStep(c)), uuid) == (if Announces(w, MigrateStep(c), uuid) then 1.0 else 0.0)
    ensures Total(Paids, Sent(w, MigrateStep(c)), uuid) == 0.0
  {
    MigrateMirrors(w, c);
    var sent := Sent(w, MigrateStep(c));
    if sent != [] {
      assert sent == [sent[0]];
      TotalOne(Adds, sent[0], uuid);
      TotalOne(Paids, sent[0], uuid);
    }
  }

  lemma StepTally(w: World, s: Step, uuid: string)
    requires WellKeyed(w.store)
    ensures var w' := Next(w, s);
            && Total(Adds, w'.outbox, uuid) == Total(Adds, w.outbox, uuid)
               + (if MovesInto(w, s, uuid, Accepted) then 1.0 else 0.0)
               + (if Announces(w, s, uuid) then 1.0 else 0.0)
            && Total(Paids, w'.outbox, uuid) == Total(Paids, w.outbox, uuid)
               + (if MovesInto(w, s, uuid, Paid) then 1.0 else 0.0)
  {
    SentIsAppended(w, s);
    TotalAppend(Adds, w.outbox, Sent(w, s), uuid);
    TotalAppend(Paids, w.outbox, Sent(w, s), uuid);
    MovesAreEntries(w, s, uuid, Accepted);
    MovesAreEntries(w, s, uuid, Paid);
    if s.UpdateStep? {
      UpdateTally(w, s.c, uuid);
    } else if s.MigrateStep? {
      MigrationTally(w, s.c, uuid);
    } else {
      OtherTally(w, s, uuid);
    }
  }

  /**
    In every run: the number of add messages is the number of entries into ACCEPTED by update events
    plus the number of announcing migrations, and the number of paid messages is the number of entries
    into PAID by update events, whatever other steps do to the status in between.
  */
  lemma {:induction false} MessagesFollowEntries(w: World, steps: seq<Step>, uuid: string)
    requires WellKeyed(w.store)
    ensures var w' := Run(w, steps);
            && Total(Adds, w'.outbox, uuid) ==
               Total(Adds, w.outbox, uuid) + Entries(w, steps, uuid, Accepted) as real
               + Announcements(w, steps, uuid) as real
            && Total(Paids, w'.outbox, uuid) ==
               Total(Paids, w.outbox, uuid) + Entries(w, steps, uuid, Paid) as real
  {
    if steps != [] {
      var prefix, last := steps[..|steps| - 1], steps[|steps| - 1];
      MessagesFollowEntries(w, prefix, uuid);
      RunKeepsKeys(w, prefix);
      StepTally(Run(w, prefix), last, uuid);
      CountPush(Moves(w, prefix, uuid, Accepted), MovesInto(Run(w, prefix), last, uuid, Accepted));
      CountPush(Moves(w, prefix, uuid, Paid), MovesInto(Run(w, prefix), last, uuid, Paid));
    }
  }

  /**
    Redelivery: handling an update event a second time in a row changes nothing, neither documents nor
    messages, exactly when it is not a cancellation of a stored document.
  */
  lemma RedeliveryIsSilent(w: World, c: Checkout)
    requires WellKeyed(w.store)
    ensures OnUpdate(OnUpdate(w, c), c) == OnUpdate(w, c)
            <==> c.status != Cancelled || c.uuid !in OnUpdate(w, c).store
  {
    var w1 := OnUpdate(w, c);
    UpdateEventMirrors(w, c);
    if c.uuid in w1.store {
      SecondWriteIsSame(w, c);
      RewriteChangesNothing(w1, c);
      assert |UpdateEvents(w1, c)| == if c.status == Cancelled then 1 else 0;
      assert |OnUpdate(w1, c).outbox| == |w1.outbox| + |UpdateEvents(w1, c)|;
    } else {
      assert c.uuid !in w.store && w1.outbox == w.outbox;
      assert w1 == w;
    }
  }

  lemma RewriteChangesNothing(w: World, c: Checkout)
    requires WellKeyed(w.store) && c.uuid in w.store && c.uuid in w.index
    requires w.index[c.uuid] == Pack(w.store[c.uuid])
    requires Apply(w.store[c.uuid], SetFields(WithoutIdentifiers(FromCheckout(c)))) == w.store[c.uuid]
    ensures OnUpdate(w, c) == w.(outbox := w.outbox + UpdateEvents(w, c))
  {
    UpdateOfStored(w, c);
    assert OnUpdate(w, c).store == w.store;
    assert OnUpdate(w, c).index == w.index;
  }

  lemma WritingTwice(t: Transaction, c: Checkout)
    ensures var change := SetFields(WithoutIdentifiers(FromCheckout(c)));
            Apply(Apply(t, change), change) == Apply(t, change) && Apply(t, change).status == c.status
  {
  }

  lemma SecondWriteIsSame(w: World, c: Checkout)
    requires WellKeyed(w.store) && c.uuid in OnUpdate(w, c).store
    ensures var w1 := OnUpdate(w, c);
            && Apply(w1.store[c.uuid], SetFields(WithoutIdentifiers(FromCheckout(c)))) == w1.store[c.uuid]
            && w1.store[c.uuid].status == c.status
            && c.uuid in w1.index && w1.index[c.uuid] == Pack(w1.store[c.uuid])
  {
    if c.uuid in w.store {
      UpdateOfStored(w, c);
      WritingTwice(w.store[c.uuid], c);
    } else {
      WritingTwice(Blank(c.uuid, c.id), c);
    }
  }

  lemma CompletedStores(w: World, id: string, m: Message, uuid: string)
    requires uuid in w.store && id in w.store
    ensures var w' := OnCompleted(w, id, m);
            && uuid in w'.store
            && w'.store[uuid] == if uuid == id then w.store[uuid].(history := w.store[uuid].history + [ToEntry(m)])
                                 else w.store[uuid]
  {
  }

  lemma CompletedWrites(w: World, id: string, m: Message, uuid: string)
    requires uuid in w.store && id in w.store
    ensures var w' := OnCompleted(w, id, m);
            && uuid in w'.store
            && w'.store[uuid].history == w.store[uuid].history + (if uuid == id then [ToEntry(m)] else [])
            && w'.outbox == w.outbox + SubtractEvents(w.store, id, m)
  {
  }

  /** The message of an action that runs on the stored document. */
  function MessageOf(w: World, s: Step): Message
    requires s.ActionStep? && s.uuid in w.store
    requires ActionRuns(w, w.store[s.uuid], s.fields, s.action, s.skipValidation, s.rpc)
  {
    var t := w.store[s.uuid];
    MessageAfter(OnRpcResult(w, t, s.rpc), t, s.fields, s.action, s.rpc)
  }

  lemma ActionWrites(w: World, s: Step, uuid: string)
    requires WellKeyed(w.store) && uuid in w.store && s.ActionStep? && s.uuid in w.store
    requires ActionRuns(w, w.store[s.uuid], s.fields, s.action, s.skipValidation, s.rpc)
    ensures var w' := Next(w, s);
            && uuid in w'.store
            && w'.store[uuid].history ==
               w.store[uuid].history + (if uuid == s.uuid then [ToEntry(MessageOf(w, s))] else [])
  {
    var t := w.store[s.uuid];
    var w1 := OnRpcResult(w, t, s.rpc);
    RpcKeepsHistory(w, t, s.rpc, uuid);
    RpcKeepsHistory(w, t, s.rpc, s.uuid);
    assert Next(w, s) == OnCompleted(w1, s.uuid, MessageOf(w, s));
    CompletedWrites(w1, s.uuid, MessageOf(w, s), uuid);
  }

  /** An action that is not recorded leaves the history and sends nothing. */
  lemma UnrecordedAction(w: World, s: Step, uuid: string)
    requires uuid in w.store && s.ActionStep?
    requires s.uuid !in w.store || !ActionRuns(w, w.store[s.uuid], s.fields, s.action, s.skipValidation, s.rpc)
    ensures var w' := Next(w, s);
            && uuid in w'.store && w'.store[uuid].history == w.store[uuid].history
            && w'.store[uuid].total == w.store[uuid].total
            && Sent(w, s) == []
  {
    if s.uuid in w.store {
      RpcKeepsHistory(w, w.store[s.uuid], s.rpc, uuid);
    }
  }

  lemma ActionSends(w: World, s: Step)
    requires WellKeyed(w.store) && s.ActionStep? && s.uuid in w.store
    requires ActionRuns(w, w.store[s.uuid], s.fields, s.action, s.skipValidation, s.rpc)
    ensures Sent(w, s) == if s.action == Refund then [SubtractEvent(s.uuid, MessageOf(w, s).amount)] else []
    ensures MessageOf(w, s).action == s.action
  {
    RpcKeepsHistory(w, w.store[s.uuid], s.rpc, s.uuid);
  }

  /** The entry and the subtract message of one action weigh the same. */
  lemma EntryAndEvent(history: seq<HistoryEntry>, m: Message, id: string, uuid: string)
    ensures SumOf(RefundActions, history + (if uuid == id then [ToEntry(m)] else [])) ==
            SumOf(RefundActions, history)
            + Total(Subtracted, if m.action == Refund then [SubtractEvent(id, m.amount)] else [], uuid)
  {
    SumOfPush(RefundActions, history, ToEntry(m));
    assert history + [] == history;
    TotalOne(Subtracted, SubtractEvent(id, m.amount), uuid);
  }

  lemma ActionRefund(w: World, s: Step, uuid: string)
    requires WellKeyed(w.store) && uuid in w.store && s.ActionStep?
    ensures var w' := Next(w, s);
            && uuid in w'.store
            && SumOf(RefundActions, w'.store[uuid].history) ==
               SumOf(RefundActions, w.store[uuid].history) + Total(Subtracted, Sent(w, s), uuid)
  {
    if s.uuid in w.store && ActionRuns(w, w.store[s.uuid], s.fields, s.action, s.skipValidation, s.rpc) {
      var m := MessageOf(w, s);
      ActionWrites(w, s, uuid);
      ActionSends(w, s);
      EntryAndEvent(w.store[uuid].history, m, s.uuid, uuid);
    } else {
      UnrecordedAction(w, s, uuid);
    }
  }

  lemma BusRefund(w: World, s: Step, uuid: string)
    requires WellKeyed(w.store) && uuid in w.store
    requires s.BusCompletedStep? || s.BusHistoryStep?
    ensures var w' := Next(w, s);
            && uuid in w'.store
            && SumOf(RefundActions, w'.store[uuid].history) == SumOf(RefundActions, w.store[uuid].history)
  {
    BusStep(w, s, uuid);
    SumOfPush(RefundActions, w.store[uuid].history, ToEntry(s.m));
  }

  lemma StepRefund(w: World, s: Step, uuid: string)
    requires WellKeyed(w.store) && uuid in w.store && !Disturbs(s, uuid)
    ensures var w' := Next(w, s);
            && uuid in w'.store
            && SumOf(RefundActions, w'.store[uuid].history) ==
               SumOf(RefundActions, w.store[uuid].history) + Total(Subtracted, Sent(w, s), uuid)
  {
    match s
    case ActionStep(_, _, _, _, _) => ActionRefund(w, s, uuid);
    case BusCompletedStep(_, _) => BusRefund(w, s, uuid);
    case BusHistoryStep(_, _) => BusRefund(w, s, uuid);
    case NoteStep(u, note) => NoteRefund(w, u, note, uuid);
    case RefreshStep(_, _) => RefreshWrites(w, s, uuid);
    case UpdateStep(c) =>
      UpdateTally(w, c, uuid);
      UpdateWrites(w, c, uuid);
    case MigrateStep(c) => OtherMigration(w, c, uuid);
    case _ => QuietStep(w, s, uuid);
  }

  lemma OtherMigration(w: World, c: Checkout, uuid: string)
    requires WellKeyed(w.store) && uuid in w.store && uuid != c.uuid
    ensures var w' := OnMigrate(w, c);
            && uuid in w'.store && w'.store[uuid] == w.store[uuid]
            && (forall k: Tally :: Total(k, Sent(w, MigrateStep(c)), uuid) == 0.0)
  {
    MigrateMirrors(w, c);
    var sent := Sent(w, MigrateStep(c));
    if sent != [] {
      assert sent == [sent[0]];
      forall k: Tally ensures Total(k, sent, uuid) == 0.0 {
        TotalOne(k, sent[0], uuid);
      }
    }
  }

  /**
    Each refund is counted once: in every run that mixes actions with bus messages announcing the same
    actions again, the subtracted amounts add up to the refund entries the history gained.
  */
  lemma {:induction false} RefundsCountedOnce(w: World, steps: seq<Step>, uuid: string)
    requires WellKeyed(w.store) && uuid in w.store
    requires forall s | s in steps :: !Disturbs(s, uuid)
    ensures var w' := Run(w, steps);
            && uuid in w'.store
            && Total(Subtracted, w'.outbox, uuid) - Total(Subtracted, w.outbox, uuid) ==
               SumOf(RefundActions, w'.store[uuid].history) - SumOf(RefundActions, w.store[uuid].history)
  {
    if steps != [] {
      var prefix, last := steps[..|steps| - 1], steps[|steps| - 1];
      RefundsCountedOnce(w, prefix, uuid);
      RunKeepsKeys(w, prefix);
      var before := Run(w, prefix);
      SentIsAppended(before, last);
      TotalAppend(Subtracted, before.outbox, Sent(before, last), uuid);
      StepRefund(before, last, uuid);
    }
  }

  /** Every message that carries an amount for this document carries the same one. */
  predicate KeepsAmount(s: Step, uuid: string, amount: real) {
    match s
    case UpdateStep(c) => c.uuid == uuid ==> c.amount == amount
    case ActionStep(u, _, _, _, rpc) => u == uuid && rpc.PaymentResult? ==> rpc.amount == Some(amount)
    case RefreshStep(u, rpc) => u == uuid && rpc.PaymentResult? ==> rpc.amount == Some(amount)
    case _ => true
  }

  lemma ActionKeepsAmount(w: World, s: Step, uuid: string)
    requires WellKeyed(w.store) && uuid in w.store && s.ActionStep?
    requires KeepsAmount(s, uuid, w.store[uuid].amount)
    ensures uuid in Next(w, s).store && Next(w, s).store[uuid].amount == w.store[uuid].amount
  {
    if s.uuid in w.store {
      var t := w.store[s.uuid];
      RpcAmount(w, t, s.rpc, uuid);
      RpcKeepsHistory(w, t, s.rpc, s.uuid);
      if ActionRuns(w, t, s.fields, s.action, s.skipValidation, s.rpc) {
        CompletedStores(OnRpcResult(w, t, s.rpc), s.uuid, MessageOf(w, s), uuid);
        assert Next(w, s) == OnCompleted(OnRpcResult(w, t, s.rpc), s.uuid, MessageOf(w, s));
      } else {
        assert Next(w, s) in {w, OnRpcResult(w, t, s.rpc)};
      }
    }
  }

  lemma NoteRefund(w: World, id: string, note: Note, uuid: string)
    requires uuid in w.store
    ensures var w' := OnNote(w, id, note);
            uuid in w'.store
            && SumOf(RefundActions, w'.store[uuid].history) == SumOf(RefundActions, w.store[uuid].history)
  {
    NoteWrites(w, id, note, uuid);
    SumOfPush(RefundActions, w.store[uuid].history, ToEntry(NoteMessage(note)));
  }

  lemma StepKeepsAmount(w: World, s: Step, uuid: string)
    requires WellKeyed(w.store) && uuid in w.store && !Disturbs(s, uuid)
    requires KeepsAmount(s, uuid, w.store[uuid].amount)
    ensures uuid in Next(w, s).store && Next(w, s).store[uuid].amount == w.store[uuid].amount
  {
    match s
    case UpdateStep(c) => UpdateWrites(w, c, uuid);
    case MigrateStep(c) => OtherMigration(w, c, uuid);
    case ActionStep(_, _, _, _, _) => ActionKeepsAmount(w, s, uuid);
    case BusCompletedStep(_, _) => BusStep(w, s, uuid);
    case BusHistoryStep(_, _) => BusStep(w, s, uuid);
    case NoteStep(u, note) => NoteWrites(w, u, note, uuid);
    case RefreshStep(u, rpc) => if u in w.store { RpcAmount(w, w.store[u], WithoutItems(rpc), uuid); }
    case _ => QuietStep(w, s, uuid);
  }

  lemma RpcAmount(w: World, t: Transaction, rpc: RpcOutcome, uuid: string)
    requires uuid in w.store && (t.uuid == uuid && rpc.PaymentResult? ==> rpc.amount == Some(w.store[uuid].amount))
    ensures var w' := OnRpcResult(w, t, rpc);
            uuid in w'.store && w'.store[uuid].amount == w.store[uuid].amount
  {
  }

  /** n times the amount. */
  function Times(n: nat, a: real): real {
    if n == 0 then 0.0 else Times(n - 1, a) + a
  }

  lemma StepAdds(w: World, s: Step, uuid: string)
    requires WellKeyed(w.store) && uuid in w.store && !Disturbs(s, uuid)
    requires KeepsAmount(s, uuid, w.store[uuid].amount)
    ensures Total(Added, Sent(w, s), uuid) ==
            if MovesInto(w, s, uuid, Accepted) then w.store[uuid].amount else 0.0
  {
    if s.UpdateStep? {
      UpdateTally(w, s.c, uuid);
      UpdateEnters(w, s.c, uuid, Accepted);
    } else if s.MigrateStep? {
      OtherMigration(w, s.c, uuid);
    } else {
      OtherTally(w, s, uuid);
    }
  }

  lemma AddedByStep(w: World, s: Step, uuid: string)
    requires WellKeyed(w.store) && uuid in w.store && !Disturbs(s, uuid)
    requires KeepsAmount(s, uuid, w.store[uuid].amount)
    ensures var w' := Next(w, s);
            && uuid in w'.store && w'.store[uuid].amount == w.store[uuid].amount
            && Total(Added, w'.outbox, uuid) == Total(Added, w.outbox, uuid)
               + if MovesInto(w, s, uuid, Accepted) then w.store[uuid].amount else 0.0
  {
    SentIsAppended(w, s);
    TotalAppend(Added, w.outbox, Sent(w, s), uuid);
    StepKeepsAmount(w, s, uuid);
    StepAdds(w, s, uuid);
  }

  /** Once more an entry, once more the amount. */
  lemma TimesCountPush(marks: seq<bool>, mark: bool, amount: real)
    ensures Times(Count(marks + [mark]), amount) == Times(Count(marks), amount) + if mark then amount else 0.0
  {
    CountPush(marks, mark);
  }

  lemma {:induction false} AddedUp(w: World, steps: seq<Step>, uuid: string)
    requires WellKeyed(w.store) && uuid in w.store
    requires forall s | s in steps :: !Disturbs(s, uuid) && KeepsAmount(s, uuid, w.store[uuid].amount)
    ensures var w' := Run(w, steps);
            && uuid in w'.store && w'.store[uuid].amount == w.store[uuid].amount
            && Total(Added, w'.outbox, uuid) ==
               Total(Added, w.outbox, uuid) + Times(Count(Moves(w, steps, uuid, Accepted)), w.store[uuid].amount)
  {
    if steps != [] {
      var prefix, last := steps[..|steps| - 1], steps[|steps| - 1];
      AddedUp(w, prefix, uuid);
      RunKeepsKeys(w, prefix);
      AddedByStep(Run(w, prefix), last, uuid);
      TimesCountPush(Moves(w, prefix, uuid, Accepted), MovesInto(Run(w, prefix), last, uuid, Accepted), w.store[uuid].amount);
    }
  }

  lemma AddedIsAmountPerEntry(w: World, steps: seq<Step>, uuid: string)
    requires WellKeyed(w.store) && uuid in w.store
    requires forall s | s in steps :: !Disturbs(s, uuid) && KeepsAmount(s, uuid, w.store[uuid].amount)
    ensures var w' := Run(w, steps);
            && uuid in w'.store && w'.store[uuid].amount == w.store[uuid].amount
            && Total(Added, w'.outbox, uuid) ==
               Total(Added, w.outbox, uuid)
               + Times(Entries(w, steps, uuid, Accepted), w.store[uuid].amount)
  {
    AddedUp(w, steps, uuid);
  }

  lemma {:induction false} TimesIsProduct(n: nat, a: real)
    ensures Times(n, a) == n as real * a
  {
    if n > 0 {
      TimesIsProduct(n - 1, a);
      assert n as real * a == (n - 1) as real * a + a;
    }
  }

  lemma TimesIsOnce(n: nat, a: real)
    ensures Times(n, a) == a <==> n == 1 || a == 0.0
  {
    TimesIsProduct(n, a);
    assert n as real * a - a == (n as real - 1.0) * a;
  }

  /** Every refund entry carries its amount. */
  predicate Priced(history: seq<HistoryEntry>) {
    forall e | e in history :: e.action == Refund ==> e.amount.Some?
  }

  /** The migration total is a number exactly when every refund entry carries its amount. */
  lemma {:induction false} PricedSum(history: seq<HistoryEntry>)
    ensures RefundedNumber(history) == if Priced(history) then Some(SumOf(RefundActions, history)) else None
  {
    if history != [] {
      var prefix, last := history[..|history| - 1], history[|history| - 1];
      PricedSum(prefix);
      assert forall e :: e in history <==> e in prefix || e == last;
    }
  }

  lemma PushPriced(history: seq<HistoryEntry>, m: Message)
    requires Priced(history)
    ensures m.action != Refund || m.amount.Some? ==> Priced(history + [ToEntry(m)])
    ensures history + [] == history
  {
  }

  lemma ActionPriced(w: World, s: Step, uuid: string)
    requires WellKeyed(w.store) && uuid in w.store && s.ActionStep? && Priced(w.store[uuid].history)
    ensures uuid in Next(w, s).store && Priced(Next(w, s).store[uuid].history)
  {
    if s.uuid in w.store && ActionRuns(w, w.store[s.uuid], s.fields, s.action, s.skipValidation, s.rpc) {
      ActionWrites(w, s, uuid);
      PushPriced(w.store[uuid].history, MessageOf(w, s));
    } else {
      UnrecordedAction(w, s, uuid);
    }
  }

  lemma MessagePriced(w: World, s: Step, uuid: string)
    requires uuid in w.store && Priced(w.store[uuid].history)
    requires s.BusCompletedStep? || s.BusHistoryStep? || s.NoteStep?
    ensures uuid in Next(w, s).store && Priced(Next(w, s).store[uuid].history)
  {
    if s.NoteStep? {
      NoteWrites(w, s.uuid, s.note, uuid);
      PushPriced(w.store[uuid].history, NoteMessage(s.note));
    } else {
      BusStep(w, s, uuid);
      PushPriced(w.store[uuid].history, s.m);
    }
  }

  lemma StepPriced(w: World, s: Step, uuid: string)
    requires WellKeyed(w.store) && uuid in w.store && !Disturbs(s, uuid) && Priced(w.store[uuid].history)
    ensures uuid in Next(w, s).store && Priced(Next(w, s).store[uuid].history)
  {
    match s
    case ActionStep(_, _, _, _, _) => ActionPriced(w, s, uuid);
    case BusCompletedStep(_, _) => MessagePriced(w, s, uuid);
    case BusHistoryStep(_, _) => MessagePriced(w, s, uuid);
    case NoteStep(_, _) => MessagePriced(w, s, uuid);
    case RefreshStep(_, _) => RefreshWrites(w, s, uuid);
    case UpdateStep(c) => UpdateWrites(w, c, uuid);
    case MigrateStep(c) => OtherMigration(w, c, uuid);
    case _ => QuietStep(w, s, uuid);
  }

  /** Only a migration brings in refund entries without amount. */
  lemma {:induction false} RunStaysPriced(w: World, steps: seq<Step>, uuid: string)
    requires WellKeyed(w.store) && uuid in w.store && Priced(w.store[uuid].history)
    requires forall s | s in steps :: !Disturbs(s, uuid)
    ensures uuid in Run(w, steps).store && Priced(Run(w, steps).store[uuid].history)
  {
    if steps != [] {
      var prefix := steps[..|steps| - 1];
      RunStaysPriced(w, prefix, uuid);
      RunKeepsKeys(w, prefix);
      StepPriced(Run(w, prefix), steps[|steps| - 1], uuid);
    }
  }

  /** What a migration announces of a REFUNDED document. */
  lemma MigrationAnnounces(t: Transaction)
    requires t.status == Refunded
    ensures MigratedEvents(t) ==
            [AddEvent(t.uuid, if Priced(t.history) then Some(t.amount - SumOf(RefundActions, t.history)) else None)]
  {
    PricedSum(t.history);
  }

  lemma RunPricedExactly(w: World, steps: seq<Step>, uuid: string)
    requires WellKeyed(w.store) && uuid in w.store
    requires forall s | s in steps :: !Disturbs(s, uuid)
    ensures uuid in Run(w, steps).store
    ensures Priced(Run(w, steps).store[uuid].history) <==> Priced(w.store[uuid].history)
  {
    RunExtends(w, steps, uuid);
    if Priced(w.store[uuid].history) {
      RunStaysPriced(w, steps, uuid);
    } else {
      var e :| e in w.store[uuid].history && e.action == Refund && e.amount.None?;
      assert e in Run(w, steps).store[uuid].history;
    }
  }

  /** Amounts added minus amounts subtracted. */
  function Net(events: seq<Event>, uuid: string): real {
    Total(Added, events, uuid) - Total(Subtracted, events, uuid)
  }

  /** The end of such a run: its last document, and what was sent about it. */
  lemma AgreementOf(t: Transaction, priced: bool, amount: real, n: nat, net: real)
    requires t.status == Refunded && t.amount == amount && (Priced(t.history) <==> priced)
    requires net == Times(n, amount) - SumOf(RefundActions, t.history)
    ensures MigratedEvents(t) == [AddEvent(t.uuid, Some(net))] <==> priced && (n == 1 || amount == 0.0)
  {
    MigrationAnnounces(t);
    TimesIsOnce(n, amount);
  }

  lemma NetOfRun(w: World, steps: seq<Step>, uuid: string)
    requires WellKeyed(w.store) && uuid in w.store
    requires forall s | s in steps :: !Disturbs(s, uuid) && KeepsAmount(s, uuid, w.store[uuid].amount)
    requires Net(w.outbox, uuid) == 0.0 && SumOf(RefundActions, w.store[uuid].history) == 0.0
    ensures var w' := Run(w, steps);
            && uuid in w'.store && w'.store[uuid].amount == w.store[uuid].amount
            && Net(w'.outbox, uuid) == Times(Entries(w, steps, uuid, Accepted), w.store[uuid].amount)
                                       - SumOf(RefundActions, w'.store[uuid].history)
  {
    AddedIsAmountPerEntry(w, steps, uuid);
    RefundsCountedOnce(w, steps, uuid);
  }

  /** A migration writes what it announces. */
  lemma MigratedState(w: World, c: Checkout)
    requires WellKeyed(w.store) && c.uuid in OnMigrate(w, c).store
    ensures var t := OnMigrate(w, c).store[c.uuid];
            t.uuid == c.uuid && t.status == c.status && t.amount == c.amount && t.history == c.history
  {
    MigrateMirrors(w, c);
  }

  /**
    Live and migrated statistics agree.  A document that keeps its amount and ends REFUNDED has sent,
    over the whole run, exactly what a migration of it announces, wherever it is migrated to, if and only
    if every refund entry it started with carries an amount and it entered ACCEPTED exactly once by update
    events (or its amount is zero).
  */
  lemma LiveAgreesWithMigration(w: World, steps: seq<Step>, uuid: string, target: World, c: Checkout)
    requires WellKeyed(w.store) && uuid in w.store
    requires forall s | s in steps :: !Disturbs(s, uuid) && KeepsAmount(s, uuid, w.store[uuid].amount)
    requires Net(w.outbox, uuid) == 0.0 && SumOf(RefundActions, w.store[uuid].history) == 0.0
    requires uuid in Run(w, steps).store && Run(w, steps).store[uuid].status == Refunded
    requires WellKeyed(target.store) && c.uuid == uuid && uuid in OnMigrate(target, c).store
    requires var t := Run(w, steps).store[uuid];
             c.status == t.status && c.amount == t.amount && c.history == t.history
    ensures OnMigrate(target, c).outbox == target.outbox + [AddEvent(uuid, Some(Net(Run(w, steps).outbox, uuid)))]
            <==> Priced(w.store[uuid].history)
                 && (Entries(w, steps, uuid, Accepted) == 1 || w.store[uuid].amount == 0.0)
  {
    NetOfRun(w, steps, uuid);
    RunPricedExactly(w, steps, uuid);
    MigratedState(target, c);
    MigrationSends(target, c);
    AgreementOf(OnMigrate(target, c).store[uuid], Priced(w.store[uuid].history), w.store[uuid].amount,
                Entries(w, steps, uuid, Accepted), Net(Run(w, steps).outbox, uuid));
    SameTail(target.outbox, MigratedEvents(OnMigrate(target, c).store[uuid]),
             [AddEvent(uuid, Some(Net(Run(w, steps).outbox, uuid)))]);
  }

  lemma SameTail(a: seq<Event>, b: seq<Event>, c: seq<Event>)
    ensures a + b == a + c <==> b == c
  {
    if a + b == a + c {
      assert b == (a + b)[|a|..] && c == (a + c)[|a|..];
    }
  }

  // ---- internal refunds ----

  /** An update moves a stored document from PAID to REFUNDED, or cancels it whatever its status is. */
  predicate RefundsInternally(w: World, s: Step, uuid: string) {
    && s.UpdateStep? && s.c.uuid == uuid && uuid in w.store
    && ((w.store[uuid].status == Paid && s.c.status == Refunded) || s.c.status == Cancelled)
  }

  function InternalRefunds(w: World, steps: seq<Step>, uuid: string): nat {
    if steps == [] then 0
    else
      var before, last := Run(w, steps[..|steps| - 1]), steps[|steps| - 1];
      InternalRefunds(w, steps[..|steps| - 1], uuid) + if RefundsInternally(before, last, uuid) then 1 else 0
  }

  lemma InternalByStep(w: World, s: Step, uuid: string)
    requires WellKeyed(w.store)
    ensures Total(Internals, Sent(w, s), uuid) == if RefundsInternally(w, s, uuid) then 1.0 else 0.0
  {
    if Sent(w, s) != [] {
      assert |Sent(w, s)| == 1 by {
        if s.UpdateStep? {
          var e := AnnouncedBy(w, s.c);
        }
      }
      assert Sent(w, s) == [Sent(w, s)[0]];
      TotalOne(Internals, Sent(w, s)[0], uuid);
    }
  }

  /** In every run: the internal refund messages are the moves from PAID to REFUNDED plus the cancellations. */
  lemma {:induction false} InternalRefundsCounted(w: World, steps: seq<Step>, uuid: string)
    requires WellKeyed(w.store)
    ensures Total(Internals, Run(w, steps).outbox, uuid) ==
            Total(Internals, w.outbox, uuid) + InternalRefunds(w, steps, uuid) as real
  {
    if steps != [] {
      var prefix, last := steps[..|steps| - 1], steps[|steps| - 1];
      InternalRefundsCounted(w, prefix, uuid);
      RunKeepsKeys(w, prefix);
      SentIsAppended(Run(w, prefix), last);
      TotalAppend(Internals, Run(w, prefix).outbox, Sent(Run(w, prefix), last), uuid);
      InternalByStep(Run(w, prefix), last, uuid);
    }
  }
}
