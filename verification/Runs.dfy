/** Serial runs of the service, and what every run keeps: the index mirrors the store. */
module Runs {
  import opened ActionPayloads
  import opened DoubleConverter
  import opened Transactions
  import opened Worlds
  import opened Wrappers

  datatype Step =
    | CreateStep(c: Checkout)
    | UpdateStep(c: Checkout)
    | MigrateStep(c: Checkout)
    | RemoveStep(uuid: string)
    | ShippedStep(uuid: string)
    | BusCompletedStep(uuid: string, m: Message)
    | BusHistoryStep(uuid: string, m: Message)
    | NoteStep(uuid: string, note: Note)
    | RefreshStep(uuid: string, rpc: RpcOutcome)
    | ActionStep(uuid: string, fields: Option<Fields>, action: Action, skipValidation: bool, rpc: RpcOutcome)

  /** Action and status update steps load the document, as the controllers do, right before they run. */
  function Next(w: World, s: Step): World {
    match s
    case CreateStep(c) => OnCreate(w, c)
    case UpdateStep(c) => OnUpdate(w, c)
    case MigrateStep(c) => OnMigrate(w, c)
    case RemoveStep(u) => RemoveByUuid(w, u)
    case ShippedStep(u) => MarkShipped(w, u)
    case BusCompletedStep(u, m) => OnBusCompleted(w, u, m)
    case BusHistoryStep(u, m) => OnBusHistory(w, u, m)
    case NoteStep(u, note) => OnNote(w, u, note)
    case RefreshStep(u, rpc) => if u in w.store then OnRefresh(w, w.store[u], rpc) else w
    case ActionStep(u, fields, action, skip, rpc) =>
      if u in w.store then DoAction(w, w.store[u], fields, action, skip, rpc) else w
  }

  function Run(w: World, steps: seq<Step>): World {
    if steps == [] then w else Next(Run(w, steps[..|steps| - 1]), steps[|steps| - 1])
  }

  ghost predicate WellKeyed(store: map<string, Transaction>) {
    forall u | u in store :: store[u].uuid == u
  }

  /** The index is the store mapped through pack. */
  ghost predicate Mirrored(w: World) {
    && WellKeyed(w.store)
    && w.index.Keys == w.store.Keys
    && forall u | u in w.store :: w.index[u] == Pack(w.store[u])
  }

  /** The same, except that a shipping flag may be set in the store and not yet in the index. */
  ghost predicate Follows(w: World) {
    && WellKeyed(w.store)
    && w.index.Keys == w.store.Keys
    && forall u | u in w.store ::
         && w.index[u].(shippingProcessed := false) == Pack(w.store[u]).(shippingProcessed := false)
         && (w.index[u].shippingProcessed ==> w.store[u].shippingProcessed)
  }

  lemma PackKeepsTheRest(t: Transaction)
    ensures Pack(t).uuid == t.uuid && Pack(t).shippingProcessed == t.shippingProcessed
  {
  }

  lemma WriteMirrored(w: World, uuid: string, t: Transaction)
    requires t.uuid == uuid && Mirrored(w)
    ensures Mirrored(Indexed(Stored(w, uuid, t), t))
  {
  }

  lemma WriteFollows(w: World, uuid: string, t: Transaction)
    requires t.uuid == uuid && Follows(w)
    ensures Follows(Indexed(Stored(w, uuid, t), t))
  {
    PackKeepsTheRest(t);
  }

  /** Writing a document and indexing it keeps both correspondences. */
  lemma WriteMirrors(w: World, uuid: string, t: Transaction)
    requires t.uuid == uuid
    ensures Mirrored(w) ==> Mirrored(Indexed(Stored(w, uuid, t), t))
    ensures Follows(w) ==> Follows(Indexed(Stored(w, uuid, t), t))
    ensures WellKeyed(w.store) ==> WellKeyed(Stored(w, uuid, t).store)
  {
    if Mirrored(w) {
      WriteMirrored(w, uuid, t);
    }
    if Follows(w) {
      WriteFollows(w, uuid, t);
    }
  }

  lemma InsertMirrors(w: World, uuid: string, originalId: Option<string>, dto: Dto)
    ensures Mirrored(w) ==> Mirrored(Insert(w, uuid, originalId, dto))
    ensures Follows(w) ==> Follows(Insert(w, uuid, originalId, dto))
    ensures WellKeyed(w.store) ==> WellKeyed(Insert(w, uuid, originalId, dto).store)
  {
    WriteMirrors(w, uuid, Apply(Blank(uuid, originalId), SetFields(dto)));
  }

  lemma ApplyKeepsIdentity(t: Transaction, c: Change)
    ensures Apply(t, c).uuid == t.uuid && Apply(t, c).originalId == t.originalId
  {
  }

  lemma ModifyMirrors(w: World, uuid: string, c: Change)
    ensures Mirrored(w) ==> Mirrored(Modify(w, uuid, c))
    ensures Follows(w) ==> Follows(Modify(w, uuid, c))
    ensures WellKeyed(w.store) ==> WellKeyed(Modify(w, uuid, c).store)
  {
    if uuid in w.store && w.store[uuid].uuid == uuid {
      ApplyKeepsIdentity(w.store[uuid], c);
      WriteMirrors(w, uuid, Apply(w.store[uuid], c));
    }
  }

  lemma OutboxApart(w: World, outbox: seq<Event>)
    ensures Mirrored(w) <==> Mirrored(w.(outbox := outbox))
    ensures Follows(w) <==> Follows(w.(outbox := outbox))
  {
  }

  lemma UpdateMirrors(w: World, uuid: string, dto: Dto)
    ensures Mirrored(w) ==> Mirrored(UpdateByUuid(w, uuid, dto))
    ensures Follows(w) ==> Follows(UpdateByUuid(w, uuid, dto))
    ensures WellKeyed(w.store) ==> WellKeyed(UpdateByUuid(w, uuid, dto).store)
  {
    ModifyMirrors(w, uuid, SetFields(WithoutIdentifiers(dto)));
    InsertMirrors(w, uuid, dto.id, WithoutIdentifiers(dto));
  }

  lemma MigrateMirrors(w: World, c: Checkout)
    ensures Mirrored(w) ==> Mirrored(OnMigrate(w, c))
    ensures Follows(w) ==> Follows(OnMigrate(w, c))
    ensures WellKeyed(w.store) ==> WellKeyed(OnMigrate(w, c).store)
  {
    UpdateMirrors(w, c.uuid, FromCheckout(c));
    InsertMirrors(w, c.uuid, c.id, FromCheckout(c));
    var w1 := if c.uuid in w.store then UpdateByUuid(w, c.uuid, FromCheckout(c)) else OnCreate(w, c);
    var w2 := Modify(w1, c.uuid, SetHistory(c.history));
    ModifyMirrors(w1, c.uuid, SetHistory(c.history));
    OutboxApart(w2, OnMigrate(w, c).outbox);
    assert OnMigrate(w, c) == if c.uuid in w1.store then w2.(outbox := OnMigrate(w, c).outbox) else w1;
  }

  lemma RpcMirrors(w: World, t: Transaction, rpc: RpcOutcome)
    ensures Mirrored(w) ==> Mirrored(OnRpcResult(w, t, rpc))
    ensures Follows(w) ==> Follows(OnRpcResult(w, t, rpc))
    ensures WellKeyed(w.store) ==> WellKeyed(OnRpcResult(w, t, rpc).store)
  {
    if Usable(rpc) {
      match rpc
      case PaymentResult(amount, fee, status, specific, items, _) =>
        var change := SetPayment(amount.value, fee, status, specific);
        ModifyMirrors(w, t.uuid, change);
        if items.Some? {
          ModifyMirrors(Modify(w, t.uuid, change), t.uuid, SetItems(items.value));
        }
      case ThirdPartyResult(status, specific) =>
        UpdateMirrors(w, t.uuid, ThirdPartyUpdate(t, status, specific));
    }
  }

  lemma RefreshMirrors(w: World, t: Transaction, rpc: RpcOutcome)
    ensures Mirrored(w) ==> Mirrored(OnRefresh(w, t, rpc))
    ensures Follows(w) ==> Follows(OnRefresh(w, t, rpc))
    ensures WellKeyed(w.store) ==> WellKeyed(OnRefresh(w, t, rpc).store)
  {
    RpcMirrors(w, t, WithoutItems(rpc));
    assert OnRefresh(w, t, rpc) in {w, OnRpcResult(w, t, WithoutItems(rpc))};
  }

  lemma CompletedMirrors(w: World, uuid: string, m: Message)
    ensures Mirrored(w) ==> Mirrored(OnCompleted(w, uuid, m))
    ensures Follows(w) ==> Follows(OnCompleted(w, uuid, m))
    ensures WellKeyed(w.store) ==> WellKeyed(OnCompleted(w, uuid, m).store)
  {
    ModifyMirrors(w, uuid, PushHistory(ToEntry(m)));
    OutboxApart(Modify(w, uuid, PushHistory(ToEntry(m))), OnCompleted(w, uuid, m).outbox);
  }

  lemma ActionMirrors(w: World, t: Transaction, fields: Option<Fields>, action: Action, skip: bool, rpc: RpcOutcome)
    ensures Mirrored(w) ==> Mirrored(DoAction(w, t, fields, action, skip, rpc))
    ensures Follows(w) ==> Follows(DoAction(w, t, fields, action, skip, rpc))
    ensures WellKeyed(w.store) ==> WellKeyed(DoAction(w, t, fields, action, skip, rpc).store)
  {
    RpcMirrors(w, t, rpc);
    if ActionRuns(w, t, fields, action, skip, rpc) {
      var w1 := OnRpcResult(w, t, rpc);
      var m := MessageAfter(w1, t, fields, action, rpc);
      CompletedMirrors(w1, t.uuid, m);
      assert DoAction(w, t, fields, action, skip, rpc) == OnCompleted(w1, t.uuid, m);
    } else {
      assert DoAction(w, t, fields, action, skip, rpc) in {w, OnRpcResult(w, t, rpc)};
    }
  }

  lemma UpdateEventMirrors(w: World, c: Checkout)
    ensures Mirrored(w) ==> Mirrored(OnUpdate(w, c))
    ensures Follows(w) ==> Follows(OnUpdate(w, c))
    ensures WellKeyed(w.store) ==> WellKeyed(OnUpdate(w, c).store)
  {
    var sent := w.(outbox := OnUpdate(w, c).outbox);
    OutboxApart(w, sent.outbox);
    UpdateMirrors(sent, c.uuid, FromCheckout(c));
    assert OnUpdate(w, c) == UpdateByUuid(sent, c.uuid, FromCheckout(c));
  }

  lemma RemoveMirrors(w: World, uuid: string)
    ensures Mirrored(w) ==> Mirrored(RemoveByUuid(w, uuid))
    ensures Follows(w) ==> Follows(RemoveByUuid(w, uuid))
    ensures WellKeyed(w.store) ==> WellKeyed(RemoveByUuid(w, uuid).store)
  {
  }

  lemma ShippingMarkFollows(w: World, uuid: string)
    ensures Follows(w) ==> Follows(MarkShipped(w, uuid))
    ensures WellKeyed(w.store) ==> WellKeyed(MarkShipped(w, uuid).store)
  {
  }

  lemma BusMirrors(w: World, uuid: string, m: Message)
    ensures Mirrored(w) ==> Mirrored(OnBusCompleted(w, uuid, m)) && Mirrored(OnBusHistory(w, uuid, m))
    ensures Follows(w) ==> Follows(OnBusCompleted(w, uuid, m)) && Follows(OnBusHistory(w, uuid, m))
    ensures WellKeyed(w.store) ==>
              WellKeyed(OnBusCompleted(w, uuid, m).store) && WellKeyed(OnBusHistory(w, uuid, m).store)
  {
    CompletedMirrors(w, uuid, m);
    ModifyMirrors(w, uuid, PushHistory(ToEntry(m)));
    assert OnBusCompleted(w, uuid, m) == w || OnBusCompleted(w, uuid, m) == OnCompleted(w, uuid, m);
    assert OnBusHistory(w, uuid, m) == w || OnBusHistory(w, uuid, m) == Modify(w, uuid, PushHistory(ToEntry(m)));
  }

  lemma MessageStepMirrors(w: World, s: Step)
    requires s.BusCompletedStep? || s.BusHistoryStep? || s.NoteStep?
    ensures Mirrored(w) ==> Mirrored(Next(w, s))
    ensures Follows(w) ==> Follows(Next(w, s))
    ensures WellKeyed(w.store) ==> WellKeyed(Next(w, s).store)
  {
    match s
    case BusCompletedStep(u, m) => BusMirrors(w, u, m);
    case BusHistoryStep(u, m) => BusMirrors(w, u, m);
    case NoteStep(u, note) => ModifyMirrors(w, u, PushHistory(ToEntry(NoteMessage(note))));
  }

  lemma LoadingStepMirrors(w: World, s: Step)
    requires s.RefreshStep? || s.ActionStep?
    ensures Mirrored(w) ==> Mirrored(Next(w, s))
    ensures Follows(w) ==> Follows(Next(w, s))
    ensures WellKeyed(w.store) ==> WellKeyed(Next(w, s).store)
  {
    if s.uuid !in w.store {
      assert Next(w, s) == w;
    } else if s.RefreshStep? {
      RefreshMirrors(w, w.store[s.uuid], s.rpc);
    } else {
      ActionMirrors(w, w.store[s.uuid], s.fields, s.action, s.skipValidation, s.rpc);
      assert Next(w, s) == DoAction(w, w.store[s.uuid], s.fields, s.action, s.skipValidation, s.rpc);
    }
  }

  lemma CheckoutStepMirrors(w: World, s: Step)
    requires s.CreateStep? || s.UpdateStep? || s.MigrateStep?
    ensures Mirrored(w) ==> Mirrored(Next(w, s))
    ensures Follows(w) ==> Follows(Next(w, s))
    ensures WellKeyed(w.store) ==> WellKeyed(Next(w, s).store)
  {
    match s
    case CreateStep(c) => InsertMirrors(w, c.uuid, c.id, FromCheckout(c));
    case UpdateStep(c) => UpdateEventMirrors(w, c);
    case MigrateStep(c) => MigrateMirrors(w, c);
  }

  lemma StepMirrors(w: World, s: Step)
    ensures Mirrored(w) && !s.ShippedStep? ==> Mirrored(Next(w, s))
    ensures Follows(w) ==> Follows(Next(w, s))
    ensures WellKeyed(w.store) ==> WellKeyed(Next(w, s).store)
  {
    match s
    case RemoveStep(u) => RemoveMirrors(w, u);
    case ShippedStep(u) => ShippingMarkFollows(w, u);
    case RefreshStep(_, _) => LoadingStepMirrors(w, s);
    case ActionStep(_, _, _, _, _) => LoadingStepMirrors(w, s);
    case CreateStep(_) => CheckoutStepMirrors(w, s);
    case UpdateStep(_) => CheckoutStepMirrors(w, s);
    case MigrateStep(_) => CheckoutStepMirrors(w, s);
    case _ => MessageStepMirrors(w, s);
  }

  /** Index refinement: a run that marks no shipping order keeps the index equal to the packed store. */
  lemma {:induction false} IndexMirrorsStore(w: World, steps: seq<Step>)
    requires Mirrored(w)
    requires forall s | s in steps :: !s.ShippedStep?
    ensures Mirrored(Run(w, steps))
  {
    if steps != [] {
      var before := steps[..|steps| - 1];
      IndexMirrorsStore(w, before);
      StepMirrors(Run(w, before), steps[|steps| - 1]);
    }
  }

  /** With shipping marks the flag is the only thing the index can lag behind on. */
  lemma {:induction false} IndexFollowsStore(w: World, steps: seq<Step>)
    requires Follows(w)
    ensures Follows(Run(w, steps))
  {
    if steps != [] {
      var before := steps[..|steps| - 1];
      IndexFollowsStore(w, before);
      StepMirrors(Run(w, before), steps[|steps| - 1]);
    }
  }

  lemma {:induction false} RunKeepsKeys(w: World, steps: seq<Step>)
    requires WellKeyed(w.store)
    ensures WellKeyed(Run(w, steps).store)
  {
    if steps != [] {
      var before := steps[..|steps| - 1];
      RunKeepsKeys(w, before);
      StepMirrors(Run(w, before), steps[|steps| - 1]);
    }
  }

  /** Exactly when marking a shipping order leaves the index exact: there was nothing to write. */
  lemma ShippingMarkExactlyKeeps(w: World, uuid: string)
    requires Mirrored(w)
    ensures Mirrored(Next(w, ShippedStep(uuid))) <==> uuid !in w.store || w.store[uuid].shippingProcessed
  {
    var w' := Next(w, ShippedStep(uuid));
    if uuid in w.store {
      assert w'.index[uuid].shippingProcessed == w.store[uuid].shippingProcessed;
      assert Pack(w'.store[uuid]).shippingProcessed;
      if w.store[uuid].shippingProcessed {
        assert w'.store == w.store;
      }
    }
  }

  // ---- one document at a time: when its index entry can be out of date ----

  ghost predicate ExactAt(w: World, uuid: string) {
    uuid in w.store ==> uuid in w.index && w.index[uuid] == Pack(w.store[uuid])
  }

  /** A status answer that is applied, and of a third party one that is news. */
  predicate Writes(t: Transaction, rpc: RpcOutcome) {
    && Usable(rpc)
    && (rpc.ThirdPartyResult? ==>
          ThirdPartyUpdate(t, rpc.newStatus, rpc.newSpecificStatus) != StatusDto(None, None))
  }

  /** A step that writes the document through the event dispatcher, or takes it away. */
  predicate Reindexes(w: World, s: Step, uuid: string) {
    match s
    case CreateStep(c) => c.uuid == uuid && Insertable(w.store, uuid, c.id)
    case UpdateStep(c) => c.uuid == uuid
    case MigrateStep(c) => c.uuid == uuid
    case RemoveStep(u) => u == uuid
    case ShippedStep(_) => false
    case BusCompletedStep(u, m) =>
      u == uuid && uuid in w.store && AllowedFromBus(m.action)
      && (m.action == Edit ==> w.store[uuid].paymentType == SANTANDER_POS_DE)
    case BusHistoryStep(u, m) => u == uuid && AllowedFromBus(m.action)
    case ActionStep(u, fields, action, skip, rpc) =>
      u == uuid && uuid in w.store && Reaches(w.store[uuid], fields, action, skip, rpc)
    case NoteStep(u, _) => u == uuid
    case RefreshStep(u, rpc) =>
      u == uuid && uuid in w.store && Refreshable(w.store[uuid], rpc) && Writes(w.store[uuid], rpc)
  }

  /** The last mark that set the flag of the document was not followed by a write of it. */
  predicate Lags(w: World, steps: seq<Step>, uuid: string) {
    steps != [] &&
    var before, last := Run(w, steps[..|steps| - 1]), steps[|steps| - 1];
    || (last == ShippedStep(uuid) && uuid in before.store && !before.store[uuid].shippingProcessed)
    || (Lags(w, steps[..|steps| - 1], uuid) && !Reindexes(before, last, uuid))
  }

  /** The flag is set in the store and not in the index. */
  ghost predicate StaleAt(w: World, uuid: string) {
    && uuid in w.store && uuid in w.index
    && w.store[uuid].shippingProcessed && !w.index[uuid].shippingProcessed
  }

  /** The document and its entry are what they were. */
  ghost predicate SameAt(w: World, w': World, uuid: string) {
    && (uuid in w.store <==> uuid in w'.store) && (uuid in w.index <==> uuid in w'.index)
    && (uuid in w.store ==> w.store[uuid] == w'.store[uuid])
    && (uuid in w.index ==> w.index[uuid] == w'.index[uuid])
  }

  lemma ModifyElsewhere(w: World, id: string, c: Change, uuid: string)
    requires WellKeyed(w.store) && id != uuid
    ensures SameAt(w, Modify(w, id, c), uuid)
  {
    if id in w.store {
      ApplyKeepsIdentity(w.store[id], c);
    }
  }

  lemma InsertElsewhere(w: World, id: string, originalId: Option<string>, dto: Dto, uuid: string)
    requires id != uuid || !Insertable(w.store, id, originalId)
    ensures SameAt(w, Insert(w, id, originalId, dto), uuid)
  {
    ApplyKeepsIdentity(Blank(id, originalId), SetFields(dto));
  }

  lemma UpdateElsewhere(w: World, id: string, dto: Dto, uuid: string)
    requires WellKeyed(w.store) && id != uuid
    ensures SameAt(w, UpdateByUuid(w, id, dto), uuid)
  {
    ModifyElsewhere(w, id, SetFields(WithoutIdentifiers(dto)), uuid);
    InsertElsewhere(w, id, dto.id, WithoutIdentifiers(dto), uuid);
  }

  lemma MigrateElsewhere(w: World, c: Checkout, uuid: string)
    requires WellKeyed(w.store) && c.uuid != uuid
    ensures SameAt(w, OnMigrate(w, c), uuid)
  {
    UpdateElsewhere(w, c.uuid, FromCheckout(c), uuid);
    UpdateMirrors(w, c.uuid, FromCheckout(c));
    InsertElsewhere(w, c.uuid, c.id, FromCheckout(c), uuid);
    InsertMirrors(w, c.uuid, c.id, FromCheckout(c));
    var w1 := if c.uuid in w.store then UpdateByUuid(w, c.uuid, FromCheckout(c)) else OnCreate(w, c);
    ModifyElsewhere(w1, c.uuid, SetHistory(c.history), uuid);
  }

  lemma RpcElsewhere(w: World, t: Transaction, rpc: RpcOutcome, uuid: string)
    requires WellKeyed(w.store) && t.uuid != uuid
    ensures SameAt(w, OnRpcResult(w, t, rpc), uuid)
  {
    if Usable(rpc) {
      match rpc
      case PaymentResult(amount, fee, status, specific, items, _) =>
        var change := SetPayment(amount.value, fee, status, specific);
        ModifyElsewhere(w, t.uuid, change, uuid);
        ModifyMirrors(w, t.uuid, change);
        if items.Some? {
          ModifyElsewhere(Modify(w, t.uuid, change), t.uuid, SetItems(items.value), uuid);
        }
      case ThirdPartyResult(status, specific) =>
        UpdateElsewhere(w, t.uuid, ThirdPartyUpdate(t, status, specific), uuid);
    }
  }

  lemma ActionElsewhere(w: World, t: Transaction, fields: Option<Fields>, action: Action, skip: bool, rpc: RpcOutcome,
                        uuid: string)
    requires WellKeyed(w.store) && (t.uuid != uuid || !Reaches(t, fields, action, skip, rpc))
    ensures SameAt(w, DoAction(w, t, fields, action, skip, rpc), uuid)
  {
    if Reaches(t, fields, action, skip, rpc) {
      var w1 := OnRpcResult(w, t, rpc);
      RpcElsewhere(w, t, rpc, uuid);
      RpcMirrors(w, t, rpc);
      if ActionRuns(w, t, fields, action, skip, rpc) {
        var m := MessageAfter(w1, t, fields, action, rpc);
        ModifyElsewhere(w1, t.uuid, PushHistory(ToEntry(m)), uuid);
        assert DoAction(w, t, fields, action, skip, rpc) == OnCompleted(w1, t.uuid, m);
      } else {
        assert DoAction(w, t, fields, action, skip, rpc) == w1;
      }
    } else {
      assert DoAction(w, t, fields, action, skip, rpc) == w;
    }
  }

  lemma RefreshElsewhere(w: World, t: Transaction, rpc: RpcOutcome, uuid: string)
    requires WellKeyed(w.store) && (t.uuid != uuid || !(Refreshable(t, rpc) && Writes(t, rpc)))
    ensures SameAt(w, OnRefresh(w, t, rpc), uuid)
  {
    if t.uuid != uuid {
      RpcElsewhere(w, t, WithoutItems(rpc), uuid);
    }
  }

  /** A step that neither writes nor marks the document leaves it and its entry alone. */
  lemma LeavesAlone(w: World, s: Step, uuid: string)
    requires WellKeyed(w.store) && uuid in w.store
    requires !Reindexes(w, s, uuid) && s != ShippedStep(uuid)
    ensures SameAt(w, Next(w, s), uuid)
  {
    match s
    case CreateStep(c) => InsertElsewhere(w, c.uuid, c.id, FromCheckout(c), uuid);
    case UpdateStep(c) =>
      UpdateElsewhere(w.(outbox := w.outbox + UpdateEvents(w, c)), c.uuid, FromCheckout(c), uuid);
    case MigrateStep(c) => MigrateElsewhere(w, c, uuid);
    case BusCompletedStep(u, m) => if u != uuid { ModifyElsewhere(w, u, PushHistory(ToEntry(m)), uuid); }
    case BusHistoryStep(u, m) => if u != uuid { ModifyElsewhere(w, u, PushHistory(ToEntry(m)), uuid); }
    case ActionStep(u, fields, action, skip, rpc) =>
      if u in w.store {
        ActionElsewhere(w, w.store[u], fields, action, skip, rpc, uuid);
      }
    case NoteStep(u, note) => ModifyElsewhere(w, u, PushHistory(ToEntry(NoteMessage(note))), uuid);
    case RefreshStep(u, rpc) => if u in w.store { RefreshElsewhere(w, w.store[u], rpc, uuid); }
    case _ =>
  }

  lemma ModifyExact(w: World, id: string, c: Change, uuid: string)
    requires WellKeyed(w.store) && (ExactAt(w, uuid) || id == uuid)
    ensures ExactAt(Modify(w, id, c), uuid)
  {
    if id in w.store {
      ApplyKeepsIdentity(w.store[id], c);
    }
  }

  lemma UpdateExact(w: World, id: string, dto: Dto, uuid: string)
    requires WellKeyed(w.store) && (ExactAt(w, uuid) || id == uuid)
    ensures ExactAt(UpdateByUuid(w, id, dto), uuid)
  {
    if id in w.store {
      ModifyExact(w, id, SetFields(WithoutIdentifiers(dto)), uuid);
    } else {
      ApplyKeepsIdentity(Blank(id, dto.id), SetFields(WithoutIdentifiers(dto)));
    }
  }

  lemma CreateExact(w: World, c: Checkout, uuid: string)
    requires ExactAt(w, uuid) || (c.uuid == uuid && (uuid !in w.store || Insertable(w.store, uuid, c.id)))
    ensures ExactAt(OnCreate(w, c), uuid)
  {
    ApplyKeepsIdentity(Blank(c.uuid, c.id), SetFields(FromCheckout(c)));
  }

  lemma MigrateExact(w: World, c: Checkout, uuid: string)
    requires WellKeyed(w.store) && (ExactAt(w, uuid) || c.uuid == uuid)
    ensures ExactAt(OnMigrate(w, c), uuid)
  {
    var w1 := if c.uuid in w.store then UpdateByUuid(w, c.uuid, FromCheckout(c)) else OnCreate(w, c);
    if c.uuid in w.store {
      UpdateExact(w, c.uuid, FromCheckout(c), uuid);
      UpdateMirrors(w, c.uuid, FromCheckout(c));
    } else {
      CreateExact(w, c, uuid);
      InsertMirrors(w, c.uuid, c.id, FromCheckout(c));
    }
    ModifyExact(w1, c.uuid, SetHistory(c.history), uuid);
  }

  lemma RpcExact(w: World, t: Transaction, rpc: RpcOutcome, uuid: string)
    requires WellKeyed(w.store) && (ExactAt(w, uuid) || (t.uuid == uuid && Writes(t, rpc)))
    ensures ExactAt(OnRpcResult(w, t, rpc), uuid)
  {
    if Usable(rpc) {
      match rpc
      case PaymentResult(amount, fee, status, specific, items, _) =>
        var change := SetPayment(amount.value, fee, status, specific);
        ModifyExact(w, t.uuid, change, uuid);
        ModifyMirrors(w, t.uuid, change);
        if items.Some? {
          ModifyExact(Modify(w, t.uuid, change), t.uuid, SetItems(items.value), uuid);
        }
      case ThirdPartyResult(status, specific) => UpdateExact(w, t.uuid, ThirdPartyUpdate(t, status, specific), uuid);
    }
  }

  /** The push of the entry is itself a write. */
  lemma RecordedExact(w: World, t: Transaction, m: Message, rpc: RpcOutcome, uuid: string)
    requires WellKeyed(w.store) && (ExactAt(w, uuid) || t.uuid == uuid)
    ensures ExactAt(OnCompleted(OnRpcResult(w, t, rpc), t.uuid, m), uuid)
  {
    RpcMirrors(w, t, rpc);
    if ExactAt(w, uuid) {
      RpcExact(w, t, rpc, uuid);
    }
    ModifyExact(OnRpcResult(w, t, rpc), t.uuid, PushHistory(ToEntry(m)), uuid);
  }

  lemma ActionExact(w: World, t: Transaction, fields: Option<Fields>, action: Action, skip: bool, rpc: RpcOutcome,
                    uuid: string)
    requires WellKeyed(w.store)
    requires ExactAt(w, uuid) || (t.uuid == uuid && uuid in w.store && Reaches(t, fields, action, skip, rpc))
    ensures ExactAt(DoAction(w, t, fields, action, skip, rpc), uuid)
  {
    if Reaches(t, fields, action, skip, rpc) {
      if ActionRuns(w, t, fields, action, skip, rpc) {
        RecordedExact(w, t, MessageAfter(OnRpcResult(w, t, rpc), t, fields, action, rpc), rpc, uuid);
      } else {
        if t.uuid in w.store {
          UnrecordedWrites(w, t, rpc);
        }
        RpcExact(w, t, rpc, uuid);
      }
    } else {
      assert DoAction(w, t, fields, action, skip, rpc) == w;
    }
  }

  /** An answer that is applied to a stored document and not recorded has written it. */
  lemma UnrecordedWrites(w: World, t: Transaction, rpc: RpcOutcome)
    requires t.uuid in w.store && Usable(rpc) && !(Completes(rpc) && t.uuid in OnRpcResult(w, t, rpc).store)
    ensures Writes(t, rpc)
  {
  }

  lemma StepExact(w: World, s: Step, uuid: string)
    requires WellKeyed(w.store) && s != ShippedStep(uuid)
    requires ExactAt(w, uuid) || Reindexes(w, s, uuid)
    ensures ExactAt(Next(w, s), uuid)
  {
    match s
    case CreateStep(c) => CreateExact(w, c, uuid);
    case UpdateStep(c) => UpdateExact(w.(outbox := w.outbox + UpdateEvents(w, c)), c.uuid, FromCheckout(c), uuid);
    case MigrateStep(c) => MigrateExact(w, c, uuid);
    case BusCompletedStep(u, m) => ModifyExact(w, u, PushHistory(ToEntry(m)), uuid);
    case BusHistoryStep(u, m) => ModifyExact(w, u, PushHistory(ToEntry(m)), uuid);
    case ActionStep(u, fields, action, skip, rpc) =>
      if u in w.store {
        ActionExact(w, w.store[u], fields, action, skip, rpc, uuid);
      }
    case NoteStep(u, note) => ModifyExact(w, u, PushHistory(ToEntry(NoteMessage(note))), uuid);
    case RefreshStep(u, rpc) =>
      if u in w.store && Refreshable(w.store[u], rpc) {
        RpcExact(w, w.store[u], WithoutItems(rpc), uuid);
      }
    case _ =>
  }

  /** A mark of a document, or of another one. */
  lemma MarkExactly(w: World, uuid: string)
    ensures var w' := Next(w, ShippedStep(uuid));
            && (ExactAt(w, uuid) && uuid in w.store && !w.store[uuid].shippingProcessed ==> StaleAt(w', uuid))
            && (StaleAt(w, uuid) ==> StaleAt(w', uuid))
            && (ExactAt(w, uuid) && (uuid !in w.store || w.store[uuid].shippingProcessed) ==> ExactAt(w', uuid))
  {
    if uuid in w.store {
      PackKeepsTheRest(w.store[uuid]);
      if w.store[uuid].shippingProcessed {
        assert Apply(w.store[uuid], SetShippingProcessed) == w.store[uuid];
      }
    }
  }

  lemma {:induction false} LagIsStale(w: World, steps: seq<Step>, uuid: string)
    requires WellKeyed(w.store) && ExactAt(w, uuid)
    ensures if Lags(w, steps, uuid) then StaleAt(Run(w, steps), uuid) else ExactAt(Run(w, steps), uuid)
  {
    if steps != [] {
      var before, last := Run(w, steps[..|steps| - 1]), steps[|steps| - 1];
      LagIsStale(w, steps[..|steps| - 1], uuid);
      RunKeepsKeys(w, steps[..|steps| - 1]);
      if last == ShippedStep(uuid) {
        MarkExactly(before, uuid);
      } else if Lags(w, steps, uuid) {
        LeavesAlone(before, last, uuid);
      } else {
        StepExact(before, last, uuid);
      }
    }
  }

  /**
    In every run, shipping marks included: the index entry of a document is its packed form exactly when
    the last mark that set its flag, if any, was followed by a write of that document.
  */
  lemma IndexExactUnlessLagging(w: World, steps: seq<Step>, uuid: string)
    requires WellKeyed(w.store) && ExactAt(w, uuid)
    ensures ExactAt(Run(w, steps), uuid) <==> !Lags(w, steps, uuid)
  {
    LagIsStale(w, steps, uuid);
    var w' := Run(w, steps);
    if uuid in w'.store {
      PackKeepsTheRest(w'.store[uuid]);
    }
  }

  // ---- original ids ----

  /** The unique index on original_id, on which a missing one is a value like any other. */
  ghost predicate UniqueIds(store: map<string, Transaction>) {
    forall u, v | u in store && v in store && u != v :: store[u].originalId != store[v].originalId
  }

  lemma InsertKeepsIds(w: World, uuid: string, originalId: Option<string>, dto: Dto)
    requires UniqueIds(w.store)
    ensures UniqueIds(Insert(w, uuid, originalId, dto).store)
  {
    ApplyKeepsIdentity(Blank(uuid, originalId), SetFields(dto));
  }

  lemma ModifyKeepsIds(w: World, uuid: string, c: Change)
    requires UniqueIds(w.store)
    ensures UniqueIds(Modify(w, uuid, c).store)
  {
    if uuid in w.store {
      ApplyKeepsIdentity(w.store[uuid], c);
    }
  }

  lemma UpdateKeepsIds(w: World, uuid: string, dto: Dto)
    requires UniqueIds(w.store)
    ensures UniqueIds(UpdateByUuid(w, uuid, dto).store)
  {
    ModifyKeepsIds(w, uuid, SetFields(WithoutIdentifiers(dto)));
    InsertKeepsIds(w, uuid, dto.id, WithoutIdentifiers(dto));
  }

  lemma RpcKeepsIds(w: World, t: Transaction, rpc: RpcOutcome)
    requires UniqueIds(w.store)
    ensures UniqueIds(OnRpcResult(w, t, rpc).store)
  {
    if Usable(rpc) {
      match rpc
      case PaymentResult(amount, fee, status, specific, items, _) =>
        var change := SetPayment(amount.value, fee, status, specific);
        ModifyKeepsIds(w, t.uuid, change);
        if items.Some? {
          ModifyKeepsIds(Modify(w, t.uuid, change), t.uuid, SetItems(items.value));
        }
      case ThirdPartyResult(status, specific) => UpdateKeepsIds(w, t.uuid, ThirdPartyUpdate(t, status, specific));
    }
  }

  lemma ActionKeepsIds(w: World, t: Transaction, fields: Option<Fields>, action: Action, skip: bool, rpc: RpcOutcome)
    requires UniqueIds(w.store)
    ensures UniqueIds(DoAction(w, t, fields, action, skip, rpc).store)
  {
    RpcKeepsIds(w, t, rpc);
    if ActionRuns(w, t, fields, action, skip, rpc) {
      var w1 := OnRpcResult(w, t, rpc);
      ModifyKeepsIds(w1, t.uuid,
                     PushHistory(ToEntry(MessageAfter(w1, t, fields, action, rpc))));
    }
  }

  lemma MigrateKeepsIds(w: World, c: Checkout)
    requires UniqueIds(w.store)
    ensures UniqueIds(OnMigrate(w, c).store)
  {
    UpdateKeepsIds(w, c.uuid, FromCheckout(c));
    InsertKeepsIds(w, c.uuid, c.id, FromCheckout(c));
    var w1 := if c.uuid in w.store then UpdateByUuid(w, c.uuid, FromCheckout(c)) else OnCreate(w, c);
    ModifyKeepsIds(w1, c.uuid, SetHistory(c.history));
  }

  lemma LoadingStepKeepsIds(w: World, s: Step)
    requires UniqueIds(w.store) && (s.RefreshStep? || s.ActionStep?)
    ensures UniqueIds(Next(w, s).store)
  {
    if s.uuid in w.store {
      if s.RefreshStep? {
        RpcKeepsIds(w, w.store[s.uuid], WithoutItems(s.rpc));
      } else {
        ActionKeepsIds(w, w.store[s.uuid], s.fields, s.action, s.skipValidation, s.rpc);
      }
    }
  }

  lemma MessageStepKeepsIds(w: World, s: Step)
    requires UniqueIds(w.store) && (s.BusCompletedStep? || s.BusHistoryStep? || s.NoteStep?)
    ensures UniqueIds(Next(w, s).store)
  {
    ModifyKeepsIds(w, s.uuid, PushHistory(ToEntry(if s.NoteStep? then NoteMessage(s.note) else s.m)));
  }

  lemma StepKeepsIds(w: World, s: Step)
    requires UniqueIds(w.store)
    ensures UniqueIds(Next(w, s).store)
  {
    match s
    case CreateStep(c) => InsertKeepsIds(w, c.uuid, c.id, FromCheckout(c));
    case UpdateStep(c) => UpdateKeepsIds(w.(outbox := w.outbox + UpdateEvents(w, c)), c.uuid, FromCheckout(c));
    case MigrateStep(c) => MigrateKeepsIds(w, c);
    case RemoveStep(_) =>
    case ShippedStep(_) =>
    case RefreshStep(_, _) => LoadingStepKeepsIds(w, s);
    case ActionStep(_, _, _, _, _) => LoadingStepKeepsIds(w, s);
    case _ => MessageStepKeepsIds(w, s);
  }

  /** In every run a message finds at most one document, by uuid or by original id. */
  lemma {:induction false} MessagesFindOneDocument(w: World, steps: seq<Step>)
    requires UniqueIds(w.store)
    ensures var store := Run(w, steps).store;
            && UniqueIds(store)
            && forall payment: PaymentRef, u, v | FoundBy(store, payment, u) && FoundBy(store, payment, v) :: u == v
  {
    if steps != [] {
      MessagesFindOneDocument(w, steps[..|steps| - 1]);
      StepKeepsIds(Run(w, steps[..|steps| - 1]), steps[|steps| - 1]);
    }
  }
}
