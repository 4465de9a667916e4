/**
  The history of a document under any interleaving of locked updates: an append-only log.
*/
module HistoryRuns {
  import opened ActionPayloads
  import opened Runs
  import opened Transactions
  import opened Worlds
  import opened Wrappers

  /** One critical section of the per-uuid lock. */
  datatype Locked =
    | Change(uuid: string, change: Worlds.Change)
    | Upsert(uuid: string, dto: Dto)
    | Flag(uuid: string)

  function Enter(w: World, l: Locked): World {
    match l
    case Change(u, c) => Modify(w, u, c)
    case Upsert(u, dto) => UpdateByUuid(w, u, dto)
    case Flag(u) => MarkShipped(w, u)
  }

  function Interleave(w: World, locked: seq<Locked>): World {
    if locked == [] then w else Enter(Interleave(w, locked[..|locked| - 1]), locked[|locked| - 1])
  }

  /** What the critical sections push onto one document, in lock order. */
  function Pushed(locked: seq<Locked>, uuid: string): seq<HistoryEntry> {
    if locked == [] then []
    else Pushed(locked[..|locked| - 1], uuid) + PushedBy(locked[|locked| - 1], uuid)
  }

  function PushedBy(l: Locked, uuid: string): seq<HistoryEntry> {
    if l.Change? && l.uuid == uuid && l.change.PushHistory? then [l.change.entry] else []
  }

  /** A section that does not replace the history outright (only a migration does). */
  predicate LeavesHistory(l: Locked) {
    match l
    case Change(_, c) => !c.SetHistory? && (c.SetFields? ==> c.dto.history.None?)
    case Upsert(_, dto) => dto.history.None?
    case Flag(_) => true
  }

  lemma SectionAppends(w: World, l: Locked, uuid: string)
    requires uuid in w.store
    requires l.uuid == uuid ==> LeavesHistory(l)
    ensures var w' := Enter(w, l);
            && uuid in w'.store
            && w'.store[uuid].history == w.store[uuid].history + PushedBy(l, uuid)
            && w'.store[uuid].uuid == w.store[uuid].uuid
            && w'.store[uuid].originalId == w.store[uuid].originalId
  {
    var history := w.store[uuid].history;
    assert history + [] == history;
  }

  lemma {:induction false} AppendOnly(w: World, locked: seq<Locked>, uuid: string)
    requires uuid in w.store
    requires forall l | l in locked && l.uuid == uuid :: LeavesHistory(l)
    ensures var w' := Interleave(w, locked);
            && uuid in w'.store
            && w'.store[uuid].history == w.store[uuid].history + Pushed(locked, uuid)
            && w'.store[uuid].uuid == w.store[uuid].uuid
            && w'.store[uuid].originalId == w.store[uuid].originalId
  {
    if locked != [] {
      AppendOnly(w, locked[..|locked| - 1], uuid);
      SectionAppends(Interleave(w, locked[..|locked| - 1]), locked[|locked| - 1], uuid);
    }
  }

  /** The critical sections in which an RPC answer is applied. */
  function RpcSections(t: Transaction, rpc: RpcOutcome): seq<Locked> {
    if !Usable(rpc) then []
    else match rpc
      case PaymentResult(amount, fee, status, specific, items, _) =>
        [Change(t.uuid, SetPayment(amount.value, fee, status, specific))]
        + if items.Some? then [Change(t.uuid, SetItems(items.value))] else []
      case ThirdPartyResult(status, specific) =>
        var update := ThirdPartyUpdate(t, status, specific);
        if update != StatusDto(None, None) then [Upsert(t.uuid, update)] else []
  }

  /** The critical sections of one doAction call. */
  function ActionSections(w: World, t: Transaction, fields: Option<Fields>, action: Action, skip: bool,
                          rpc: RpcOutcome): seq<Locked>
  {
    if !Reaches(t, fields, action, skip, rpc) then []
    else if !ActionRuns(w, t, fields, action, skip, rpc) then RpcSections(t, rpc)
    else
      var m := MessageAfter(OnRpcResult(w, t, rpc), t, fields, action, rpc);
      RpcSections(t, rpc) + [Change(t.uuid, PushHistory(ToEntry(m)))]
  }

  lemma {:induction false} InterleaveAppend(w: World, a: seq<Locked>, b: seq<Locked>)
    ensures Interleave(w, a + b) == Interleave(Interleave(w, a), b)
  {
    if b == [] {
      assert a + b == a;
    } else {
      InterleaveAppend(w, a, b[..|b| - 1]);
      assert (a + b)[..|a + b| - 1] == a + b[..|b| - 1];
    }
  }

  lemma InterleaveOne(w: World, l: Locked)
    ensures Interleave(w, [l]) == Enter(w, l)
  {
    assert [l][..0] == [];
  }

  lemma RpcIsItsSections(w: World, t: Transaction, rpc: RpcOutcome)
    ensures Interleave(w, RpcSections(t, rpc)) == OnRpcResult(w, t, rpc)
    ensures forall l | l in RpcSections(t, rpc) :: LeavesHistory(l) && l.uuid == t.uuid
  {
    var sections := RpcSections(t, rpc);
    if |sections| == 2 {
      assert sections == [sections[0]] + [sections[1]];
      InterleaveAppend(w, [sections[0]], [sections[1]]);
      InterleaveOne(w, sections[0]);
      InterleaveOne(Enter(w, sections[0]), sections[1]);
    } else if |sections| == 1 {
      assert sections == [sections[0]];
      InterleaveOne(w, sections[0]);
    }
  }

  /** An uninterrupted doAction is its critical sections, none of which replaces the history. */
  lemma ActionIsItsSections(w: World, t: Transaction, fields: Option<Fields>, action: Action, skip: bool,
                            rpc: RpcOutcome)
    ensures var sections := ActionSections(w, t, fields, action, skip, rpc);
            var w' := DoAction(w, t, fields, action, skip, rpc);
            && (forall l | l in sections :: LeavesHistory(l) && l.uuid == t.uuid)
            && w'.store == Interleave(w, sections).store
            && w'.index == Interleave(w, sections).index
  {
    RpcIsItsSections(w, t, rpc);
    if ActionRuns(w, t, fields, action, skip, rpc) {
      var w1 := OnRpcResult(w, t, rpc);
      var push := Change(t.uuid, PushHistory(ToEntry(MessageAfter(w1, t, fields, action, rpc))));
      InterleaveAppend(w, RpcSections(t, rpc), [push]);
      InterleaveOne(w1, push);
    }
  }

  predicate Disturbs(s: Step, uuid: string) {
    || (s.RemoveStep? && s.uuid == uuid)
    || (s.MigrateStep? && s.c.uuid == uuid)
  }

  ghost predicate Extends(before: Transaction, after: Transaction) {
    && before.uuid == after.uuid && before.originalId == after.originalId
    && before.history <= after.history
  }

  /** Creations, removals and shipping marks leave a document as it is, but for its shipping flag. */
  lemma QuietStep(w: World, s: Step, uuid: string)
    requires uuid in w.store && !Disturbs(s, uuid)
    requires s.CreateStep? || s.RemoveStep? || s.ShippedStep?
    ensures var w' := Next(w, s);
            && w'.outbox == w.outbox
            && uuid in w'.store
            && w'.store[uuid].(shippingProcessed := true) == w.store[uuid].(shippingProcessed := true)
  {
  }

  /** A bus message pushes its entry, if it is let through, and sends nothing. */
  lemma BusStep(w: World, s: Step, uuid: string)
    requires uuid in w.store
    requires s.BusCompletedStep? || s.BusHistoryStep?
    ensures var w' := Next(w, s);
            && w'.outbox == w.outbox
            && uuid in w'.store
            && (w'.store[uuid] == w.store[uuid]
                || (AllowedFromBus(s.m.action)
                    && w'.store[uuid] == w.store[uuid].(history := w.store[uuid].history + [ToEntry(s.m)])))
  {
    assert w.outbox + [] == w.outbox;
  }

  /** An update event is one critical section, which never overwrites the history, whatever the message carries. */
  lemma UpdateIsItsSection(w: World, c: Checkout)
    ensures LeavesHistory(Upsert(c.uuid, FromCheckout(c)))
    ensures OnUpdate(w, c).store == Enter(w, Upsert(c.uuid, FromCheckout(c))).store
    ensures OnUpdate(w, c).index == Enter(w, Upsert(c.uuid, FromCheckout(c))).index
  {
  }

  lemma NoteWrites(w: World, id: string, note: Note, uuid: string)
    requires uuid in w.store
    ensures var w' := OnNote(w, id, note);
            && w'.outbox == w.outbox
            && uuid in w'.store
            && w'.store[uuid] == if id == uuid
                                 then w.store[uuid].(history := w.store[uuid].history + [ToEntry(NoteMessage(note))])
                                 else w.store[uuid]
  {
  }

  lemma RpcKeepsHistory(w: World, t: Transaction, rpc: RpcOutcome, uuid: string)
    requires uuid in w.store
    ensures var w' := OnRpcResult(w, t, rpc);
            && uuid in w'.store && w'.store[uuid].history == w.store[uuid].history
            && w'.store[uuid].uuid == w.store[uuid].uuid
            && w'.store[uuid].originalId == w.store[uuid].originalId && w'.outbox == w.outbox
  {
  }

  lemma RpcKeepsTotal(w: World, t: Transaction, rpc: RpcOutcome, uuid: string)
    requires uuid in w.store
    ensures uuid in OnRpcResult(w, t, rpc).store
    ensures OnRpcResult(w, t, rpc).store[uuid].total == w.store[uuid].total
  {
  }

  /** A status update sends nothing and leaves history, identity and total. */
  lemma RefreshWrites(w: World, s: Step, uuid: string)
    requires uuid in w.store && s.RefreshStep?
    ensures var w' := Next(w, s);
            && w'.outbox == w.outbox
            && uuid in w'.store
            && w'.store[uuid].history == w.store[uuid].history && w'.store[uuid].total == w.store[uuid].total
            && w'.store[uuid].uuid == w.store[uuid].uuid && w'.store[uuid].originalId == w.store[uuid].originalId
  {
    if s.uuid in w.store {
      var t := w.store[s.uuid];
      RpcKeepsHistory(w, t, WithoutItems(s.rpc), uuid);
      RpcKeepsTotal(w, t, WithoutItems(s.rpc), uuid);
      assert Next(w, s) in {w, OnRpcResult(w, t, WithoutItems(s.rpc))};
    }
  }

  lemma MigrationOfAnother(w: World, c: Checkout, uuid: string)
    requires uuid in w.store && uuid != c.uuid
    ensures uuid in OnMigrate(w, c).store && OnMigrate(w, c).store[uuid] == w.store[uuid]
  {
  }

  lemma StepExtends(w: World, s: Step, uuid: string)
    requires WellKeyed(w.store) && uuid in w.store && !Disturbs(s, uuid)
    ensures uuid in Next(w, s).store && Extends(w.store[uuid], Next(w, s).store[uuid])
  {
    match s
    case ActionStep(u, fields, action, skip, rpc) =>
      if u in w.store {
        ActionIsItsSections(w, w.store[u], fields, action, skip, rpc);
        AppendOnly(w, ActionSections(w, w.store[u], fields, action, skip, rpc), uuid);
      }
    case UpdateStep(c) =>
      UpdateIsItsSection(w, c);
      SectionAppends(w, Upsert(c.uuid, FromCheckout(c)), uuid);
    case MigrateStep(c) => MigrationOfAnother(w, c, uuid);
    case BusCompletedStep(_, _) => BusStep(w, s, uuid);
    case BusHistoryStep(_, _) => BusStep(w, s, uuid);
    case NoteStep(u, note) => NoteWrites(w, u, note, uuid);
    case RefreshStep(_, _) => RefreshWrites(w, s, uuid);
    case _ => QuietStep(w, s, uuid);
  }

  /** Over whole runs: nothing but a removal or a migration takes an entry back or renames a document. */
  lemma {:induction false} RunExtends(w: World, steps: seq<Step>, uuid: string)
    requires WellKeyed(w.store) && uuid in w.store
    requires forall s | s in steps :: !Disturbs(s, uuid)
    ensures uuid in Run(w, steps).store && Extends(w.store[uuid], Run(w, steps).store[uuid])
  {
    if steps != [] {
      var before := steps[..|steps| - 1];
      RunExtends(w, before, uuid);
      RunKeepsKeys(w, before);
      StepExtends(Run(w, before), steps[|steps| - 1], uuid);
    }
  }
}
