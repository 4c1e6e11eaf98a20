/**
  The reminder scheduler of reminder/internal/rman: three keyed stores (cancel
  signals, completion signals and due entries, all keyed by reminder id) and
  one scheduling loop per added reminder.

  Each loop owns a pair of unbuffered channels, cancel and complete; a Signal
  names that pair. Goroutines run one step at a time here: the facade
  operations and the loop steps are transitions of a State, and the class
  RemindManager performs them on its fields.
*/
module Rman {
  import opened Wrappers
  import opened Models
  import opened SyncMap

  /** The channel pair (cancel, complete) of one scheduling loop, numbered in order of creation. */
  datatype Signal = Signal(loop: nat)

  /**
    Where a generateReminds loop is: about to compute the next occurrence, blocked in
    the select on its timer and its cancel channel, blocked on `<-complete` after
    publishing a due entry, or returned.
  */
  datatype LoopState = Computing | Waiting(next: Instant) | DuePendingAck | Terminated

  /** A loop: the reminder snapshot it was started with, its position, and which of its channels are closed. */
  datatype Loop = Loop(reminder: Reminder, state: LoopState, cancelClosed: bool, completeClosed: bool)

  /**
    The whole scheduler: the three stores, every loop ever started (a loop keeps
    running after its id is unregistered or registered again), the next loop
    number, and the ids whose storage deletion a loop requested, in order.
  */
  datatype State = State(
    cancels: map<int, Signal>,
    completes: map<int, Signal>,
    reminds: map<int, Reminder>,
    loops: map<Signal, Loop>,
    nextLoop: nat,
    storageDeletes: seq<int>)

  /** A loop registered for id: it runs that reminder, both its channels are open, it has not returned, and it waits for completion only while its due entry is visible. */
  predicate Live(id: int, l: Loop, reminds: map<int, Reminder>)
  {
    && l.reminder.id == id
    && !l.cancelClosed && !l.completeClosed
    && !l.state.Terminated?
    && (l.state.DuePendingAck? ==> id in reminds)
  }

  /** The invariant every operation keeps. */
  predicate Inv(st: State)
  {
    && st.completes == st.cancels
    && (forall id :: id in st.cancels ==> st.cancels[id] in st.loops && Live(id, st.loops[st.cancels[id]], st.reminds))
    && (forall id :: id in st.reminds ==> st.reminds[id].id == id)
    && (forall s :: s in st.loops ==> s.loop < st.nextLoop)
  }

  /** rman.New: empty stores and no loops. */
  function Initial(): (st: State)
    ensures Inv(st)
  {
    State(map[], map[], map[], map[], 0, [])
  }

  // TriggerReminds

  /** TriggerReminds: each reminder becomes the due entry of its id, later ones overwriting earlier ones. */
  function Trigger(st: State, rs: seq<Reminder>): State
  {
    if rs == [] then st
    else
      var before := Trigger(st, rs[..|rs| - 1]);
      var r := rs[|rs| - 1];
      before.(reminds := before.reminds[r.id := r])
  }

  lemma {:induction false} TriggerInv(st: State, rs: seq<Reminder>)
    requires Inv(st)
    ensures Inv(Trigger(st, rs))
  {
    if rs != [] {
      TriggerInv(st, rs[..|rs| - 1]);
    }
  }

  /**
    After TriggerReminds an id has a due entry exactly when it had one or the
    batch holds it, the entry is the batch's last reminder with that id, and
    nothing but the due entries changes.
  */
  lemma {:induction false} TriggerAt(st: State, rs: seq<Reminder>, id: int)
    ensures var r := Trigger(st, rs);
      r == st.(reminds := r.reminds)
      && (id in r.reminds <==> id in st.reminds || exists i :: 0 <= i < |rs| && rs[i].id == id)
    ensures forall i :: 0 <= i < |rs| && rs[i].id == id && (forall j :: i < j < |rs| ==> rs[j].id != id) ==>
      Trigger(st, rs).reminds[id] == rs[i]
    ensures (forall i :: 0 <= i < |rs| ==> rs[i].id != id) && id in st.reminds ==>
      Trigger(st, rs).reminds[id] == st.reminds[id]
  {
    if rs != [] {
      var front := rs[..|rs| - 1];
      TriggerAt(st, front, id);
      assert forall i :: 0 <= i < |front| ==> front[i] == rs[i];
    }
  }

  // CompleteReminds

  /** CompleteReminds for one id: a registered loop is released to compute its next occurrence and the due entry goes. */
  function CompleteOne(st: State, id: int): State
  {
    if id in st.completes && st.completes[id] in st.loops then
      var s := st.completes[id];
      st.(loops := st.loops[s := st.loops[s].(state := Computing)], reminds := st.reminds - {id})
    else st
  }

  /** CompleteReminds: the ids in order. */
  function Complete(st: State, ids: seq<int>): State
  {
    if ids == [] then st else CompleteOne(Complete(st, ids[..|ids| - 1]), ids[|ids| - 1])
  }

  /**
    When the blocking `complete <- true` of CompleteReminds can go through: every
    registered id of the batch has its loop waiting for completion, and no
    registered id comes twice (the second send would wait for the next occurrence).
  */
  predicate CanComplete(st: State, ids: seq<int>)
  {
    && (forall i :: 0 <= i < |ids| && ids[i] in st.completes ==>
          st.completes[ids[i]] in st.loops && st.loops[st.completes[ids[i]]].state == DuePendingAck)
    && (forall i, j :: 0 <= i < j < |ids| && ids[i] in st.completes ==> ids[i] != ids[j])
  }

  /** The ids of a batch that a store holds. */
  function Held(ids: seq<int>, reg: map<int, Signal>): set<int>
  {
    set id | id in ids && id in reg
  }

  /** The signals a store holds for the ids of a batch. */
  function HeldSignals(ids: seq<int>, reg: map<int, Signal>): set<Signal>
  {
    set id | id in ids && id in reg :: reg[id]
  }

  /** The loops after the ones in ss are released. */
  function Release(loops: map<Signal, Loop>, ss: set<Signal>): map<Signal, Loop>
  {
    map s | s in loops :: if s in ss then loops[s].(state := Computing) else loops[s]
  }

  lemma HeldSnoc(ids: seq<int>, id: int, reg: map<int, Signal>)
    ensures Held(ids + [id], reg) == Held(ids, reg) + (if id in reg then {id} else {})
    ensures HeldSignals(ids + [id], reg) == HeldSignals(ids, reg) + (if id in reg then {reg[id]} else {})
  {
    assert forall x :: x in ids + [id] <==> x in ids || x == id;
  }

  /**
    CompleteReminds deletes the due entries of exactly the registered ids of the
    batch and releases exactly their loops; an id without a completion signal,
    such as one that was only triggered, changes nothing.
  */
  lemma {:induction false} CompleteEffect(st: State, ids: seq<int>)
    requires forall id :: id in st.completes ==> st.completes[id] in st.loops
    ensures Complete(st, ids) == st.(
      reminds := st.reminds - Held(ids, st.completes),
      loops := Release(st.loops, HeldSignals(ids, st.completes)))
  {
    if ids != [] {
      var front, id := ids[..|ids| - 1], ids[|ids| - 1];
      CompleteEffect(st, front);
      assert ids == front + [id];
      HeldSnoc(front, id, st.completes);
      if id in st.completes {
        var held := Held(front, st.completes);
        ReleaseOne(st.loops, HeldSignals(front, st.completes), st.completes[id]);
        assert st.reminds - held - {id} == st.reminds - (held + {id});
      }
    }
  }

  /** Releasing one more loop on top of a released set. */
  lemma ReleaseOne(loops: map<Signal, Loop>, ss: set<Signal>, s: Signal)
    requires s in loops
    ensures var r := Release(loops, ss); r[s := r[s].(state := Computing)] == Release(loops, ss + {s})
  {
  }

  lemma CompleteOneInv(st: State, id: int)
    requires Inv(st)
    ensures Inv(CompleteOne(st, id))
  {
    if id in st.completes {
      var r := CompleteOne(st, id);
      forall other | other in r.cancels
        ensures r.cancels[other] in r.loops && Live(other, r.loops[r.cancels[other]], r.reminds)
      {
        if other != id {
          assert st.loops[st.cancels[other]].reminder.id == other;
        }
      }
    }
  }

  lemma {:induction false} CompleteInv(st: State, ids: seq<int>)
    requires Inv(st)
    ensures Inv(Complete(st, ids))
  {
    if ids != [] {
      CompleteInv(st, ids[..|ids| - 1]);
      CompleteOneInv(Complete(st, ids[..|ids| - 1]), ids[|ids| - 1]);
    }
  }

  // AddReminders

  /**
    AddReminders for one reminder: a rule that does not parse is skipped;
    otherwise a new channel pair is registered under the reminder's id in both
    signal stores and a loop starts computing.
  */
  function AddOne(st: State, parse: string -> bool, r: Reminder): State
  {
    if !parse(r.rule) then st
    else
      var s := Signal(st.nextLoop);
      st.(cancels := st.cancels[r.id := s],
          completes := st.completes[r.id := s],
          loops := st.loops[s := Loop(r, Computing, false, false)],
          nextLoop := st.nextLoop + 1)
  }

  /** AddReminders: the reminders in order. */
  function Add(st: State, parse: string -> bool, rs: seq<Reminder>): State
  {
    if rs == [] then st else AddOne(Add(st, parse, rs[..|rs| - 1]), parse, rs[|rs| - 1])
  }

  lemma AddOneInv(st: State, parse: string -> bool, r: Reminder)
    requires Inv(st)
    ensures Inv(AddOne(st, parse, r))
  {
    if parse(r.rule) {
      var s := Signal(st.nextLoop);
      assert s !in st.loops;
      var a := AddOne(st, parse, r);
      forall id | id in a.cancels
        ensures a.cancels[id] in a.loops && Live(id, a.loops[a.cancels[id]], a.reminds)
      {
        if id != r.id {
          assert st.cancels[id] != s;
        }
      }
    }
  }

  lemma {:induction false} AddInv(st: State, parse: string -> bool, rs: seq<Reminder>)
    requires Inv(st)
    ensures Inv(Add(st, parse, rs))
  {
    if rs != [] {
      AddInv(st, parse, rs[..|rs| - 1]);
      AddOneInv(Add(st, parse, rs[..|rs| - 1]), parse, rs[|rs| - 1]);
    }
  }

  /**
    AddReminders leaves the due entries, the storage requests and every loop
    already started as they were, and the two signal stores still agree.
  */
  lemma {:induction false} AddKeeps(st: State, parse: string -> bool, rs: seq<Reminder>)
    requires Inv(st)
    ensures var a := Add(st, parse, rs);
      && a.completes == a.cancels
      && a.reminds == st.reminds
      && a.storageDeletes == st.storageDeletes
      && a.nextLoop >= st.nextLoop
      && (forall s :: s in st.loops ==> s in a.loops && a.loops[s] == st.loops[s])
  {
    if rs != [] {
      var front := rs[..|rs| - 1];
      AddKeeps(st, parse, front);
      AddInv(st, parse, front);
      assert Signal(Add(st, parse, front).nextLoop) !in Add(st, parse, front).loops;
    }
  }

  /**
    After AddReminders an id has signals exactly when it had them or the batch
    holds a reminder with that id whose rule parses.
  */
  lemma {:induction false} AddRegisters(st: State, parse: string -> bool, rs: seq<Reminder>, id: int)
    ensures id in Add(st, parse, rs).cancels <==>
      id in st.cancels || exists i :: 0 <= i < |rs| && parse(rs[i].rule) && rs[i].id == id
  {
    if rs != [] {
      var front := rs[..|rs| - 1];
      AddRegisters(st, parse, front, id);
      assert forall i :: 0 <= i < |front| ==> front[i] == rs[i];
    }
  }

  /** The last reminder of the batch with a given id whose rule parses runs in a new loop, computing, with open channels. */
  lemma {:induction false} AddStartsLoop(st: State, parse: string -> bool, rs: seq<Reminder>, i: nat)
    requires Inv(st)
    requires i < |rs| && parse(rs[i].rule)
    requires forall j :: i < j < |rs| && parse(rs[j].rule) ==> rs[j].id != rs[i].id
    ensures var a := Add(st, parse, rs);
      && rs[i].id in a.cancels
      && a.cancels[rs[i].id] !in st.loops
      && a.cancels[rs[i].id] in a.loops
      && a.loops[a.cancels[rs[i].id]] == Loop(rs[i], Computing, false, false)
  {
    var front := rs[..|rs| - 1];
    AddInv(st, parse, front);
    var mid := Add(st, parse, front);
    if i < |rs| - 1 {
      AddStartsLoop(st, parse, front, i);
      assert Signal(mid.nextLoop) !in mid.loops;
    } else {
      AddKeeps(st, parse, front);
      assert Signal(mid.nextLoop) !in mid.loops;
    }
  }

  /** How many reminders of a batch have a rule that parses. */
  function Parsable(parse: string -> bool, rs: seq<Reminder>): nat
  {
    if rs == [] then 0 else Parsable(parse, rs[..|rs| - 1]) + (if parse(rs[|rs| - 1].rule) then 1 else 0)
  }

  /**
    AddReminders starts exactly one loop per reminder whose rule parses, numbered
    on from the next loop number, and nothing else: a reminder with an unparsable
    rule starts none, and every new loop runs a parsable reminder of the batch.
  */
  lemma {:induction false} AddCounts(st: State, parse: string -> bool, rs: seq<Reminder>)
    requires Inv(st)
    ensures var a := Add(st, parse, rs);
      && a.nextLoop == st.nextLoop + Parsable(parse, rs)
      && a.loops.Keys == st.loops.Keys + (set n: nat | st.nextLoop <= n < a.nextLoop :: Signal(n))
      && (forall s :: s in a.loops && s !in st.loops ==> parse(a.loops[s].reminder.rule) && a.loops[s].reminder in rs)
  {
    if rs != [] {
      var front, last := rs[..|rs| - 1], rs[|rs| - 1];
      AddCounts(st, parse, front);
      AddInv(st, parse, front);
      var mid := Add(st, parse, front);
      var a := Add(st, parse, rs);
      assert forall r :: r in front ==> r in rs;
      if parse(last.rule) {
        assert Signal(mid.nextLoop) !in mid.loops;
        assert (set n: nat | st.nextLoop <= n < a.nextLoop :: Signal(n))
          == (set n: nat | st.nextLoop <= n < mid.nextLoop :: Signal(n)) + {Signal(mid.nextLoop)};
      }
    }
  }

  // RemoveReminders

  /**
    The non-blocking send on the cancel channel followed by its close: the send
    is taken only by a loop blocked in its select, which then returns.
  */
  function SendCancel(l: Loop): Loop
  {
    l.(state := if l.state.Waiting? then Terminated else l.state, cancelClosed := true)
  }

  /**
    The non-blocking send on the complete channel followed by its close: the send
    is taken only by a loop blocked on `<-complete`, which then computes again.
  */
  function SendComplete(l: Loop): Loop
  {
    l.(state := if l.state.DuePendingAck? then Computing else l.state, completeClosed := true)
  }

  /**
    RemoveReminders for one id: when the id has a cancel signal, its loop is
    signalled on both channels, both are closed, and the id leaves the due
    entries and both signal stores; otherwise nothing happens.
  */
  function RemoveOne(st: State, id: int): (r: State)
    ensures r.loops.Keys == st.loops.Keys
    ensures id !in r.cancels
    ensures id in st.cancels ==> id !in r.completes && id !in r.reminds
    ensures id !in st.cancels ==> r == st
    ensures r.nextLoop == st.nextLoop && r.storageDeletes == st.storageDeletes
  {
    if id !in st.cancels then st
    else
      var s := st.cancels[id];
      var cancelled := if s in st.loops then st.loops[s := SendCancel(st.loops[s])] else st.loops;
      var released :=
        if id in st.completes && st.completes[id] in cancelled
        then cancelled[st.completes[id] := SendComplete(cancelled[st.completes[id]])]
        else cancelled;
      st.(cancels := st.cancels - {id},
          completes := st.completes - {id},
          reminds := st.reminds - {id},
          loops := released)
  }

  /** RemoveReminders: the ids in order. */
  function Remove(st: State, ids: seq<int>): State
  {
    if ids == [] then st else RemoveOne(Remove(st, ids[..|ids| - 1]), ids[|ids| - 1])
  }

  lemma RemoveOneInv(st: State, id: int)
    requires Inv(st)
    ensures Inv(RemoveOne(st, id))
  {
    if id in st.cancels {
      var r := RemoveOne(st, id);
      forall other | other in r.cancels
        ensures r.cancels[other] in r.loops && Live(other, r.loops[r.cancels[other]], r.reminds)
      {
        assert st.loops[st.cancels[other]].reminder.id == other;
      }
    }
  }

  lemma {:induction false} RemoveInv(st: State, ids: seq<int>)
    requires Inv(st)
    ensures Inv(Remove(st, ids))
  {
    if ids != [] {
      RemoveInv(st, ids[..|ids| - 1]);
      RemoveOneInv(Remove(st, ids[..|ids| - 1]), ids[|ids| - 1]);
    }
  }

  /**
    After RemoveReminders a registered id of the batch is in none of the three
    stores; an id outside the batch keeps its signals and its due entry; an id
    of the batch that had no cancel signal keeps its due entry; both signal
    stores still agree.
  */
  lemma {:induction false} RemoveErases(st: State, ids: seq<int>)
    requires Inv(st)
    ensures var r := Remove(st, ids);
      && r.completes == r.cancels
      && (forall id :: id in r.cancels <==> id in st.cancels && id !in ids)
      && (forall id :: id in r.cancels ==> r.cancels[id] == st.cancels[id])
      && (forall id :: id in r.reminds <==> id in st.reminds && !(id in ids && id in st.cancels))
      && (forall id :: id in r.reminds ==> r.reminds[id] == st.reminds[id])
      && r.nextLoop == st.nextLoop && r.storageDeletes == st.storageDeletes
  {
    if ids != [] {
      var front, id := ids[..|ids| - 1], ids[|ids| - 1];
      RemoveErases(st, front);
      RemoveInv(st, front);
      assert ids == front + [id];
      assert forall x :: x in ids <==> x in front || x == id;
    }
  }

  /** RemoveReminders with ids none of which has a cancel signal changes nothing. */
  lemma {:induction false} RemoveUnknown(st: State, ids: seq<int>)
    requires forall i :: 0 <= i < |ids| ==> ids[i] !in st.cancels
    ensures Remove(st, ids) == st
  {
    if ids != [] {
      RemoveUnknown(st, ids[..|ids| - 1]);
    }
  }

  /** Removing the same ids a second time changes nothing. */
  lemma RemoveTwice(st: State, ids: seq<int>)
    requires Inv(st)
    ensures Remove(Remove(st, ids), ids) == Remove(st, ids)
  {
    RemoveErases(st, ids);
    var once := Remove(st, ids);
    forall i | 0 <= i < |ids|
      ensures ids[i] !in once.cancels
    {
      var id := ids[i];
      assert id in ids;
      assert id in once.cancels <==> id in st.cancels && id !in ids;
    }
    RemoveUnknown(once, ids);
  }

  // The generateReminds loop

  /**
    The zone a loop computes the next occurrence in: the channel's zone when the
    channel lookup found one and it loads, the default location otherwise.
  */
  function EffectiveZone(defaultLocation: string, channelZone: Option<string>, loads: string -> bool): (zone: string)
    ensures zone == defaultLocation || (channelZone.Some? && zone == channelZone.value && loads(zone))
    ensures channelZone.Some? && loads(channelZone.value) ==> zone == channelZone.value
  {
    match channelZone
    case Some(z) => if loads(z) then z else defaultLocation
    case None => defaultLocation
  }

  /**
    A computing loop with the next occurrence in hand: the zero time (None)
    removes the loop's id as RemoveReminders does, requests its deletion from
    storage and ends the loop; a time makes the loop wait for it.
  */
  function Compute(st: State, s: Signal, next: Option<Instant>): (r: State)
    requires s in st.loops && st.loops[s].state == Computing
    ensures var id := st.loops[s].reminder.id;
      next.None? ==>
        && id !in r.cancels
        && (id in st.cancels ==> id !in r.completes && id !in r.reminds)
        && s in r.loops && r.loops[s].state == Terminated
        && r.storageDeletes == st.storageDeletes + [id]
    ensures next.Some? ==>
      && s in r.loops && r.loops[s] == st.loops[s].(state := Waiting(next.value))
      && r == st.(loops := r.loops)
  {
    var id := st.loops[s].reminder.id;
    match next
    case None =>
      var gone := RemoveOne(st, id);
      gone.(loops := gone.loops[s := gone.loops[s].(state := Terminated)],
            storageDeletes := gone.storageDeletes + [id])
    case Some(t) =>
      st.(loops := st.loops[s := st.loops[s].(state := Waiting(t))])
  }

  /** The timer of a waiting loop fires: its reminder becomes the due entry of its id and the loop waits for completion. */
  function Timer(st: State, s: Signal): State
    requires s in st.loops && st.loops[s].state.Waiting?
  {
    var l := st.loops[s];
    st.(reminds := st.reminds[l.reminder.id := l.reminder], loops := st.loops[s := l.(state := DuePendingAck)])
  }

  /** A waiting loop receives from its closed cancel channel and returns. */
  function CancelReceived(st: State, s: Signal): State
    requires s in st.loops && st.loops[s].state.Waiting? && st.loops[s].cancelClosed
  {
    st.(loops := st.loops[s := st.loops[s].(state := Terminated)])
  }

  /** A loop waiting for completion receives from its closed complete channel and computes again. */
  function ClosedAck(st: State, s: Signal): State
    requires s in st.loops && st.loops[s].state.DuePendingAck? && st.loops[s].completeClosed
  {
    st.(loops := st.loops[s := st.loops[s].(state := Computing)])
  }

  lemma ComputeInv(st: State, s: Signal, next: Option<Instant>)
    requires Inv(st) && s in st.loops && st.loops[s].state == Computing
    ensures Inv(Compute(st, s, next))
  {
    var id := st.loops[s].reminder.id;
    if next.None? {
      RemoveOneInv(st, id);
      var gone := RemoveOne(st, id);
      forall other | other in gone.cancels
        ensures gone.cancels[other] != s
      {
        assert gone.loops[gone.cancels[other]].reminder.id == other;
      }
    } else {
      var r := Compute(st, s, next);
      forall other | other in r.cancels
        ensures Live(other, r.loops[r.cancels[other]], r.reminds)
      {
        assert st.loops[st.cancels[other]].reminder.id == other;
      }
    }
  }

  lemma TimerInv(st: State, s: Signal)
    requires Inv(st) && s in st.loops && st.loops[s].state.Waiting?
    ensures Inv(Timer(st, s))
  {
    var r := Timer(st, s);
    forall other | other in r.cancels
      ensures Live(other, r.loops[r.cancels[other]], r.reminds)
    {
      assert st.loops[st.cancels[other]].reminder.id == other;
    }
  }

  /** Only a loop whose id is no longer registered to it can see a closed channel, so the steps on closed channels keep the invariant. */
  lemma ClosedStepsInv(st: State, s: Signal)
    requires Inv(st) && s in st.loops
    ensures st.loops[s].state.Waiting? && st.loops[s].cancelClosed ==> Inv(CancelReceived(st, s))
    ensures st.loops[s].state.DuePendingAck? && st.loops[s].completeClosed ==> Inv(ClosedAck(st, s))
  {
    forall other | other in st.cancels
      ensures st.cancels[other] != s || !(st.loops[s].cancelClosed || st.loops[s].completeClosed)
    {
    }
  }

  /**
    The handshake of one occurrence: the timer publishes the loop's snapshot as
    the due entry of its id; completing that id can then go through, clears the
    entry and sends the loop back to computing, leaving everything else as it was.
  */
  lemma TimerThenComplete(st: State, s: Signal)
    requires Inv(st) && s in st.loops && st.loops[s].state.Waiting?
    requires st.loops[s].reminder.id in st.completes && st.completes[st.loops[s].reminder.id] == s
    ensures var id, t := st.loops[s].reminder.id, Timer(st, s);
      && id in t.reminds && t.reminds[id] == st.loops[s].reminder
      && CanComplete(t, [id])
      && Complete(t, [id]) == st.(reminds := st.reminds - {id}, loops := st.loops[s := st.loops[s].(state := Computing)])
  {
    var id, t := st.loops[s].reminder.id, Timer(st, s);
    assert [id][..0] == [];
    assert t.reminds - {id} == st.reminds - {id};
  }

  /**
    RemoveReminders on a registered id reaches its loop: a loop blocked in its
    select returns, a loop waiting for completion computes again with both
    channels closed (its next select then takes the cancel case), and the id is
    left in none of the three stores.
  */
  lemma RemoveSignalsLoop(st: State, id: int)
    requires Inv(st) && id in st.cancels
    ensures var s, r := st.cancels[id], Remove(st, [id]);
      && s in r.loops && r.loops[s].cancelClosed && r.loops[s].completeClosed
      && (st.loops[s].state.Waiting? ==> r.loops[s].state == Terminated)
      && (st.loops[s].state.DuePendingAck? ==> r.loops[s].state == Computing)
      && (st.loops[s].state.Computing? ==> r.loops[s].state == Computing)
      && id !in r.cancels && id !in r.completes && id !in r.reminds
  {
    assert [id][..0] == [];
  }

  /** The effects of the loop's side calls: the cron rule parser, the occurrence function and time.LoadLocation. */
  datatype Collaborators = Collaborators(
    parse: string -> bool,
    next: (string, Instant, string) -> Option<Instant>,
    loads: string -> bool)

  /** defaultRemindManager: the three stores, the loops it started and their shared collaborators. */
  class RemindManager {
    const cancels: SyncMap<int, Signal>
    const completes: SyncMap<int, Signal>
    const reminds: SyncMap<int, Reminder>
    const defaultLocation: string
    const env: Collaborators
    var loops: map<Signal, Loop>
    var nextLoop: nat
    var storageDeletes: seq<int>

    ghost function Abstract(): State
      reads this, cancels, completes, reminds
    {
      State(cancels.m, completes.m, reminds.m, loops, nextLoop, storageDeletes)
    }

    ghost predicate Valid()
      reads this, cancels, completes, reminds
    {
      && cancels != completes
      && (cancels as object) != (reminds as object)
      && (completes as object) != (reminds as object)
      && Inv(Abstract())
    }

    /** rman.New. */
    constructor (defaultLocation: string, env: Collaborators)
      ensures Valid() && Abstract() == Initial()
      ensures this.defaultLocation == defaultLocation && this.env == env
      ensures fresh(cancels) && fresh(completes) && fresh(reminds)
    {
      cancels := new SyncMap<int, Signal>();
      completes := new SyncMap<int, Signal>();
      reminds := new SyncMap<int, Reminder>();
      this.defaultLocation := defaultLocation;
      this.env := env;
      loops := map[];
      nextLoop := 0;
      storageDeletes := [];
    }

    method TriggerReminds(rs: seq<Reminder>)
      requires Valid()
      modifies reminds
      ensures Valid() && Abstract() == Trigger(old(Abstract()), rs)
    {
      ghost var st := Abstract();
      for i := 0 to |rs|
        invariant Valid() && Abstract() == Trigger(st, rs[..i])
      {
        assert rs[..i + 1][..i] == rs[..i];
        TriggerInv(st, rs[..i + 1]);
        reminds.Set(rs[i].id, rs[i]);
      }
      assert rs[..|rs|] == rs;
    }

    /** GetReminds: every due entry exactly once, in the store's iteration order. */
    method GetReminds() returns (result: seq<Reminder>)
      requires Valid()
      ensures |result| == |reminds.m|
      ensures forall i :: 0 <= i < |result| ==> result[i].id in reminds.m && reminds.m[result[i].id] == result[i]
      ensures forall i, j :: 0 <= i < j < |result| ==> result[i].id != result[j].id
      ensures forall id :: id in reminds.m ==> exists i :: 0 <= i < |result| && result[i].id == id
    {
      var calls := reminds.Range((k: int, v: Reminder) => true);
      result := [];
      for i := 0 to |calls|
        invariant |result| == i
        invariant forall j :: 0 <= j < i ==> result[j] == calls[j].1 && result[j].id == calls[j].0
      {
        result := result + [calls[i].1];
      }
    }

    method CompleteReminds(ids: seq<int>)
      requires Valid() && CanComplete(Abstract(), ids)
      modifies this, reminds
      ensures Valid() && Abstract() == Complete(old(Abstract()), ids)
    {
      ghost var st := Abstract();
      for i := 0 to |ids|
        invariant Valid() && Abstract() == Complete(st, ids[..i])
      {
        assert ids[..i + 1][..i] == ids[..i];
        CompleteOneInv(Abstract(), ids[i]);
        var complete := completes.Get(ids[i]);
        if complete.Some? {
          var s := complete.value;
          loops := loops[s := loops[s].(state := Computing)];
          reminds.Delete(ids[i]);
        }
      }
      assert ids[..|ids|] == ids;
    }

    method AddReminders(rs: seq<Reminder>)
      requires Valid()
      modifies this, cancels, completes
      ensures Valid() && Abstract() == Add(old(Abstract()), env.parse, rs)
    {
      ghost var st := Abstract();
      for i := 0 to |rs|
        invariant Valid() && Abstract() == Add(st, env.parse, rs[..i])
      {
        assert rs[..i + 1][..i] == rs[..i];
        AddOneInv(Abstract(), env.parse, rs[i]);
        if env.parse(rs[i].rule) {
          var s := Signal(nextLoop);
          cancels.Set(rs[i].id, s);
          completes.Set(rs[i].id, s);
          loops := loops[s := Loop(rs[i], Computing, false, false)];
          nextLoop := nextLoop + 1;
        }
      }
      assert rs[..|rs|] == rs;
    }

    method RemoveReminders(ids: seq<int>)
      requires Valid()
      modifies this, cancels, completes, reminds
      ensures Valid() && Abstract() == Remove(old(Abstract()), ids)
    {
      ghost var st := Abstract();
      for i := 0 to |ids|
        invariant Valid() && Abstract() == Remove(st, ids[..i])
      {
        assert ids[..i + 1][..i] == ids[..i];
        RemoveOneInv(Abstract(), ids[i]);
        var cancel := cancels.Get(ids[i]);
        if cancel.Some? {
          var s := cancel.value;
          loops := loops[s := SendCancel(loops[s])];
          var complete := completes.Get(ids[i]);
          if complete.Some? {
            loops := loops[complete.value := SendComplete(loops[complete.value])];
          }
          reminds.Delete(ids[i]);
          completes.Delete(ids[i]);
          cancels.Delete(ids[i]);
        }
      }
      assert ids[..|ids|] == ids;
    }

    /**
      One pass of generateReminds up to its select: the occurrence after now, in
      the zone found for the reminder's channel (channelZone is what the channel
      lookup returned, None when it failed).
    */
    method StepCompute(s: Signal, now: Instant, channelZone: Option<string>)
      requires Valid() && s in loops && loops[s].state == Computing
      modifies this, cancels, completes, reminds
      ensures Valid()
      ensures Abstract() == Compute(old(Abstract()), s,
        env.next(old(loops[s]).reminder.rule, now, EffectiveZone(defaultLocation, channelZone, env.loads)))
    {
      ghost var st := Abstract();
      var reminder := loops[s].reminder;
      var zone := EffectiveZone(defaultLocation, channelZone, env.loads);
      var next := env.next(reminder.rule, now, zone);
      ComputeInv(st, s, next);
      if next.None? {
        assert [reminder.id][..0] == [];
        RemoveReminders([reminder.id]);
        storageDeletes := storageDeletes + [reminder.id];
        loops := loops[s := loops[s].(state := Terminated)];
      } else {
        loops := loops[s := loops[s].(state := Waiting(next.value))];
      }
    }

    /** The select of a waiting loop takes the timer case once the occurrence is due. */
    method StepTimer(s: Signal, now: Instant)
      requires Valid() && s in loops && loops[s].state.Waiting? && now >= loops[s].state.next
      modifies this, reminds
      ensures Valid() && Abstract() == Timer(old(Abstract()), s)
    {
      TimerInv(Abstract(), s);
      var l := loops[s];
      reminds.Set(l.reminder.id, l.reminder);
      loops := loops[s := l.(state := DuePendingAck)];
    }

    /** The select of a waiting loop takes the cancel case on a closed cancel channel. */
    method StepCancelReceived(s: Signal)
      requires Valid() && s in loops && loops[s].state.Waiting? && loops[s].cancelClosed
      modifies this
      ensures Valid() && Abstract() == CancelReceived(old(Abstract()), s)
    {
      ClosedStepsInv(Abstract(), s);
      loops := loops[s := loops[s].(state := Terminated)];
    }

    /** `<-complete` returns at once on a closed complete channel. */
    method StepClosedAck(s: Signal)
      requires Valid() && s in loops && loops[s].state.DuePendingAck? && loops[s].completeClosed
      modifies this
      ensures Valid() && Abstract() == ClosedAck(old(Abstract()), s)
    {
      ClosedStepsInv(Abstract(), s);
      loops := loops[s := loops[s].(state := Computing)];
    }
  }
}
