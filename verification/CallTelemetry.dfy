/** A session's event and transcript log: buffered, numbered, and written in order
    by a chain of writes that may fail. */
module CallTelemetry {

  /** An event or a transcript turn with its sequence number. */
  datatype Numbered<E> = Numbered(n: nat, item: E)

  /** `items[from..to]` with their positions as numbers. */
  function Number<E>(items: seq<E>, from: nat, to: nat): (r: seq<Numbered<E>>)
    requires from <= to <= |items|
    ensures |r| == to - from && forall k :: 0 <= k < |r| ==> r[k] == Numbered(from + k, items[from + k])
    decreases |items| - from
  {
    if from == to then [] else [Numbered(from, items[from])] + Number(items, from + 1, to)
  }

  lemma NumberPrefix<E>(items: seq<E>, more: seq<E>, from: nat, to: nat)
    requires from <= to <= |items| && items <= more
    ensures Number(items, from, to) == Number(more, from, to)
  {
  }

  lemma NumberJoins<E>(items: seq<E>, a: nat, b: nat, c: nat)
    requires a <= b <= c <= |items|
    ensures Number(items, a, b) + Number(items, b, c) == Number(items, a, c)
  {
  }

  /** The pending batches hold the items from `from` to `to`, each once, in order. */
  ghost predicate Covers<E>(batches: seq<seq<Numbered<E>>>, items: seq<E>, from: nat, to: nat)
    requires to <= |items|
  {
    if batches == [] then from == to
    else
      var next := from + |batches[0]|;
      next <= to && batches[0] == Number(items, from, next) && Covers(batches[1..], items, next, to)
  }

  lemma {:induction false} CoversMore<E>(batches: seq<seq<Numbered<E>>>, items: seq<E>, more: seq<E>, from: nat,
                                         to: nat)
    requires to <= |items| && items <= more && Covers(batches, items, from, to)
    ensures Covers(batches, more, from, to)
  {
    if batches != [] {
      var next := from + |batches[0]|;
      NumberPrefix(items, more, from, next);
      CoversMore(batches[1..], items, more, next, to);
    }
  }

  lemma {:induction false} CoversPlus<E>(batches: seq<seq<Numbered<E>>>, batch: seq<Numbered<E>>, items: seq<E>,
                                        from: nat, mid: nat, to: nat)
    requires mid <= to <= |items| && Covers(batches, items, from, mid) && batch == Number(items, mid, to)
    ensures Covers(batches + [batch], items, from, to)
  {
    if batches == [] {
      assert Covers([], items, to, to);
      assert (batches + [batch])[1..] == [];
    } else {
      CoversPlus(batches[1..], batch, items, from + |batches[0]|, mid, to);
      assert (batches + [batch])[1..] == batches[1..] + [batch];
      CoversEnds(batches, items, from, mid);
    }
  }

  lemma {:induction false} CoversEnds<E>(batches: seq<seq<Numbered<E>>>, items: seq<E>, from: nat, to: nat)
    requires to <= |items| && Covers(batches, items, from, to)
    ensures from <= to
  {
    if batches != [] { CoversEnds(batches[1..], items, from + |batches[0]|, to); }
  }

  /** The store keeps what it has and adds what has a new number. */
  function Appended<E>(list: seq<Numbered<E>>, batch: seq<Numbered<E>>): seq<Numbered<E>>
    decreases |batch|
  {
    if batch == [] then list
    else if exists k :: 0 <= k < |list| && list[k].n == batch[0].n then Appended(list, batch[1..])
    else Appended(list + [batch[0]], batch[1..])
  }

  /** What is stored is in order, unaltered, and from before `limit`. */
  ghost predicate StoredOk<E>(list: seq<Numbered<E>>, items: seq<E>, limit: nat) {
    && (forall k :: 0 <= k < |list| ==> list[k].n < limit && list[k].n < |items| && list[k].item == items[list[k].n])
    && (forall i, j :: 0 <= i < j < |list| ==> list[i].n < list[j].n)
  }

  lemma OneMoreStored<E>(list: seq<Numbered<E>>, items: seq<E>, from: nat)
    requires from < |items| && StoredOk(list, items, from)
    ensures StoredOk(list + [Numbered(from, items[from])], items, from + 1)
    ensures forall k :: 0 <= k < |list| ==> list[k].n != from
  {
  }

  lemma NumberHead<E>(items: seq<E>, from: nat, to: nat)
    requires from < to <= |items|
    ensures Number(items, from, to) == [Numbered(from, items[from])] + Number(items, from + 1, to)
  {
  }

  lemma AppendNew<E>(list: seq<Numbered<E>>, x: Numbered<E>, rest: seq<Numbered<E>>)
    requires forall k :: 0 <= k < |list| ==> list[k].n != x.n
    ensures Appended(list, [x] + rest) == Appended(list + [x], rest)
  {
    assert ([x] + rest)[1..] == rest;
  }

  lemma NothingToAppend<E>(list: seq<Numbered<E>>, items: seq<E>, at: nat)
    requires at <= |items|
    ensures Number(items, at, at) == [] && Appended(list, []) == list == list + []
  {
  }

  /** The next batch has only new numbers, so all of it is added. */
  lemma {:induction false} AppendedAll<E>(list: seq<Numbered<E>>, items: seq<E>, from: nat, to: nat)
    requires from <= to <= |items| && StoredOk(list, items, from)
    ensures Appended(list, Number(items, from, to)) == list + Number(items, from, to)
    ensures StoredOk(list + Number(items, from, to), items, to)
    decreases |items| - from
  {
    hide Number;
    hide Appended;
    hide StoredOk;
    if from < to {
      var rest := Number(items, from + 1, to);
      NumberHead(items, from, to);
      OneMoreStored(list, items, from);
      AppendNew(list, Numbered(from, items[from]), rest);
      AppendedAll(list + [Numbered(from, items[from])], items, from + 1, to);
      assert list + [Numbered(from, items[from])] + rest == list + Number(items, from, to);
    } else {
      NothingToAppend(list, items, from);
    }
  }

  lemma StoredMore<E>(list: seq<Numbered<E>>, items: seq<E>, more: seq<E>, limit: nat, later: nat)
    requires StoredOk(list, items, limit) && items <= more && limit <= later
    ensures StoredOk(list, more, later)
  {
  }

  /** One kind of item (events, or turns) from its buffer to the store: `emitted` is
      everything ever produced, the batches cover what is on its way, and `stored`
      is what arrived; all of it, unless a write failed. */
  ghost predicate LaneOk<E>(emitted: seq<E>, flushed: nat, tried: nat, batches: seq<seq<Numbered<E>>>,
                            stored: seq<Numbered<E>>, failed: bool) {
    && tried <= flushed <= |emitted| && Covers(batches, emitted, tried, flushed)
    && StoredOk(stored, emitted, tried) && (!failed ==> stored == Number(emitted, 0, tried))
  }

  lemma Emitted<E>(emitted: seq<E>, item: E, flushed: nat, tried: nat, batches: seq<seq<Numbered<E>>>,
                   stored: seq<Numbered<E>>, failed: bool)
    requires LaneOk(emitted, flushed, tried, batches, stored, failed)
    ensures LaneOk(emitted + [item], flushed, tried, batches, stored, failed)
  {
    CoversMore(batches, emitted, emitted + [item], tried, flushed);
    StoredMore(stored, emitted, emitted + [item], tried, tried);
    NumberPrefix(emitted, emitted + [item], 0, tried);
  }

  lemma Flushed<E>(emitted: seq<E>, flushed: nat, tried: nat, batches: seq<seq<Numbered<E>>>,
                   stored: seq<Numbered<E>>, failed: bool)
    requires LaneOk(emitted, flushed, tried, batches, stored, failed)
    ensures LaneOk(emitted, |emitted|, tried, batches + [Number(emitted, flushed, |emitted|)], stored, failed)
  {
    CoversPlus(batches, Number(emitted, flushed, |emitted|), emitted, tried, flushed, |emitted|);
  }

  lemma Written<E>(emitted: seq<E>, flushed: nat, tried: nat, batches: seq<seq<Numbered<E>>>,
                   stored: seq<Numbered<E>>, failed: bool, ok: bool)
    requires LaneOk(emitted, flushed, tried, batches, stored, failed) && batches != []
    ensures var now := if ok then Appended(stored, batches[0]) else stored;
            LaneOk(emitted, flushed, tried + |batches[0]|, batches[1..], now, failed || (!ok && batches[0] != []))
  {
    var next := tried + |batches[0]|;
    CoversEnds(batches[1..], emitted, next, flushed);
    AppendedAll(stored, emitted, tried, next);
    StoredMore(stored, emitted, emitted, tried, next);
    if !failed { NumberJoins(emitted, 0, tried, next); }
  }

  // ---- the log -------------------------------------------------------------------------------

  datatype Batch<E, T> = Batch(events: seq<Numbered<E>>, turns: seq<Numbered<T>>)

  function EventsOf<E, T>(writes: seq<Batch<E, T>>): (r: seq<seq<Numbered<E>>>) {
    seq(|writes|, i requires 0 <= i < |writes| => writes[i].events)
  }

  function TurnsOf<E, T>(writes: seq<Batch<E, T>>): (r: seq<seq<Numbered<T>>>) {
    seq(|writes|, i requires 0 <= i < |writes| => writes[i].turns)
  }

  lemma TailOf<E, T>(writes: seq<Batch<E, T>>)
    requires writes != []
    ensures EventsOf(writes)[0] == writes[0].events && TurnsOf(writes)[0] == writes[0].turns
    ensures EventsOf(writes[1..]) == EventsOf(writes)[1..] && TurnsOf(writes[1..]) == TurnsOf(writes)[1..]
    ensures EventsOf(writes) != [] && TurnsOf(writes) != []
  {
    assert |EventsOf(writes)| == |TurnsOf(writes)| == |writes|;
  }

  class SessionLog<E, T> {
    const flushSize: int
    var events: seq<E>
    var eventSeq: nat
    var pendingTranscript: seq<Numbered<T>>
    var transcriptSeq: nat
    var writes: seq<Batch<E, T>>
    var storedEvents: seq<Numbered<E>>
    var storedTurns: seq<Numbered<T>>

    ghost var emitted: seq<E>
    ghost var spoken: seq<T>
    ghost var eventsTried: nat
    ghost var turnsTried: nat
    ghost var turnsFlushed: nat
    ghost var eventsFailed: bool
    ghost var turnsFailed: bool

    ghost predicate Valid()
      reads this
    {
      && LaneOk(emitted, eventSeq, eventsTried, EventsOf(writes), storedEvents, eventsFailed)
      && LaneOk(spoken, turnsFlushed, turnsTried, TurnsOf(writes), storedTurns, turnsFailed)
      && events == emitted[eventSeq..]
      && transcriptSeq == |spoken| && pendingTranscript == Number(spoken, turnsFlushed, |spoken|)
    }

    constructor (flushSize: int)
      ensures Valid() && emitted == [] && spoken == [] && writes == [] && !eventsFailed && !turnsFailed
      ensures this.flushSize == flushSize
    {
      this.flushSize := flushSize;
      events, eventSeq, pendingTranscript, transcriptSeq, writes := [], 0, [], 0, [];
      storedEvents, storedTurns := [], [];
      emitted, spoken, eventsTried, turnsTried, turnsFlushed := [], [], 0, 0, 0;
      eventsFailed, turnsFailed := false, false;
    }

    /** An event is buffered, and the buffer flushed when it is full. */
    method OnEvent(event: E)
      requires Valid()
      modifies this
      ensures Valid() && emitted == old(emitted) + [event] && spoken == old(spoken)
      ensures storedEvents == old(storedEvents) && storedTurns == old(storedTurns)
      ensures eventsFailed == old(eventsFailed) && turnsFailed == old(turnsFailed)
      ensures |old(events)| + 1 >= flushSize ==> events == []
    {
      hide LaneOk;
      Emitted(emitted, event, eventSeq, eventsTried, EventsOf(writes), storedEvents, eventsFailed);
      InBounds();
      events, emitted := events + [event], emitted + [event];
      if |events| >= flushSize { Flush(); }
    }

    method OnTranscriptTurn(turn: T)
      requires Valid()
      modifies this
      ensures Valid() && emitted == old(emitted) && spoken == old(spoken) + [turn]
      ensures storedEvents == old(storedEvents) && storedTurns == old(storedTurns)
      ensures eventsFailed == old(eventsFailed) && turnsFailed == old(turnsFailed)
    {
      hide LaneOk;
      Emitted(spoken, turn, turnsFlushed, turnsTried, TurnsOf(writes), storedTurns, turnsFailed);
      InBounds();
      pendingTranscript := pendingTranscript + [Numbered(transcriptSeq, turn)];
      transcriptSeq, spoken := transcriptSeq + 1, spoken + [turn];
      if |pendingTranscript| >= flushSize { Flush(); }
    }

    lemma InBounds()
      requires Valid()
      ensures eventSeq <= |emitted| && turnsFlushed <= |spoken|
    {
    }

    /** Numbers the buffered events and queues both buffers as one write. */
    method Flush()
      requires Valid()
      modifies this
      ensures Valid() && emitted == old(emitted) && spoken == old(spoken)
      ensures events == [] && pendingTranscript == [] && old(writes) <= writes
      ensures storedEvents == old(storedEvents) && storedTurns == old(storedTurns)
      ensures eventsFailed == old(eventsFailed) && turnsFailed == old(turnsFailed)
    {
      hide LaneOk;
      InBounds();
      var numbered := NumberFrom(eventSeq, events);
      assert numbered == Number(emitted, eventSeq, |emitted|);
      Flushed(emitted, eventSeq, eventsTried, EventsOf(writes), storedEvents, eventsFailed);
      Flushed(spoken, turnsFlushed, turnsTried, TurnsOf(writes), storedTurns, turnsFailed);
      var turns := pendingTranscript;
      eventSeq, events, pendingTranscript := eventSeq + |events|, [], [];
      turnsFlushed := |spoken|;
      if numbered == [] && turns == [] { return; }
      ghost var before := writes;
      writes := writes + [Batch(numbered, turns)];
      assert EventsOf(writes) == EventsOf(before) + [numbered];
      assert TurnsOf(writes) == TurnsOf(before) + [turns];
    }

    /** The store takes a batch of events, or refuses it. */
    method AppendEvents(ok: bool)
      requires EventsOf(writes) != []
      requires LaneOk(emitted, eventSeq, eventsTried, EventsOf(writes), storedEvents, eventsFailed)
      requires writes != [] && EventsOf(writes)[0] == writes[0].events
      modifies `storedEvents, `eventsFailed, `eventsTried
      ensures LaneOk(emitted, eventSeq, eventsTried, EventsOf(writes)[1..], storedEvents, eventsFailed)
      ensures storedEvents == if ok then Appended(old(storedEvents), writes[0].events) else old(storedEvents)
      ensures eventsFailed == (old(eventsFailed) || (!ok && writes[0].events != []))
    {
      hide LaneOk;
      Written(emitted, eventSeq, eventsTried, EventsOf(writes), storedEvents, eventsFailed, ok);
      if ok { storedEvents := Appended(storedEvents, writes[0].events); }
      eventsFailed := eventsFailed || (!ok && writes[0].events != []);
      eventsTried := eventsTried + |writes[0].events|;
    }

    method AppendTranscript(ok: bool)
      requires TurnsOf(writes) != []
      requires LaneOk(spoken, turnsFlushed, turnsTried, TurnsOf(writes), storedTurns, turnsFailed)
      requires writes != [] && TurnsOf(writes)[0] == writes[0].turns
      modifies `storedTurns, `turnsFailed, `turnsTried
      ensures LaneOk(spoken, turnsFlushed, turnsTried, TurnsOf(writes)[1..], storedTurns, turnsFailed)
      ensures storedTurns == if ok then Appended(old(storedTurns), writes[0].turns) else old(storedTurns)
      ensures turnsFailed == (old(turnsFailed) || (!ok && writes[0].turns != []))
    {
      hide LaneOk;
      Written(spoken, turnsFlushed, turnsTried, TurnsOf(writes), storedTurns, turnsFailed, ok);
      if ok { storedTurns := Appended(storedTurns, writes[0].turns); }
      turnsFailed := turnsFailed || (!ok && writes[0].turns != []);
      turnsTried := turnsTried + |writes[0].turns|;
    }

    /** The next write of the chain: the events, and then the turns unless that failed. */
    method WriteNext(eventsOk: bool, turnsOk: bool)
      requires Valid() && writes != []
      modifies `writes, `storedEvents, `eventsFailed, `eventsTried, `storedTurns, `turnsFailed, `turnsTried
      ensures Valid() && writes == old(writes)[1..]
      ensures var ok := eventsOk || old(writes)[0].events == [];
              storedEvents == (if ok then Appended(old(storedEvents), old(writes)[0].events) else old(storedEvents))
              && storedTurns
              == (if ok && turnsOk then Appended(old(storedTurns), old(writes)[0].turns) else old(storedTurns))
      ensures eventsOk ==> eventsFailed == old(eventsFailed)
      ensures eventsOk && turnsOk ==> turnsFailed == old(turnsFailed)
    {
      hide LaneOk;
      hide Appended;
      hide Number;
      TailOf(writes);
      hide EventsOf;
      hide TurnsOf;
      var ok := eventsOk || writes[0].events == [];
      AppendEvents(ok);
      AppendTranscript(ok && turnsOk);
      writes := writes[1..];
    }

    /** Once the chain has drained: what is stored is exactly what was emitted so far,
        numbered without gaps, unless a write failed; and even then it is in order. */
    lemma Drained()
      requires Valid() && writes == [] && events == [] && pendingTranscript == []
      ensures StoredOk(storedEvents, emitted, |emitted|) && StoredOk(storedTurns, spoken, |spoken|)
      ensures !eventsFailed ==> storedEvents == Number(emitted, 0, |emitted|)
      ensures !turnsFailed ==> storedTurns == Number(spoken, 0, |spoken|)
    {
    }
  }

  /** The numbering loop of `flush`. */
  function NumberFrom<E>(from: nat, items: seq<E>): (r: seq<Numbered<E>>)
    ensures |r| == |items| && forall k :: 0 <= k < |r| ==> r[k] == Numbered(from + k, items[k])
    decreases |items|
  {
    if items == [] then [] else [Numbered(from, items[0])] + NumberFrom(from + 1, items[1..])
  }
}
